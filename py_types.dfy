/** Values of the Python backend: the exceptions its core raises, chat messages in
    LangChain's form, model configuration, uploaded file contents and documents. */
module PyTypes {
  import opened Wrappers
  import opened Json

  /** The exceptions the core raises: `ValueError`, FastAPI's `HTTPException`, the
      `IndexError`, `KeyError` and `TypeError` of indexing, and the decoding error of
      `response.json()`. */
  datatype PyError =
    | ValueError(message: string)
    | HTTPException(statusCode: int, detail: string)
    | IndexError
    | KeyError(key: string)
    | TypeError
    | JSONDecodeError

  datatype MessageRole = SystemRole | HumanRole

  /** A LangChain `SystemMessage` or `HumanMessage`. */
  datatype LCMessage = LCMessage(role: MessageRole, content: string)

  /** `ModelConfig` of api/models/providers/base.py; the temperature is kept in tenths. */
  datatype PyModelConfig = PyModelConfig(name: string, temperatureTenths: int, supportsVision: bool, supportsAudio: bool)

  /** `FileContent`: raw bytes, a MIME type and metadata. */
  datatype FileContent = FileContent(content: seq<bv8>, mimeType: string, metadata: map<string, Json>)

  /** A LangChain `Document`. */
  datatype Document = Document(pageContent: string, metadata: map<string, Json>)
}
