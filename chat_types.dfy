/** The chat entities of src/types/index.ts: messages, chats, uploaded files and the
    documents an answer cites. Dates are modelled as millisecond timestamps. */
module ChatTypes {
  import opened Wrappers
  import opened Json

  datatype Role = User | Assistant

  /** A document an answer was drawn from (`sourceDocuments` of an `LLMResponse`). */
  datatype SourceDocument = SourceDocument(pageContent: string, metadata: map<string, Json>)

  /** `Message`; `sourceDocuments` is set only on answers from the online chat flow. */
  datatype Message = Message(
    id: string,
    content: string,
    role: Role,
    timestamp: int,
    files: Option<seq<string>>,
    sourceDocuments: Option<seq<SourceDocument>>)

  /** `Chat`. */
  datatype Chat = Chat(id: string, name: string, messages: seq<Message>, createdAt: int)

  /** A browser `File`, of which the core only reads the name. */
  datatype File = File(name: string)

  /** `LLMResponse`: the answer text and the documents it cites. */
  datatype LLMResponse = LLMResponse(text: string, sourceDocuments: Option<seq<SourceDocument>>)

  /** `files.map(file => file.name)`. */
  function FileNames(files: seq<File>): (names: seq<string>)
    ensures |names| == |files|
    ensures forall i :: 0 <= i < |files| ==> names[i] == files[i].name
  {
    seq(|files|, i requires 0 <= i < |files| => files[i].name)
  }

  /** `files?.map(file => file.name)`: absent stays absent. */
  function OptionalFileNames(files: Option<seq<File>>): (names: Option<seq<string>>)
    ensures names.Some? <==> files.Some?
    ensures files.Some? ==> names.value == FileNames(files.value)
  {
    match files
    case None => None
    case Some(fs) => Some(FileNames(fs))
  }

  /** The ids of a chat list, in order. */
  function Ids(chats: seq<Chat>): (ids: seq<string>)
    ensures |ids| == |chats|
    ensures forall i :: 0 <= i < |chats| ==> ids[i] == chats[i].id
  {
    seq(|chats|, i requires 0 <= i < |chats| => chats[i].id)
  }

  /** No two chats share an id. */
  predicate DistinctIds(chats: seq<Chat>) {
    forall i, j :: 0 <= i < j < |chats| ==> chats[i].id != chats[j].id
  }

  /** `chats.find(chat => chat.id === id)`: the first chat with that id. */
  function FindChat(chats: seq<Chat>, id: string): (r: Option<Chat>)
    ensures r.Some? <==> id in Ids(chats)
    ensures r.Some? ==> r.value in chats && r.value.id == id
    ensures r.Some? ==> exists i :: 0 <= i < |chats| && chats[i] == r.value
                                    && forall j :: 0 <= j < i ==> chats[j].id != id
  {
    if chats == [] then None
    else if chats[0].id == id then Some(chats[0])
    else
      var rest := FindChat(chats[1..], id);
      assert Ids(chats) == [chats[0].id] + Ids(chats[1..]);
      if rest.Some? then
        var i :| 0 <= i < |chats[1..]| && chats[1..][i] == rest.value
                 && forall j :: 0 <= j < i ==> chats[1..][j].id != id;
        assert chats[i + 1] == rest.value;
        rest
      else rest
  }

  /** Whether ids repeat depends only on the ids. */
  lemma SameIdsDistinct(a: seq<Chat>, b: seq<Chat>)
    requires Ids(a) == Ids(b) && DistinctIds(a)
    ensures DistinctIds(b)
  {
    forall i, j | 0 <= i < j < |b| ensures b[i].id != b[j].id {
      assert Ids(b)[i] == a[i].id && Ids(b)[j] == a[j].id;
    }
  }

  /** In a list without repeated ids, the chat found for an id is the one at its index. */
  lemma {:induction false} FindChatAt(chats: seq<Chat>, i: nat)
    requires DistinctIds(chats) && i < |chats|
    ensures FindChat(chats, chats[i].id) == Some(chats[i])
  {
    if i > 0 {
      assert chats[0].id != chats[i].id;
      FindChatAt(chats[1..], i - 1);
    }
  }
}
