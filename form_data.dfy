/** The form encoding of chat requests: `FormDataBuilder` of
    src/services/api/request/formDataBuilder.ts and `buildChatRequest` of
    src/services/api/request/chatRequest.ts. A `FormData` is its list of entries in
    append order. */
module FormData {
  import opened Wrappers

  class Form {
    var entries: seq<(string, string)>

    constructor ()
      ensures entries == []
    {
      entries := [];
    }

    /** `FormData.append(name, value)`. */
    method Append(name: string, value: string)
      modifies this
      ensures entries == old(entries) + [(name, value)]
    {
      entries := entries + [(name, value)];
    }
  }

  class FormDataBuilder {
    const formData: Form

    constructor ()
      ensures fresh(formData) && formData.entries == []
    {
      formData := new Form();
    }

    /** `addField(name, value)`: appends unless the value is `undefined` (an empty string
        is appended), and returns the builder itself for chaining. */
    method AddField(name: string, value: Option<string>) returns (self: FormDataBuilder)
      modifies formData
      ensures self == this
      ensures formData.entries == old(formData.entries) + (if value.Some? then [(name, value.value)] else [])
    {
      if value.Some? {
        formData.Append(name, value.value);
      }
      self := this;
    }

    /** `build()`: the accumulated form, not reset. */
    method Build() returns (form: Form)
      ensures form == formData
    {
      form := formData;
    }
  }

  /** The entries of a chat request form. */
  function ChatFields(question: string, model: string, apiKey: Option<string>): (fields: seq<(string, string)>)
    ensures |fields| == (if apiKey.Some? then 3 else 2)
    ensures fields[0] == ("question", question) && fields[1] == ("model", model)
    ensures apiKey.Some? ==> fields[2] == ("apiKey", apiKey.value)
  {
    [("question", question), ("model", model)] + (if apiKey.Some? then [("apiKey", apiKey.value)] else [])
  }

  /** `buildChatRequest(question, model, apiKey)`: question, model, then the key if given. */
  method BuildChatRequest(question: string, model: string, apiKey: Option<string>) returns (form: Form)
    ensures fresh(form)
    ensures form.entries == ChatFields(question, model, apiKey)
  {
    var builder := new FormDataBuilder();
    var b1 := builder.AddField("question", Some(question));
    var b2 := b1.AddField("model", Some(model));
    var b3 := b2.AddField("apiKey", apiKey);
    form := b3.Build();
  }
}
