/** `generateChatName` of src/utils/chat.ts: a chat is named after its first message
    with visible content, cut to thirty characters. */
module ChatName {
  import opened Wrappers
  import opened Strings

  const NewChatName: string := "New Chat"
  const NameLimit: nat := 30
  const Ellipsis: string := "..."

  /** `messages.find(m => m.content.trim().length > 0)`, as an index. */
  function FirstNonBlank(contents: seq<string>): (r: Option<nat>)
    ensures r.None? ==> forall i :: 0 <= i < |contents| ==> IsBlank(contents[i])
    ensures r.Some? ==> r.value < |contents| && !IsBlank(contents[r.value])
    ensures r.Some? ==> forall j :: 0 <= j < r.value ==> IsBlank(contents[j])
  {
    if contents == [] then None
    else if !IsBlank(contents[0]) then Some(0)
    else
      match FirstNonBlank(contents[1..])
      case None => None
      case Some(k) => Some(k + 1)
  }

  /** The name of a chat whose messages have the given contents. The slice is taken of
      the untrimmed content, so leading blanks stay in the name. */
  function GenerateChatName(contents: seq<string>): (name: string)
    ensures name != []
    ensures |name| <= NameLimit + |Ellipsis|
    ensures FirstNonBlank(contents).None? ==> name == NewChatName
    ensures FirstNonBlank(contents).Some? && |contents[FirstNonBlank(contents).value]| <= NameLimit
            ==> name == contents[FirstNonBlank(contents).value]
    ensures FirstNonBlank(contents).Some? && |contents[FirstNonBlank(contents).value]| > NameLimit
            ==> name == contents[FirstNonBlank(contents).value][..NameLimit] + Ellipsis
  {
    match FirstNonBlank(contents)
    case None => NewChatName
    case Some(i) =>
      var content := contents[i];
      var name := if |content| <= NameLimit then content else content[..NameLimit];
      if |name| < |content| then name + Ellipsis else name
  }

  /** The name of a one-message chat: "New Chat" when the message is blank, otherwise a
      prefix of the message, followed by "..." exactly when something was cut off. */
  lemma SingleMessageName(content: string)
    ensures IsBlank(content) ==> GenerateChatName([content]) == NewChatName
    ensures !IsBlank(content) ==>
              exists k :: 0 < k <= |content| && k <= NameLimit
                          && GenerateChatName([content]) == content[..k] + (if k < |content| then Ellipsis else "")
  {
    if !IsBlank(content) {
      assert FirstNonBlank([content]) == Some(0);
      var k := if |content| <= NameLimit then |content| else NameLimit;
      assert content[..|content|] == content;
      assert 0 < k;
      assert GenerateChatName([content]) == content[..k] + (if k < |content| then Ellipsis else "");
    } else {
      assert FirstNonBlank([content][1..]) == None;
    }
  }

  /** Messages before the first visible one do not affect the name. */
  lemma {:induction false} LeadingBlanksIgnored(blank: string, contents: seq<string>)
    requires IsBlank(blank)
    ensures GenerateChatName([blank] + contents) == GenerateChatName(contents)
  {
    assert ([blank] + contents)[1..] == contents;
  }
}
