/** The `useChat` hook of src/hooks/useChat.ts, the chat flow the application uses: a
    list of chats with a current one, a canned assistant reply scheduled one second
    after every user message, and chat creation and deletion. React state becomes the
    fields of a class; the reply timers become a queue of pending replies, fired in
    the order they were scheduled (they all wait the same second). Chat ids, clock
    readings and creation times are parameters. */
module UseChat {
  import opened Wrappers
  import opened Strings
  import opened Json
  import opened ChatTypes
  import opened ChatName
  import opened ChatUpdates

  const GreetingText: string := "Hello! I'm your procurement assistant. How can I help you today?"

  /** `INITIAL_MESSAGE`: every chat's greeting carries the same id `'1'`. */
  function Greeting(loadedAt: int): (m: Message)
    ensures m.id == "1" && m.role == Assistant && m.content == GreetingText
  {
    Message("1", GreetingText, Assistant, loadedAt, None, None)
  }

  /** A new chat as `useChat` creates it: named "New Chat", holding only the greeting. */
  function FreshChat(id: string, greeting: Message, createdAt: int): (c: Chat)
    ensures c.id == id && c.name == NewChatName && c.messages == [greeting]
  {
    Chat(id, NewChatName, [greeting], createdAt)
  }

  const ReplyOpening: string := "I understand your procurement needs. "
  const UploadNotice: string := "I see you've uploaded: "
  const ReplyClosing: string := "Let me help you with that."

  /** The canned reply. The upload sentence appears whenever `files` is defined, even as
      an empty array. */
  function ReplyText(files: Option<seq<File>>): (text: string)
    ensures files.None? ==> text == ReplyOpening + ReplyClosing
    ensures files.Some? ==> text == ReplyOpening + UploadNotice + Join(FileNames(files.value), ", ") + ". " + ReplyClosing
    ensures files == Some([]) ==> text == ReplyOpening + UploadNotice + ". " + ReplyClosing
  {
    var notice := if files.Some? then UploadNotice + Join(FileNames(files.value), ", ") + ". " else "";
    ReplyOpening + notice + ReplyClosing
  }

  /** The user message of `handleSendMessage`: id `Date.now().toString()`, the file names. */
  function UserMessage(content: string, files: Option<seq<File>>, now: nat): (m: Message)
    ensures m.role == User && m.content == content && m.id == NatToString(now)
    ensures m.files == OptionalFileNames(files) && m.sourceDocuments.None?
  {
    Message(NatToString(now), content, User, now, OptionalFileNames(files), None)
  }

  /** The reply message, built when its timer fires: id `(Date.now() + 1).toString()`. */
  function ReplyMessage(files: Option<seq<File>>, now: nat): (m: Message)
    ensures m.role == Assistant && m.content == ReplyText(files) && m.id == NatToString(now + 1)
  {
    Message(NatToString(now + 1), ReplyText(files), Assistant, now, None, None)
  }

  /** A reply whose timer has been set: the chat current at send time and the files sent. */
  datatype PendingReply = PendingReply(chatId: string, files: Option<seq<File>>)

  /** The messages shown: `currentChat?.messages || []`. */
  function CurrentMessages(chats: seq<Chat>, currentChatId: string): (ms: seq<Message>)
    ensures currentChatId !in Ids(chats) ==> ms == []
    ensures currentChatId in Ids(chats) ==> ms == FindChat(chats, currentChatId).value.messages
  {
    match FindChat(chats, currentChatId)
    case None => []
    case Some(c) => c.messages
  }

  /** The current id after `handleDeleteChat(chatId)`. It compares against the list as it
      was before the deletion, so deleting the only chat keeps the deleted id current. */
  function CurrentAfterDelete(chats: seq<Chat>, currentChatId: string, chatId: string): (r: string)
    requires DistinctIds(chats)
    ensures r != currentChatId ==> r in Ids(RemoveChat(chats, chatId)) && r != chatId
  {
    if chatId == currentChatId && |chats| > 1 then
      RemovePresentNonEmpty(chats, chatId);
      var remaining := RemoveChat(chats, chatId);
      assert Ids(remaining)[|remaining| - 1] == remaining[|remaining| - 1].id;
      remaining[|remaining| - 1].id
    else currentChatId
  }

  lemma RemovePresentNonEmpty(chats: seq<Chat>, chatId: string)
    requires DistinctIds(chats) && |chats| > 1
    ensures |RemoveChat(chats, chatId)| >= 1
  {
    RemovePresent(chats, chatId);
  }

  /** Deleting the current chat from a longer list makes the last remaining chat current:
      the last chat, unless it is the deleted one, in which case the one before it.
      Deleting any other chat, or the only one, keeps the current id. */
  lemma DeleteMovesCurrent(chats: seq<Chat>, currentChatId: string, chatId: string)
    requires DistinctIds(chats)
    ensures chatId != currentChatId ==> CurrentAfterDelete(chats, currentChatId, chatId) == currentChatId
    ensures |chats| <= 1 ==> CurrentAfterDelete(chats, currentChatId, chatId) == currentChatId
    ensures chatId == currentChatId && |chats| > 1 ==>
              CurrentAfterDelete(chats, currentChatId, chatId)
              == (if chats[|chats| - 1].id != chatId then chats[|chats| - 1].id else chats[|chats| - 2].id)
  {
    if chatId == currentChatId && |chats| > 1 {
      LastAfterRemove(chats, chatId);
    }
  }

  class UseChatState {
    const greeting: Message
    var currentChatId: string
    var chats: seq<Chat>
    var isTyping: bool
    var showHistory: bool
    var pending: seq<PendingReply>

    /** Chat ids come from a generator of fresh ids, so no two chats share one. */
    ghost predicate Valid()
      reads this
    {
      DistinctIds(chats)
    }

    /** The initial state: one "New Chat" holding the greeting, and it is current. */
    constructor (initialId: string, loadedAt: int, createdAt: int)
      ensures greeting == Greeting(loadedAt)
      ensures chats == [FreshChat(initialId, greeting, createdAt)] && currentChatId == initialId
      ensures !isTyping && !showHistory && pending == []
      ensures Valid()
    {
      greeting := Greeting(loadedAt);
      chats := [FreshChat(initialId, Greeting(loadedAt), createdAt)];
      currentChatId := initialId;
      isTyping := false;
      showHistory := false;
      pending := [];
    }

    /** `messages`. */
    function Messages(): seq<Message>
      reads this
    {
      CurrentMessages(chats, currentChatId)
    }

    /** `handleNewChat`: one fresh chat at the end, made current; the others are kept. */
    method NewChat(newId: string, now: int)
      requires Valid() && newId !in Ids(chats)
      modifies this
      ensures chats == old(chats) + [FreshChat(newId, greeting, now)]
      ensures currentChatId == newId
      ensures isTyping == old(isTyping) && showHistory == old(showHistory) && pending == old(pending)
      ensures Valid()
      ensures Messages() == [greeting]
    {
      chats := chats + [FreshChat(newId, greeting, now)];
      currentChatId := newId;
      FindChatAt(chats, |chats| - 1);
    }

    /** `handleSendMessage(content, files)`: the user message goes to the current chat
        only, the typing flag is raised and a reply is scheduled for that chat. */
    method SendMessage(content: string, files: Option<seq<File>>, now: nat)
      requires Valid()
      modifies this
      ensures chats == AppendUserMessage(old(chats), currentChatId, UserMessage(content, files, now))
      ensures currentChatId == old(currentChatId) && showHistory == old(showHistory)
      ensures isTyping
      ensures pending == old(pending) + [PendingReply(currentChatId, files)]
      ensures Valid()
    {
      chats := AppendUserMessage(chats, currentChatId, UserMessage(content, files, now));
      isTyping := true;
      pending := pending + [PendingReply(currentChatId, files)];
    }

    /** The reply timer firing: the canned reply goes to the chat that was current when
        the message was sent, whichever chat is current now, and typing stops. */
    method FireReply(now: nat)
      requires Valid() && pending != []
      modifies this
      ensures chats == AppendMessage(old(chats), old(pending)[0].chatId, ReplyMessage(old(pending)[0].files, now))
      ensures pending == old(pending)[1..]
      ensures !isTyping
      ensures currentChatId == old(currentChatId) && showHistory == old(showHistory)
      ensures Valid()
    {
      var reply := pending[0];
      chats := AppendMessage(chats, reply.chatId, ReplyMessage(reply.files, now));
      pending := pending[1..];
      isTyping := false;
    }

    /** `handleDeleteChat(chatId)`. */
    method DeleteChat(chatId: string)
      requires Valid()
      modifies this
      ensures chats == RemoveChat(old(chats), chatId)
      ensures currentChatId == CurrentAfterDelete(old(chats), old(currentChatId), chatId)
      ensures isTyping == old(isTyping) && showHistory == old(showHistory) && pending == old(pending)
      ensures Valid()
    {
      var before := chats;
      RemoveKeepsDistinct(before, chatId);
      var remaining := RemoveChat(before, chatId);
      chats := remaining;
      if chatId == currentChatId && |before| > 1 {
        RemovePresentNonEmpty(before, chatId);
        currentChatId := remaining[|remaining| - 1].id;
      }
    }

    /** `setCurrentChatId`, exposed by the hook without any check. */
    method SelectChat(chatId: string)
      modifies this
      ensures currentChatId == chatId
      ensures chats == old(chats) && isTyping == old(isTyping) && showHistory == old(showHistory) && pending == old(pending)
    {
      currentChatId := chatId;
    }

    /** `setShowHistory`. */
    method SetShowHistory(show: bool)
      modifies this
      ensures showHistory == show
      ensures chats == old(chats) && currentChatId == old(currentChatId) && isTyping == old(isTyping) && pending == old(pending)
    {
      showHistory := show;
    }
  }

  /** Sending to the current chat adds exactly one message to it (none to the others),
      and the first message after the greeting names the chat. */
  lemma SendAddsOneMessage(chats: seq<Chat>, currentChatId: string, m: Message)
    requires DistinctIds(chats) && currentChatId in Ids(chats)
    ensures MessageCount(AppendUserMessage(chats, currentChatId, m)) == MessageCount(chats) + 1
    ensures CurrentMessages(AppendUserMessage(chats, currentChatId, m), currentChatId)
            == CurrentMessages(chats, currentChatId) + [m]
  {
    AppendCounts(chats, currentChatId, m);
    DistinctOccurrences(chats, currentChatId);
    var i :| 0 <= i < |chats| && chats[i].id == currentChatId;
    FindChatAt(chats, i);
    var r := AppendUserMessage(chats, currentChatId, m);
    SameIdsDistinct(chats, r);
    FindChatAt(r, i);
  }
}
