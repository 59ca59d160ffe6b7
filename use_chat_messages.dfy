/** The `useChatMessages` hook of src/hooks/useChatMessages.ts, the variant chat flow
    that answers from the language model when the API is online and with a fixed
    offline notice otherwise. `handleMessage` builds a new chat list and never changes
    the one it is given; its only state is the typing flag. The answer of `queryLLM`
    is a parameter, and so are the ids and the clock. */
module UseChatMessages {
  import opened Wrappers
  import opened ApiTypes
  import opened ChatTypes
  import opened ChatName
  import opened ChatUpdates

  const OfflineText: string := "I'm currently in offline mode. Please start the API server to interact with me."
  const FailureText: string := "Failed to get response. Please ensure the API server is running."

  /** `HandleMessageResult`. */
  datatype HandleMessageResult = HandleMessageResult(updatedChats: seq<Chat>, error: Option<string>)

  /** What `handleMessage` returns, given the answer `queryLLM(content)` would give.
      `userId` and `replyId` are the two ids `generateChatId` hands out. */
  function HandleMessageSpec(content: string, files: Option<seq<File>>, chats: seq<Chat>, currentChatId: string,
                             isOffline: bool, answer: Result<LLMResponse, Error>,
                             userId: string, replyId: string, now: int): HandleMessageResult
  {
    var userMessage := Message(userId, content, User, now, OptionalFileNames(files), None);
    var withUser := AppendUserMessage(chats, currentChatId, userMessage);
    if isOffline then
      HandleMessageResult(AppendMessage(withUser, currentChatId, Message(replyId, OfflineText, Assistant, now, None, None)), None)
    else
      match answer
      case Ok(response) =>
        HandleMessageResult(AppendMessage(withUser, currentChatId,
          Message(replyId, response.text, Assistant, now, None, response.sourceDocuments)), None)
      case Err(_) =>
        HandleMessageResult(withUser, Some(FailureText))
  }

  class UseChatMessagesState {
    var isTyping: bool

    constructor ()
      ensures !isTyping
    {
      isTyping := false;
    }

    /** `handleMessage(...)`. Returns the result and the arguments `queryLLM` was called
        with. Offline, the typing flag is not touched; online, it is raised for the query
        and lowered again in the `finally`, whatever the outcome. */
    method HandleMessage(content: string, files: Option<seq<File>>, chats: seq<Chat>, currentChatId: string,
                         isOffline: bool, answer: Result<LLMResponse, Error>,
                         userId: string, replyId: string, now: int)
      returns (result: HandleMessageResult, queried: seq<string>)
      modifies this
      ensures result == HandleMessageSpec(content, files, chats, currentChatId, isOffline, answer, userId, replyId, now)
      ensures queried == (if isOffline then [] else [content])
      ensures isTyping == (if isOffline then old(isTyping) else false)
    {
      var userMessage := Message(userId, content, User, now, OptionalFileNames(files), None);
      var updatedChats := AppendUserMessage(chats, currentChatId, userMessage);
      if isOffline {
        var offlineMessage := Message(replyId, OfflineText, Assistant, now, None, None);
        updatedChats := AppendMessage(updatedChats, currentChatId, offlineMessage);
        return HandleMessageResult(updatedChats, None), [];
      }
      isTyping := true;
      queried := [content];
      match answer {
        case Ok(response) =>
          var botMessage := Message(replyId, response.text, Assistant, now, None, response.sourceDocuments);
          updatedChats := AppendMessage(updatedChats, currentChatId, botMessage);
          result := HandleMessageResult(updatedChats, None);
        case Err(_) =>
          result := HandleMessageResult(updatedChats, Some(FailureText));
      }
      isTyping := false;
    }
  }

  /** Chats other than the current one come back unchanged, the list keeps its ids and
      order, and the current chat gains the user message first and then, except after a
      failed query, one assistant message: the offline notice or the answer with its
      sources. Only a failed query reports an error. */
  lemma HandleMessageOutcome(content: string, files: Option<seq<File>>, chats: seq<Chat>, currentChatId: string,
                             isOffline: bool, answer: Result<LLMResponse, Error>,
                             userId: string, replyId: string, now: int)
    ensures var r := HandleMessageSpec(content, files, chats, currentChatId, isOffline, answer, userId, replyId, now);
      && Ids(r.updatedChats) == Ids(chats)
      && (forall i :: 0 <= i < |chats| && chats[i].id != currentChatId ==> r.updatedChats[i] == chats[i])
      && (r.error.Some? <==> !isOffline && answer.Err?)
      && (r.error.Some? ==> r.error.value == FailureText)
      && (forall i :: 0 <= i < |chats| && chats[i].id == currentChatId ==>
            && r.updatedChats[i].name == WithUserMessage(chats[i], Message(userId, content, User, now, OptionalFileNames(files), None)).name
            && r.updatedChats[i].messages[..|chats[i].messages| + 1]
               == chats[i].messages + [Message(userId, content, User, now, OptionalFileNames(files), None)]
            && |r.updatedChats[i].messages| == |chats[i].messages| + (if !isOffline && answer.Err? then 1 else 2))
      && (forall i :: 0 <= i < |chats| && chats[i].id == currentChatId && isOffline ==>
            Last(r.updatedChats[i].messages).content == OfflineText)
      && (forall i :: 0 <= i < |chats| && chats[i].id == currentChatId && !isOffline && answer.Ok? ==>
            Last(r.updatedChats[i].messages).content == answer.value.text
            && Last(r.updatedChats[i].messages).sourceDocuments == answer.value.sourceDocuments)
  {
    var userMessage := Message(userId, content, User, now, OptionalFileNames(files), None);
    var withUser := AppendUserMessage(chats, currentChatId, userMessage);
    forall i | 0 <= i < |chats| && chats[i].id == currentChatId
      ensures withUser[i].messages == chats[i].messages + [userMessage]
    {
    }
  }

  function Last(ms: seq<Message>): Message
    requires ms != []
  {
    ms[|ms| - 1]
  }

  /** With no repeated chat ids and the current chat present, offline handling adds
      exactly two messages in total and a failed query exactly one. */
  lemma MessageTotals(content: string, files: Option<seq<File>>, chats: seq<Chat>, currentChatId: string,
                      isOffline: bool, answer: Result<LLMResponse, Error>,
                      userId: string, replyId: string, now: int)
    requires DistinctIds(chats) && currentChatId in Ids(chats)
    ensures MessageCount(HandleMessageSpec(content, files, chats, currentChatId, isOffline, answer, userId, replyId, now).updatedChats)
            == MessageCount(chats) + (if !isOffline && answer.Err? then 1 else 2)
  {
    var userMessage := Message(userId, content, User, now, OptionalFileNames(files), None);
    var withUser := AppendUserMessage(chats, currentChatId, userMessage);
    DistinctOccurrences(chats, currentChatId);
    AppendCounts(chats, currentChatId, userMessage);
    SameIdsDistinct(chats, withUser);
    DistinctOccurrences(withUser, currentChatId);
    var r := HandleMessageSpec(content, files, chats, currentChatId, isOffline, answer, userId, replyId, now);
    if isOffline {
      AppendCounts(withUser, currentChatId, Message(replyId, OfflineText, Assistant, now, None, None));
    } else if answer.Ok? {
      AppendCounts(withUser, currentChatId, Message(replyId, answer.value.text, Assistant, now, None, answer.value.sourceDocuments));
    }
  }
}
