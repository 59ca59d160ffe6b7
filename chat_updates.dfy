/** The chat-list updates both chat hooks perform with `chats.map(...)` and
    `chats.filter(...)`: append a message to the chat with a given id (renaming it
    when the appended message is its first after the greeting), and remove a chat. */
module ChatUpdates {
  import opened Wrappers
  import opened ChatTypes
  import opened ChatName

  /** One chat after the user's message is appended: renamed from that message only if
      it held exactly one message before. */
  function WithUserMessage(chat: Chat, m: Message): (r: Chat)
    ensures r.id == chat.id && r.createdAt == chat.createdAt
    ensures r.messages == chat.messages + [m]
    ensures |chat.messages| == 1 ==> r.name == GenerateChatName([m.content])
    ensures |chat.messages| != 1 ==> r.name == chat.name
  {
    chat.(messages := chat.messages + [m],
          name := if |chat.messages| == 1 then GenerateChatName([m.content]) else chat.name)
  }

  /** One chat after any other message is appended; the name is kept. */
  function WithMessage(chat: Chat, m: Message): (r: Chat)
    ensures r.id == chat.id && r.name == chat.name && r.createdAt == chat.createdAt
    ensures r.messages == chat.messages + [m]
  {
    chat.(messages := chat.messages + [m])
  }

  /** The user-message `map`: every chat with the given id gets `WithUserMessage`, every
      other chat is returned as it was. */
  function AppendUserMessage(chats: seq<Chat>, chatId: string, m: Message): (r: seq<Chat>)
    ensures |r| == |chats| && Ids(r) == Ids(chats)
    ensures forall i :: 0 <= i < |chats| && chats[i].id != chatId ==> r[i] == chats[i]
    ensures forall i :: 0 <= i < |chats| && chats[i].id == chatId ==> r[i] == WithUserMessage(chats[i], m)
  {
    if chats == [] then []
    else
      var head := if chats[0].id == chatId then WithUserMessage(chats[0], m) else chats[0];
      [head] + AppendUserMessage(chats[1..], chatId, m)
  }

  /** The reply `map`: every chat with the given id gets the message, the others are kept. */
  function AppendMessage(chats: seq<Chat>, chatId: string, m: Message): (r: seq<Chat>)
    ensures |r| == |chats| && Ids(r) == Ids(chats)
    ensures forall i :: 0 <= i < |chats| && chats[i].id != chatId ==> r[i] == chats[i]
    ensures forall i :: 0 <= i < |chats| && chats[i].id == chatId ==> r[i] == WithMessage(chats[i], m)
  {
    if chats == [] then []
    else
      var head := if chats[0].id == chatId then WithMessage(chats[0], m) else chats[0];
      [head] + AppendMessage(chats[1..], chatId, m)
  }

  /** `chats.filter(chat => chat.id !== chatId)`. */
  function RemoveChat(chats: seq<Chat>, chatId: string): (r: seq<Chat>)
    ensures |r| <= |chats|
    ensures chatId !in Ids(r)
    ensures forall c :: c in chats && c.id != chatId ==> c in r
    ensures forall c :: c in r ==> c in chats
  {
    if chats == [] then []
    else
      var rest := RemoveChat(chats[1..], chatId);
      assert Ids([chats[0]] + rest) == [chats[0].id] + Ids(rest);
      if chats[0].id == chatId then rest else [chats[0]] + rest
  }

  /** Total number of messages across a chat list. */
  function MessageCount(chats: seq<Chat>): nat {
    if chats == [] then 0 else |chats[0].messages| + MessageCount(chats[1..])
  }

  /** Number of chats with the given id. */
  function Occurrences(chats: seq<Chat>, chatId: string): nat {
    if chats == [] then 0 else (if chats[0].id == chatId then 1 else 0) + Occurrences(chats[1..], chatId)
  }

  lemma {:induction false} DistinctOccurrences(chats: seq<Chat>, chatId: string)
    requires DistinctIds(chats)
    ensures Occurrences(chats, chatId) == (if chatId in Ids(chats) then 1 else 0)
  {
    if chats != [] {
      assert Ids(chats) == [chats[0].id] + Ids(chats[1..]);
      DistinctOccurrences(chats[1..], chatId);
      if chats[0].id == chatId {
        assert chatId !in Ids(chats[1..]);
      }
    }
  }

  /** Appending to a chat adds one message per chat carrying that id and nothing else;
      in a list without repeated ids, exactly one message when the id is present and
      none when it is absent. */
  lemma {:induction false} AppendCounts(chats: seq<Chat>, chatId: string, m: Message)
    ensures MessageCount(AppendUserMessage(chats, chatId, m)) == MessageCount(chats) + Occurrences(chats, chatId)
    ensures MessageCount(AppendMessage(chats, chatId, m)) == MessageCount(chats) + Occurrences(chats, chatId)
  {
    if chats != [] {
      AppendCounts(chats[1..], chatId, m);
      assert AppendUserMessage(chats, chatId, m)[1..] == AppendUserMessage(chats[1..], chatId, m);
      assert AppendMessage(chats, chatId, m)[1..] == AppendMessage(chats[1..], chatId, m);
    }
  }

  /** Filtering a concatenation filters each part in place, so the filter keeps order. */
  lemma {:induction false} RemoveDistributes(a: seq<Chat>, b: seq<Chat>, chatId: string)
    ensures RemoveChat(a + b, chatId) == RemoveChat(a, chatId) + RemoveChat(b, chatId)
  {
    if a == [] {
      assert a + b == b;
    } else {
      assert (a + b)[0] == a[0];
      assert (a + b)[1..] == a[1..] + b;
      RemoveDistributes(a[1..], b, chatId);
    }
  }

  /** An id that no chat carries removes nothing. */
  lemma {:induction false} RemoveAbsent(chats: seq<Chat>, chatId: string)
    requires chatId !in Ids(chats)
    ensures RemoveChat(chats, chatId) == chats
  {
    if chats != [] {
      assert Ids(chats) == [chats[0].id] + Ids(chats[1..]);
      RemoveAbsent(chats[1..], chatId);
      assert [chats[0]] + chats[1..] == chats;
    }
  }

  /** In a list without repeated ids, removing the id of chat `k` yields the list with
      exactly that chat cut out, the others in their order. */
  lemma RemoveAt(chats: seq<Chat>, chatId: string, k: nat)
    requires DistinctIds(chats) && k < |chats| && chats[k].id == chatId
    ensures RemoveChat(chats, chatId) == chats[..k] + chats[k + 1..]
  {
    var before, after := chats[..k], chats[k + 1..];
    assert chats == before + ([chats[k]] + after);
    assert chatId !in Ids(before) by {
      forall i | 0 <= i < |before| ensures Ids(before)[i] != chatId {
        assert before[i] == chats[i];
      }
    }
    assert chatId !in Ids(after) by {
      forall i | 0 <= i < |after| ensures Ids(after)[i] != chatId {
        assert after[i] == chats[k + 1 + i];
      }
    }
    RemoveDistributes(before, [chats[k]] + after, chatId);
    RemoveDistributes([chats[k]], after, chatId);
    assert RemoveChat([chats[k]], chatId) == [] by {
      assert [chats[k]][1..] == [];
    }
    RemoveAbsent(before, chatId);
    RemoveAbsent(after, chatId);
  }

  /** A chat whose id the rest does not carry can head a list without repeated ids. */
  lemma ConsDistinct(c: Chat, rest: seq<Chat>)
    requires DistinctIds(rest) && c.id !in Ids(rest)
    ensures DistinctIds([c] + rest)
  {
    var r := [c] + rest;
    forall i, j | 0 <= i < j < |r| ensures r[i].id != r[j].id {
      assert r[j] == rest[j - 1];
      if i == 0 { assert Ids(rest)[j - 1] == r[j].id; } else { assert r[i] == rest[i - 1]; }
    }
  }

  /** Removing chats never introduces a repeated id. */
  lemma {:induction false} RemoveKeepsDistinct(chats: seq<Chat>, chatId: string)
    requires DistinctIds(chats)
    ensures DistinctIds(RemoveChat(chats, chatId))
  {
    if chats != [] {
      RemoveKeepsDistinct(chats[1..], chatId);
      var rest := RemoveChat(chats[1..], chatId);
      if chats[0].id != chatId {
        assert chats[0].id !in Ids(rest) by {
          forall i | 0 <= i < |rest| ensures Ids(rest)[i] != chats[0].id {
            assert rest[i] in chats[1..];
            var k :| 0 <= k < |chats[1..]| && chats[1..][k] == rest[i];
            assert chats[k + 1] == rest[i];
          }
        }
        ConsDistinct(chats[0], rest);
      }
    }
  }

  /** Removing a present id from a list without repeated ids drops exactly one chat,
      still without repeated ids; an absent id changes nothing. */
  lemma RemovePresent(chats: seq<Chat>, chatId: string)
    requires DistinctIds(chats)
    ensures DistinctIds(RemoveChat(chats, chatId))
    ensures chatId in Ids(chats) ==> |RemoveChat(chats, chatId)| == |chats| - 1
    ensures chatId !in Ids(chats) ==> RemoveChat(chats, chatId) == chats
  {
    RemoveKeepsDistinct(chats, chatId);
    if chatId in Ids(chats) {
      var k :| 0 <= k < |chats| && Ids(chats)[k] == chatId;
      RemoveAt(chats, chatId, k);
    } else {
      RemoveAbsent(chats, chatId);
    }
  }

  /** After a removal from a list of at least two chats without repeated ids, the last
      chat left is the old last one, or the one before it when the last was removed. */
  lemma LastAfterRemove(chats: seq<Chat>, chatId: string)
    requires DistinctIds(chats) && |chats| > 1
    ensures |RemoveChat(chats, chatId)| >= 1
    ensures RemoveChat(chats, chatId)[|RemoveChat(chats, chatId)| - 1]
            == (if chats[|chats| - 1].id != chatId then chats[|chats| - 1] else chats[|chats| - 2])
  {
    var n := |chats|;
    if chats[n - 1].id == chatId {
      RemoveAt(chats, chatId, n - 1);
    } else if chatId in Ids(chats) {
      var k :| 0 <= k < n && Ids(chats)[k] == chatId;
      RemoveAt(chats, chatId, k);
    } else {
      RemoveAbsent(chats, chatId);
    }
  }
}
