/** The single-room chat component: one message list fed by a realtime listener, and a sender
    that shows an optimistic copy of each message until the insert settles. A send is split into
    the part before the insert request and the part after it, so realtime events can arrive in
    between. The clock is an input (milliseconds and an ISO timestamp). */
module LegacyChat {
  import opened Wrappers
  import opened Strings
  import opened Seqs

  /** A room message. Stored rows and realtime rows are neither optimistic nor failed. */
  datatype ChatMessage = ChatMessage(id: string, content: string, username: string, createdAt: string,
                                     isOptimistic: bool, sendFailed: bool)

  /** The temporary id of an optimistic message: `temp-${Date.now()}`. */
  function TempId(nowMs: nat): (r: string)
    ensures |r| > 5 && r[..5] == "temp-"
  {
    "temp-" + NatToString(nowMs)
  }

  /** Sends at different milliseconds get different temporary ids. */
  lemma TempIdInjective(a: nat, b: nat)
    ensures TempId(a) == TempId(b) ==> a == b
  {
    if TempId(a) == TempId(b) {
      assert NatToString(a) == TempId(a)[5..];
      assert NatToString(b) == TempId(b)[5..];
      ParseNatToString(a);
      ParseNatToString(b);
    }
  }

  /** `prev.map(msg => msg.id === tempId ? { ...msg, sendFailed: true } : msg)`. */
  function MarkFailed(msgs: seq<ChatMessage>, tempId: string): (r: seq<ChatMessage>)
    ensures |r| == |msgs|
    ensures forall i :: 0 <= i < |msgs| && msgs[i].id == tempId ==> r[i] == msgs[i].(sendFailed := true)
    ensures forall i :: 0 <= i < |msgs| && msgs[i].id != tempId ==> r[i] == msgs[i]
    decreases |msgs|
  {
    if msgs == [] then []
    else [if msgs[0].id == tempId then msgs[0].(sendFailed := true) else msgs[0]] + MarkFailed(msgs[1..], tempId)
  }

  /** `prev.filter(msg => msg.id !== tempId)`. */
  function RemoveTemp(msgs: seq<ChatMessage>, tempId: string): (r: seq<ChatMessage>)
    ensures forall i :: 0 <= i < |r| ==> r[i].id != tempId && r[i] in msgs
    ensures forall i :: 0 <= i < |msgs| && msgs[i].id != tempId ==> msgs[i] in r
    ensures IsSubsequence(r, msgs)
    ensures |r| == Count(msgs, (m: ChatMessage) => m.id != tempId)
  {
    Filter(msgs, (m: ChatMessage) => m.id != tempId)
  }

  /** A successful send leaves the list as if the optimistic message had never been added:
      whatever arrived before or after it stays, in order. */
  lemma {:induction false} RemoveAfterOptimistic(before: seq<ChatMessage>, opt: ChatMessage, after: seq<ChatMessage>)
    requires forall i :: 0 <= i < |before| ==> before[i].id != opt.id
    requires forall i :: 0 <= i < |after| ==> after[i].id != opt.id
    ensures RemoveTemp(before + [opt] + after, opt.id) == before + after
  {
    var p := (m: ChatMessage) => m.id != opt.id;
    var front := Filter(before + [opt], p);
    var fo := Filter([opt], p);
    var fa := Filter(after, p);
    FilterAppend(before + [opt], after, p);
    FilterAppend(before, [opt], p);
    FilterAll(before, p);
    FilterAll(after, p);
    assert fo == [] by {
      assert [opt][1..] == [];
    }
    assert front == before;
    assert Filter(before + [opt] + after, p) == front + fa;
  }

  /** A failed send marks its own optimistic message and no other. */
  lemma {:induction false} MarkAfterOptimistic(before: seq<ChatMessage>, opt: ChatMessage, after: seq<ChatMessage>)
    requires forall i :: 0 <= i < |before| ==> before[i].id != opt.id
    requires forall i :: 0 <= i < |after| ==> after[i].id != opt.id
    ensures MarkFailed(before + [opt] + after, opt.id) == before + [opt.(sendFailed := true)] + after
  {
    var all := before + [opt] + after;
    var r := MarkFailed(all, opt.id);
    var expected := before + [opt.(sendFailed := true)] + after;
    assert |r| == |expected|;
    forall i | 0 <= i < |r| ensures r[i] == expected[i] {
      if i < |before| {
        assert all[i] == before[i];
      } else if i == |before| {
        assert all[i] == opt;
      } else {
        assert all[i] == after[i - |before| - 1];
      }
    }
  }

  /** The text after the username: " (sending...)" while an optimistic message has not failed,
      " (failed to send)" once it has. */
  function LabelSuffix(m: ChatMessage): (r: string)
    ensures r == " (sending...)" <==> m.isOptimistic && !m.sendFailed
    ensures r == " (failed to send)" <==> m.sendFailed
    ensures r == "" <==> !m.isOptimistic && !m.sendFailed
  {
    (if m.isOptimistic && !m.sendFailed then " (sending...)" else "") +
    (if m.sendFailed then " (failed to send)" else "")
  }

  /** A message is laid out as the viewer's own iff its username is the viewer's. */
  predicate IsOwnLayout(m: ChatMessage, viewer: string) {
    m.username == viewer
  }

  /** Marking a send failed never moves a message to the other side of the layout. */
  lemma MarkFailedKeepsLayout(msgs: seq<ChatMessage>, tempId: string, viewer: string)
    ensures forall i :: 0 <= i < |msgs| ==>
              (IsOwnLayout(MarkFailed(msgs, tempId)[i], viewer) <==> IsOwnLayout(msgs[i], viewer))
  {
  }

  /** A send that has left the input box: its temporary id and its trimmed content. */
  datatype PendingSend = PendingSend(tempId: string, content: string)

  /** How the insert request ended. */
  datatype InsertOutcome = InsertSucceeded | InsertErrored | InsertThrew

  class Chat {
    const username: string
    var messages: seq<ChatMessage>
    var newMessage: string

    constructor (viewer: string, stored: seq<ChatMessage>)
      ensures username == viewer && messages == stored && newMessage == ""
    {
      username := viewer;
      messages := stored;
      newMessage := "";
    }

    method OnInput(text: string)
      modifies this
      ensures newMessage == text && messages == old(messages)
    {
      newMessage := text;
    }

    /** The first half of `handleSendMessage`: a blank input does nothing; otherwise an
        optimistic message with the trimmed text is appended, the input is cleared, and the
        insert of the trimmed text is pending. */
    method BeginSend(nowMs: nat, nowIso: string) returns (pending: Option<PendingSend>)
      modifies this
      ensures Trim(old(newMessage)) == [] <==> pending.None?
      ensures pending.None? ==> messages == old(messages) && newMessage == old(newMessage)
      ensures pending.Some? ==>
                && pending.value == PendingSend(TempId(nowMs), Trim(old(newMessage)))
                && messages == old(messages) + [ChatMessage(TempId(nowMs), Trim(old(newMessage)), username, nowIso, true, false)]
                && newMessage == ""
    {
      if Trim(newMessage) == [] {
        return None;
      }
      var content := Trim(newMessage);
      var tempId := TempId(nowMs);
      messages := messages + [ChatMessage(tempId, content, username, nowIso, true, false)];
      newMessage := "";
      pending := Some(PendingSend(tempId, content));
    }

    /** The second half: a successful insert removes the optimistic message; an error or an
        exception marks it failed. */
    method FinishSend(pending: PendingSend, outcome: InsertOutcome)
      modifies this
      ensures newMessage == old(newMessage)
      ensures outcome.InsertSucceeded? ==> messages == RemoveTemp(old(messages), pending.tempId)
      ensures !outcome.InsertSucceeded? ==> messages == MarkFailed(old(messages), pending.tempId)
    {
      if outcome.InsertSucceeded? {
        messages := RemoveTemp(messages, pending.tempId);
      } else {
        messages := MarkFailed(messages, pending.tempId);
      }
    }

    /** The realtime listener: an INSERT appends the new row; every other event type leaves the
        list as it is. */
    method OnRealtimeEvent(eventType: string, row: ChatMessage)
      modifies this
      ensures newMessage == old(newMessage)
      ensures eventType == "INSERT" ==> messages == old(messages) + [row]
      ensures eventType != "INSERT" ==> messages == old(messages)
    {
      if eventType == "INSERT" {
        messages := messages + [row];
      }
    }
  }
}
