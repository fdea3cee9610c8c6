/** Getting or creating the one-to-one conversation between two users, over an in-memory copy of
    the `conversations` and `conversation_participants` tables. Whether each of the three backend
    requests fails is an input; the generated id and creation time of a new conversation are
    inputs too. */
module OneToOne {
  import opened Wrappers
  import opened Records

  /** A conversation as the existence query returns it: the row with the user ids of its embedded
      participant list. */
  datatype Candidate = Candidate(row: ConversationRow, participantIds: seq<string>)

  /** The user ids of the participant rows of `conversationId`, in row order. */
  function ParticipantIds(parts: seq<ParticipantRow>, conversationId: string): (ids: seq<string>)
    ensures |ids| <= |parts|
    ensures forall u :: u in ids <==> ParticipantRow(conversationId, u) in parts
    decreases |parts|
  {
    if parts == [] then []
    else
      var rest := ParticipantIds(parts[1..], conversationId);
      assert forall p :: p in parts <==> p == parts[0] || p in parts[1..];
      if parts[0].conversationId == conversationId then [parts[0].userId] + rest else rest
  }

  /** The existence test applied to each fetched conversation: both users are among its
      participant ids and there are exactly two of them. */
  predicate Qualifies(ids: seq<string>, a: string, b: string) {
    a in ids && b in ids && |ids| == 2
  }

  /** For two different users the test accepts exactly the lists made of the two of them; for
      one user passed twice it accepts any two-element list that names that user. */
  lemma QualifiesShape(ids: seq<string>, a: string, b: string)
    ensures a != b ==> (Qualifies(ids, a, b) <==> ids == [a, b] || ids == [b, a])
    ensures a == b ==> (Qualifies(ids, a, b) <==> |ids| == 2 && (ids[0] == a || ids[1] == a))
  {
    if Qualifies(ids, a, b) {
      assert ids == [ids[0], ids[1]];
    }
  }

  /** The first candidate, in result order, that qualifies: `Array.prototype.find`. */
  function FirstQualifying(cands: seq<Candidate>, a: string, b: string): (r: Option<nat>)
    ensures r.Some? ==> r.value < |cands| && Qualifies(cands[r.value].participantIds, a, b)
    ensures r.Some? ==> forall j :: 0 <= j < r.value ==> !Qualifies(cands[j].participantIds, a, b)
    ensures r.None? <==> forall j :: 0 <= j < |cands| ==> !Qualifies(cands[j].participantIds, a, b)
    decreases |cands|
  {
    if cands == [] then None
    else if Qualifies(cands[0].participantIds, a, b) then Some(0)
    else
      match FirstQualifying(cands[1..], a, b)
      case None => None
      case Some(i) => Some(i + 1)
  }

  /** The rows of users `a` and `b` only, which is what an `in` filter on the embedded
      participant resource leaves of the embedded list. */
  function EmbeddedIds(parts: seq<ParticipantRow>, conversationId: string, a: string, b: string): seq<string>
    decreases |parts|
  {
    if parts == [] then []
    else
      var rest := EmbeddedIds(parts[1..], conversationId, a, b);
      var p := parts[0];
      if p.conversationId == conversationId && (p.userId == a || p.userId == b) then [p.userId] + rest
      else rest
  }

  /** The existence query as written: non-group conversations that have a participant row for
      `a` or `b` (the inner join), each carrying only its `a`/`b` participant ids. */
  function FetchAsWritten(convs: seq<ConversationRow>, parts: seq<ParticipantRow>, a: string, b: string): (r: seq<Candidate>)
    ensures forall i :: 0 <= i < |r| ==> !r[i].row.isGroup && r[i].row in convs
    ensures forall i :: 0 <= i < |r| ==> r[i].participantIds == EmbeddedIds(parts, r[i].row.id, a, b)
    decreases |convs|
  {
    if convs == [] then []
    else
      var c := convs[0];
      var ids := EmbeddedIds(parts, c.id, a, b);
      (if !c.isGroup && ids != [] then [Candidate(c, ids)] else []) + FetchAsWritten(convs[1..], parts, a, b)
  }

  /** The existence query as intended: every non-group conversation, in store order, carrying
      its complete participant list, so that the length test can tell a two-party conversation
      from a larger one. */
  function FetchIntended(convs: seq<ConversationRow>, parts: seq<ParticipantRow>): (r: seq<Candidate>)
    ensures forall i :: 0 <= i < |r| ==> !r[i].row.isGroup && r[i].row in convs
    ensures forall i :: 0 <= i < |r| ==> r[i].participantIds == ParticipantIds(parts, r[i].row.id)
    decreases |convs|
  {
    if convs == [] then []
    else
      var c := convs[0];
      (if !c.isGroup then [Candidate(c, ParticipantIds(parts, c.id))] else []) + FetchIntended(convs[1..], parts)
  }

  /** With the intended query, a conversation found for `a` and `b` is a non-group conversation
      of the store whose participants are exactly `a` and `b`. */
  lemma IntendedFindsTwoParty(convs: seq<ConversationRow>, parts: seq<ParticipantRow>, a: string, b: string)
    requires FirstQualifying(FetchIntended(convs, parts), a, b).Some?
    ensures var c := FetchIntended(convs, parts)[FirstQualifying(FetchIntended(convs, parts), a, b).value];
            && c.row in convs && !c.row.isGroup
            && |ParticipantIds(parts, c.row.id)| == 2
            && ParticipantRow(c.row.id, a) in parts && ParticipantRow(c.row.id, b) in parts
  {
  }

  /** The as-written query lets a three-party non-group conversation pass for the one-to-one
      conversation of two of its members: the embedded list holds only their two rows. */
  lemma AsWrittenAcceptsThirdParty()
    ensures var convs := [ConversationRow("c1", "t0", false, "")];
            var parts := [ParticipantRow("c1", "A"), ParticipantRow("c1", "B"), ParticipantRow("c1", "C")];
            && FirstQualifying(FetchAsWritten(convs, parts, "A", "B"), "A", "B") == Some(0)
            && |ParticipantIds(parts, "c1")| == 3
            && FirstQualifying(FetchIntended(convs, parts), "A", "B") == None
  {
    var convs := [ConversationRow("c1", "t0", false, "")];
    var parts := [ParticipantRow("c1", "A"), ParticipantRow("c1", "B"), ParticipantRow("c1", "C")];
    assert EmbeddedIds(parts, "c1", "A", "B") == ["A", "B"] by {
      assert parts[1..][1..][1..] == [];
    }
    assert ParticipantIds(parts, "c1") == ["A", "B", "C"] by {
      assert parts[1..][1..][1..] == [];
    }
    assert convs[1..] == [];
    assert FetchAsWritten(convs, parts, "A", "B") == [Candidate(convs[0], ["A", "B"])];
    assert FetchIntended(convs, parts) == [Candidate(convs[0], ["A", "B", "C"])];
  }

  /** Adding a conversation at the end of the store adds at most one candidate at the end. */
  lemma {:induction false} FetchIntendedAppend(convs: seq<ConversationRow>, row: ConversationRow, parts: seq<ParticipantRow>)
    ensures FetchIntended(convs + [row], parts) ==
            FetchIntended(convs, parts) + (if row.isGroup then [] else [Candidate(row, ParticipantIds(parts, row.id))])
    decreases |convs|
  {
    if convs == [] {
      assert convs + [row] == [row];
      assert [row][1..] == [];
    } else {
      var c := convs[0];
      var head := if !c.isGroup then [Candidate(c, ParticipantIds(parts, c.id))] else [];
      var tail := if row.isGroup then [] else [Candidate(row, ParticipantIds(parts, row.id))];
      assert (convs + [row])[0] == c && (convs + [row])[1..] == convs[1..] + [row];
      FetchIntendedAppend(convs[1..], row, parts);
      assert FetchIntended(convs + [row], parts) == head + (FetchIntended(convs[1..], parts) + tail);
      assert FetchIntended(convs, parts) == head + FetchIntended(convs[1..], parts);
      assert head + (FetchIntended(convs[1..], parts) + tail) == (head + FetchIntended(convs[1..], parts)) + tail;
    }
  }

  /** Participant rows of a conversation id no existing conversation carries change no
      candidate. */
  lemma {:induction false} FetchIntendedIgnoresOtherRows(convs: seq<ConversationRow>, parts: seq<ParticipantRow>, extra: seq<ParticipantRow>, id: string)
    requires forall c :: c in convs ==> c.id != id
    requires forall p :: p in extra ==> p.conversationId == id
    ensures FetchIntended(convs, parts + extra) == FetchIntended(convs, parts)
    decreases |convs|
  {
    if convs != [] {
      ParticipantIdsIgnoresOtherRows(parts, extra, convs[0].id, id);
      FetchIntendedIgnoresOtherRows(convs[1..], parts, extra, id);
    }
  }

  lemma {:induction false} ParticipantIdsIgnoresOtherRows(parts: seq<ParticipantRow>, extra: seq<ParticipantRow>, conversationId: string, id: string)
    requires conversationId != id
    requires forall p :: p in extra ==> p.conversationId == id
    ensures ParticipantIds(parts + extra, conversationId) == ParticipantIds(parts, conversationId)
    decreases |parts| + |extra|
  {
    if parts == [] {
      assert parts + extra == extra;
      if extra != [] {
        assert forall p :: p in extra[1..] ==> p in extra;
        ParticipantIdsIgnoresOtherRows([], extra[1..], conversationId, id);
        assert [] + extra[1..] == extra[1..];
      }
    } else {
      assert (parts + extra)[1..] == parts[1..] + extra;
      ParticipantIdsIgnoresOtherRows(parts[1..], extra, conversationId, id);
    }
  }

  /** The participant list of a conversation grows by the rows appended for it. */
  lemma {:induction false} ParticipantIdsAppend(parts: seq<ParticipantRow>, extra: seq<ParticipantRow>, conversationId: string)
    ensures ParticipantIds(parts + extra, conversationId) ==
            ParticipantIds(parts, conversationId) + ParticipantIds(extra, conversationId)
    decreases |parts|
  {
    if parts == [] {
      assert parts + extra == extra;
    } else {
      assert (parts + extra)[1..] == parts[1..] + extra;
      ParticipantIdsAppend(parts[1..], extra, conversationId);
    }
  }

  /** A qualifying candidate appended after candidates none of which qualifies is the one
      found. */
  lemma {:induction false} FirstQualifyingAppend(cands: seq<Candidate>, c: Candidate, a: string, b: string)
    requires FirstQualifying(cands, a, b).None?
    requires Qualifies(c.participantIds, a, b)
    ensures FirstQualifying(cands + [c], a, b) == Some(|cands|)
  {
    var all := cands + [c];
    forall j | 0 <= j < |cands| ensures !Qualifies(all[j].participantIds, a, b) {
      assert all[j] == cands[j];
    }
    assert all[|cands|] == c;
  }

  /** No participant row is filed under a conversation id of which there are none. */
  lemma NoRowsNoIds(parts: seq<ParticipantRow>, id: string)
    requires forall p :: p in parts ==> p.conversationId != id
    ensures ParticipantIds(parts, id) == []
  {
    if ParticipantIds(parts, id) != [] {
      assert ParticipantIds(parts, id)[0] in ParticipantIds(parts, id);
      assert false;
    }
  }

  /** Get-or-create is stable: once a call has created the conversation of `a` and `b` under a
      fresh id, the next call finds exactly that conversation and creates nothing. */
  lemma {:induction false} CreatedConversationIsFoundNext(convs: seq<ConversationRow>, parts: seq<ParticipantRow>,
                                                           a: string, b: string, newId: string, now: string)
    requires FirstQualifying(FetchIntended(convs, parts), a, b).None?
    requires forall c :: c in convs ==> c.id != newId
    requires forall p :: p in parts ==> p.conversationId != newId
    ensures var row := ConversationRow(newId, now, false, "");
            var cands := FetchIntended(convs + [row], parts + [ParticipantRow(newId, a), ParticipantRow(newId, b)]);
            && FirstQualifying(cands, a, b) == Some(|FetchIntended(convs, parts)|)
            && cands[|FetchIntended(convs, parts)|].row == row
  {
    var row := ConversationRow(newId, now, false, "");
    var extra := [ParticipantRow(newId, a), ParticipantRow(newId, b)];
    var parts' := parts + extra;
    FetchIntendedAppend(convs, row, parts');
    FetchIntendedIgnoresOtherRows(convs, parts, extra, newId);
    ParticipantIdsAppend(parts, extra, newId);
    NoRowsNoIds(parts, newId);
    assert ParticipantIds(extra, newId) == [a, b] by {
      assert extra[1..][1..] == [];
    }
    assert ParticipantIds(parts', newId) == [a, b] by {
      assert [] + [a, b] == [a, b];
    }
    var before := FetchIntended(convs, parts);
    assert FetchIntended(convs + [row], parts') == before + [Candidate(row, [a, b])];
    FirstQualifyingAppend(before, Candidate(row, [a, b]), a, b);
  }

  /** The two backing tables. */
  class Store {
    var conversations: seq<ConversationRow>
    var participants: seq<ParticipantRow>

    constructor (conversations0: seq<ConversationRow>, participants0: seq<ParticipantRow>)
      ensures conversations == conversations0 && participants == participants0
    {
      conversations := conversations0;
      participants := participants0;
    }
  }

  /** Whether each backend request fails, and what the store generates for a new row. */
  datatype Backend = Backend(fetchFails: bool, createFails: bool, participantsFail: bool,
                             newId: string, now: string)

  /** The two tables after a call, and what the call returned. */
  datatype Outcome = Outcome(conversations: seq<ConversationRow>, participants: seq<ParticipantRow>,
                             result: Option<ConversationRow>)

  /** `getOrCreateOneToOneConversation(a, b)` on the tables. A failed lookup returns nothing and
      writes nothing. A qualifying conversation is returned without any write. Otherwise a
      non-group conversation is inserted; when that fails nothing is returned, and when the
      participant insert fails nothing is returned although the conversation row stays. On
      success the new conversation gets the two participant rows of `a` and `b` and is returned. */
  function GetOrCreate(convs: seq<ConversationRow>, parts: seq<ParticipantRow>, a: string, b: string,
                       backend: Backend): (r: Outcome)
    ensures backend.fetchFails ==> r == Outcome(convs, parts, None)
    ensures !backend.fetchFails ==>
              var cands := FetchIntended(convs, parts);
              var found := FirstQualifying(cands, a, b);
              var created := ConversationRow(backend.newId, backend.now, false, "");
              && (found.Some? ==> r == Outcome(convs, parts, Some(cands[found.value].row)))
              && (found.None? && backend.createFails ==> r == Outcome(convs, parts, None))
              && (found.None? && !backend.createFails && backend.participantsFail ==>
                    r == Outcome(convs + [created], parts, None))
              && (found.None? && !backend.createFails && !backend.participantsFail ==>
                    r == Outcome(convs + [created],
                                 parts + [ParticipantRow(backend.newId, a), ParticipantRow(backend.newId, b)],
                                 Some(created)))
  {
    if backend.fetchFails then Outcome(convs, parts, None)
    else
      var cands := FetchIntended(convs, parts);
      var found := FirstQualifying(cands, a, b);
      if found.Some? then Outcome(convs, parts, Some(cands[found.value].row))
      else if backend.createFails then Outcome(convs, parts, None)
      else
        var created := ConversationRow(backend.newId, backend.now, false, "");
        if backend.participantsFail then Outcome(convs + [created], parts, None)
        else Outcome(convs + [created], parts + [ParticipantRow(created.id, a), ParticipantRow(created.id, b)],
                     Some(created))
  }

  /** A returned conversation is a non-group row of the resulting table. */
  lemma GetOrCreateReturnsStoredRow(convs: seq<ConversationRow>, parts: seq<ParticipantRow>, a: string, b: string,
                                    backend: Backend)
    ensures var r := GetOrCreate(convs, parts, a, b, backend);
            r.result.Some? ==> r.result.value in r.conversations && !r.result.value.isGroup
  {
    var r := GetOrCreate(convs, parts, a, b, backend);
    if r.result.Some? && !backend.fetchFails {
      var cands := FetchIntended(convs, parts);
      var found := FirstQualifying(cands, a, b);
      if found.Some? {
        assert cands[found.value].row in convs;
      } else {
        assert r.conversations[|convs|] == r.result.value;
      }
    }
  }

  /** Calling get-or-create again after it created the conversation returns that conversation
      and writes nothing, whatever the second call's create and insert would have done. */
  lemma GetOrCreateTwice(convs: seq<ConversationRow>, parts: seq<ParticipantRow>, a: string, b: string,
                         first: Backend, second: Backend)
    requires !first.fetchFails && !first.createFails && !first.participantsFail
    requires FirstQualifying(FetchIntended(convs, parts), a, b).None?
    requires forall c :: c in convs ==> c.id != first.newId
    requires forall p :: p in parts ==> p.conversationId != first.newId
    requires !second.fetchFails
    ensures var r1 := GetOrCreate(convs, parts, a, b, first);
            GetOrCreate(r1.conversations, r1.participants, a, b, second) == r1
  {
    CreatedConversationIsFoundNext(convs, parts, a, b, first.newId, first.now);
  }

  /** The store's tables follow `GetOrCreate`. */
  method GetOrCreateOneToOneConversation(store: Store, a: string, b: string, backend: Backend)
    returns (r: Option<ConversationRow>)
    modifies store
    ensures Outcome(store.conversations, store.participants, r) ==
            GetOrCreate(old(store.conversations), old(store.participants), a, b, backend)
  {
    if backend.fetchFails {
      return None;
    }
    var existing := FetchIntended(store.conversations, store.participants);
    var found := FirstQualifying(existing, a, b);
    if found.Some? {
      return Some(existing[found.value].row);
    }
    if backend.createFails {
      return None;
    }
    var created := ConversationRow(backend.newId, backend.now, false, "");
    store.conversations := store.conversations + [created];
    if backend.participantsFail {
      return None;
    }
    store.participants := store.participants +
      [ParticipantRow(created.id, a), ParticipantRow(created.id, b)];
    r := Some(created);
  }
}
