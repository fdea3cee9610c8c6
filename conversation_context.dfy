/** The conversation provider: the signed-in user's conversation list, the selected
    conversation, and the loading and error flags, updated by fetching, updating, deleting and
    selecting. Backend answers are inputs: the outcome of the list queries, whether an update or
    delete request fails. The clock is an input that maps a timestamp to the whole minutes
    elapsed since it. */
module ConversationContext {
  import opened Wrappers
  import opened Strings
  import opened Records
  import opened Seqs
  import RealtimeUtils

  /** A conversation as the client shows it. `avatarUrl` and `unreadCount` are optional: the fetched
      entries carry an unread count and no avatar URL, the entries other screens select carry an
      avatar URL. */
  datatype Conversation = Conversation(
    id: string,
    createdAt: string,
    isGroup: bool,
    name: string,
    avatar: string,
    avatarUrl: Option<string>,
    lastMessage: string,
    timestamp: string,
    isOnline: bool,
    unreadCount: Option<int>)

  /** A `Partial<Conversation>`: the fields present in the update object. */
  datatype ConversationUpdate = ConversationUpdate(
    id: Option<string>,
    createdAt: Option<string>,
    isGroup: Option<bool>,
    name: Option<string>,
    avatar: Option<string>,
    lastMessage: Option<string>,
    timestamp: Option<string>,
    isOnline: Option<bool>)

  /** `{ ...conv, ...updates }`: each present field of the update wins. */
  function Merge(c: Conversation, u: ConversationUpdate): (r: Conversation)
    ensures r.id == u.id.GetOr(c.id) && r.isGroup == u.isGroup.GetOr(c.isGroup)
    ensures r.name == u.name.GetOr(c.name) && r.avatar == u.avatar.GetOr(c.avatar)
    ensures r.lastMessage == u.lastMessage.GetOr(c.lastMessage)
    ensures r.timestamp == u.timestamp.GetOr(c.timestamp) && r.isOnline == u.isOnline.GetOr(c.isOnline)
    ensures r.createdAt == u.createdAt.GetOr(c.createdAt)
    ensures r.avatarUrl == c.avatarUrl && r.unreadCount == c.unreadCount
  {
    c.(id := u.id.GetOr(c.id), createdAt := u.createdAt.GetOr(c.createdAt), isGroup := u.isGroup.GetOr(c.isGroup), name := u.name.GetOr(c.name),
       avatar := u.avatar.GetOr(c.avatar), lastMessage := u.lastMessage.GetOr(c.lastMessage),
       timestamp := u.timestamp.GetOr(c.timestamp), isOnline := u.isOnline.GetOr(c.isOnline))
  }

  /** Applying the same update twice is applying it once. */
  lemma MergeIdempotent(c: Conversation, u: ConversationUpdate)
    ensures Merge(Merge(c, u), u) == Merge(c, u)
  {
  }

  /** `prev.map(conv => conv.id === id ? { ...conv, ...updates } : conv)`. */
  function UpdateById(cs: seq<Conversation>, id: string, u: ConversationUpdate): (r: seq<Conversation>)
    ensures |r| == |cs|
    ensures forall i :: 0 <= i < |cs| && cs[i].id == id ==> r[i] == Merge(cs[i], u)
    ensures forall i :: 0 <= i < |cs| && cs[i].id != id ==> r[i] == cs[i]
    decreases |cs|
  {
    if cs == [] then []
    else [if cs[0].id == id then Merge(cs[0], u) else cs[0]] + UpdateById(cs[1..], id, u)
  }

  /** `prev.filter(conv => conv.id !== id)`. */
  function RemoveById(cs: seq<Conversation>, id: string): (r: seq<Conversation>)
    ensures forall i :: 0 <= i < |r| ==> r[i].id != id && r[i] in cs
    ensures forall i :: 0 <= i < |cs| && cs[i].id != id ==> cs[i] in r
    ensures IsSubsequence(r, cs)
    ensures |r| == Count(cs, (c: Conversation) => c.id != id)
  {
    Filter(cs, (c: Conversation) => c.id != id)
  }

  /** Removing an id that is not in the list keeps the list as it is. */
  lemma RemoveAbsentId(cs: seq<Conversation>, id: string)
    requires forall i :: 0 <= i < |cs| ==> cs[i].id != id
    ensures RemoveById(cs, id) == cs
  {
    FilterAll(cs, (c: Conversation) => c.id != id);
  }

  /** An update that keeps ids is forgotten by a later delete of the updated id: deleting after
      updating leaves the same list as deleting alone. */
  lemma {:induction false} RemoveAfterUpdate(cs: seq<Conversation>, id: string, u: ConversationUpdate)
    requires u.id.None?
    ensures RemoveById(UpdateById(cs, id, u), id) == RemoveById(cs, id)
    decreases |cs|
  {
    if cs != [] {
      RemoveAfterUpdate(cs[1..], id, u);
      assert UpdateById(cs, id, u)[1..] == UpdateById(cs[1..], id, u);
    }
  }

  /** The selection after an update: merged only when it is the updated conversation. */
  function MergeSelected(selected: Option<Conversation>, id: string, u: ConversationUpdate): (r: Option<Conversation>)
    ensures selected.None? ==> r.None?
    ensures selected.Some? && selected.value.id == id ==> r == Some(Merge(selected.value, u))
    ensures selected.Some? && selected.value.id != id ==> r == selected
  {
    if selected.Some? && selected.value.id == id then Some(Merge(selected.value, u)) else selected
  }

  /** `formatTimestamp` over the whole minutes elapsed since the timestamp. */
  function FormatTimestamp(minutes: int): (r: string)
    ensures r != []
    ensures 1 <= minutes < 60 ==> r[|r| - 1] == 'm'
    ensures 60 <= minutes < 1440 ==> r[|r| - 1] == 'h'
    ensures minutes >= 1440 ==> r[|r| - 1] == 'd'
    ensures minutes < 1 <==> r == "Just now"
    ensures 1 <= minutes < 60 ==> r == NatToString(minutes) + "m"
    ensures 60 <= minutes < 1440 ==> r == NatToString(minutes / 60) + "h"
    ensures minutes >= 1440 ==> r == NatToString(minutes / 1440) + "d"
  {
    if minutes < 1 then "Just now"
    else if minutes < 60 then NatToString(minutes) + "m"
    else if minutes < 1440 then NatToString(minutes / 60) + "h"
    else NatToString(minutes / 1440) + "d"
  }

  /** Below one day the conversation list and the message list show the same bucket: the message
      list's text is the conversation list's with " ago" after it. */
  lemma TimestampAgreesWithMessageTimestamp(minutes: int)
    requires 1 <= minutes < 1440
    ensures RealtimeUtils.FormatMessageTimestamp(minutes) == Some(FormatTimestamp(minutes) + " ago")
  {
    if minutes < 60 {
      assert NatToString(minutes) + "m" + " ago" == NatToString(minutes) + "m ago";
    } else {
      assert NatToString(minutes / 60) + "h" + " ago" == NatToString(minutes / 60) + "h ago";
    }
  }

  /** The text shown tells the bucket back: "Just now" exactly below one minute, "{k}m" only for
      exactly k minutes, "{k}h" only within the k-th hour of the first day, "{k}d" only within
      the k-th day from the first day on. */
  lemma {:induction false} TimestampDeterminesAge(minutes: int, k: nat)
    ensures FormatTimestamp(minutes) == "Just now" <==> minutes < 1
    ensures FormatTimestamp(minutes) == NatToString(k) + "m" ==> minutes == k
    ensures FormatTimestamp(minutes) == NatToString(k) + "h" ==> 60 * k <= minutes < 60 * k + 60 && minutes < 1440
    ensures FormatTimestamp(minutes) == NatToString(k) + "d" ==> 1440 * k <= minutes < 1440 * k + 1440 && minutes >= 1440
  {
    var shown := FormatTimestamp(minutes);
    var m := NatToString(k) + "m";
    var h := NatToString(k) + "h";
    var d := NatToString(k) + "d";
    assert m[|m| - 1] == 'm' && h[|h| - 1] == 'h' && d[|d| - 1] == 'd';
    if minutes < 1 {
      assert shown[|shown| - 1] == 'w';
    } else if minutes < 60 {
      assert shown[|shown| - 1] == 'm';
      RealtimeUtils.NumberLabelInjective(minutes, k, "m");
    } else if minutes < 1440 {
      var hours := minutes / 60;
      assert 60 * hours <= minutes < 60 * hours + 60;
      assert shown[|shown| - 1] == 'h';
      RealtimeUtils.NumberLabelInjective(hours, k, "h");
    } else {
      var days := minutes / 1440;
      assert 1440 * days <= minutes < 1440 * days + 1440;
      assert shown[|shown| - 1] == 'd';
      RealtimeUtils.NumberLabelInjective(days, k, "d");
    }
  }

  /** The generated avatar image: an SVG data URI showing `letter`. The SVG markup and its URI
      encoding, fixed apart from the letter, are abstracted away. */
  function AvatarImage(letter: string): string {
    "data:image/svg+xml," + letter
  }

  /** What the per-conversation requests returned: the content and creation time of the last
      message (absent when there is none), and the username of the first other participant's
      profile (absent when there is no other participant, no profile, or no username). */
  datatype ConversationDetails = ConversationDetails(
    lastContent: Option<string>,
    lastCreatedAt: Option<string>,
    otherUsername: Option<string>)

  /** A fetched conversation row with the answers of its per-conversation requests. */
  datatype LoadedRow = LoadedRow(row: ConversationRow, details: ConversationDetails)

  /** The record transform of the conversation list. */
  function Transform(r: LoadedRow, minutesSince: string -> int): (c: Conversation)
    ensures c.id == r.row.id && c.createdAt == r.row.createdAt && c.isGroup == r.row.isGroup
    ensures r.row.isGroup ==> c.name == r.row.name
    ensures !r.row.isGroup && Truthy(r.details.otherUsername) ==> c.name == r.details.otherUsername.value
    ensures !r.row.isGroup && !Truthy(r.details.otherUsername) ==> c.name == "Unknown User"
    ensures Truthy(r.details.otherUsername) ==> c.avatar == AvatarImage([UpperChar(r.details.otherUsername.value[0])])
    ensures !Truthy(r.details.otherUsername) ==> c.avatar == AvatarImage("?")
    ensures Truthy(r.details.lastContent) ==> c.lastMessage == r.details.lastContent.value
    ensures !Truthy(r.details.lastContent) ==> c.lastMessage == "No messages yet"
    ensures Truthy(r.details.lastCreatedAt) ==> c.timestamp == FormatTimestamp(minutesSince(r.details.lastCreatedAt.value))
    ensures !Truthy(r.details.lastCreatedAt) ==> c.timestamp == FormatTimestamp(minutesSince(r.row.createdAt))
    ensures !c.isOnline && c.unreadCount == Some(0) && c.avatarUrl.None?
  {
    var d := r.details;
    var username := OrElse(d.otherUsername, "Unknown User");
    var avatarText := if Truthy(d.otherUsername) then [UpperChar(d.otherUsername.value[0])] else "?";
    Conversation(
      r.row.id, r.row.createdAt, r.row.isGroup,
      if r.row.isGroup then r.row.name else username,
      AvatarImage(avatarText), None,
      OrElse(d.lastContent, "No messages yet"),
      FormatTimestamp(minutesSince(OrElse(d.lastCreatedAt, r.row.createdAt))),
      false, Some(0))
  }

  function TransformAll(rows: seq<LoadedRow>, minutesSince: string -> int): (cs: seq<Conversation>)
    ensures |cs| == |rows|
    ensures forall i :: 0 <= i < |rows| ==> cs[i] == Transform(rows[i], minutesSince)
  {
    seq(|rows|, i requires 0 <= i < |rows| => Transform(rows[i], minutesSince))
  }

  /** What the list queries answered: the participant query failed, found no row for the user,
      the conversations query failed, or the conversations (newest first) were loaded. */
  datatype FetchOutcome =
    | ParticipantsFailed(error: StoreError)
    | NoParticipants
    | ConversationsFailed(error: StoreError)
    | Loaded(rows: seq<LoadedRow>)

  const FetchFailedText := "Failed to fetch conversations"
  const UpdateFailedText := "Failed to update conversation"
  const DeleteFailedText := "Failed to delete conversation"

  /** The provider's state variables. */
  datatype ProviderState = ProviderState(
    user: Option<User>,
    conversations: seq<Conversation>,
    selected: Option<Conversation>,
    loading: bool,
    error: Option<string>)

  /** One run of `fetchConversations`, its answers given by `outcome`: nothing without a user.
      Otherwise the list is emptied when the user has no participant rows, replaced by the
      transformed rows when they load, and kept when a query fails, which sets the error. A
      loaded non-empty list selects its first entry when nothing was selected. */
  function Fetch(s: ProviderState, outcome: FetchOutcome, minutesSince: string -> int): (r: ProviderState)
    ensures r.user == s.user
    ensures s.user.None? ==> r == s
    ensures s.user.Some? ==> !r.loading
    ensures s.user.Some? && (outcome.ParticipantsFailed? || outcome.ConversationsFailed?) ==>
              r.conversations == s.conversations && r.selected == s.selected
              && r.error == Some(ErrorText(outcome.error, FetchFailedText))
    ensures s.user.Some? && outcome.NoParticipants? ==>
              r.conversations == [] && r.selected == s.selected && r.error.None?
    ensures s.user.Some? && outcome.Loaded? ==>
              && r.conversations == TransformAll(outcome.rows, minutesSince)
              && r.error.None?
              && (s.selected.None? && outcome.rows != [] ==> r.selected == Some(r.conversations[0]))
              && (s.selected.Some? || outcome.rows == [] ==> r.selected == s.selected)
  {
    if s.user.None? then s
    else match outcome
      case ParticipantsFailed(e) => s.(loading := false, error := Some(ErrorText(e, FetchFailedText)))
      case NoParticipants => s.(conversations := [], loading := false, error := None)
      case ConversationsFailed(e) => s.(loading := false, error := Some(ErrorText(e, FetchFailedText)))
      case Loaded(rows) =>
        var cs := TransformAll(rows, minutesSince);
        s.(conversations := cs,
           selected := if s.selected.None? && |cs| > 0 then Some(cs[0]) else s.selected,
           loading := false, error := None)
  }

  /** The session effect: without a user the list is emptied and the selection cleared,
      with one the conversations are fetched. */
  function SessionEffect(s: ProviderState, outcome: FetchOutcome, minutesSince: string -> int): (r: ProviderState)
    ensures r.user == s.user
    ensures s.user.None? ==> r.conversations == [] && r.selected.None? && r.loading == s.loading && r.error == s.error
    ensures s.user.Some? ==> r == Fetch(s, outcome, minutesSince)
  {
    if s.user.None? then s.(conversations := [], selected := None) else Fetch(s, outcome, minutesSince)
  }

  /** `fetchConversations` is a callback over the user and the selected conversation, and the
      session effect depends on that callback: whenever the selection changes, the effect runs
      again. `prev` is the selection the effect last ran with and `refetches` are the answers of
      the fetches it starts, in order. Without a user the effect clears the list at once; with one
      and no answer left, the fetch is still in flight (loading, error cleared). A fetch can
      change the selection only by selecting its first entry, so the chain stops after at most
      two fetches (`SettleUsesAtMostTwoFetches`). */
  function Settle(prev: Option<Conversation>, s: ProviderState, refetches: seq<FetchOutcome>,
                  minutesSince: string -> int): (r: ProviderState)
    ensures r.user == s.user
    ensures s.selected == prev ==> r == s
    ensures s.selected != prev && s.user.None? ==>
              r == s.(conversations := [], selected := None)
    ensures s.selected != prev && s.user.Some? && refetches == [] ==>
              r == s.(loading := true, error := None)
    decreases |refetches|
  {
    if s.selected == prev then s
    else if s.user.None? then s.(conversations := [], selected := None)
    else if refetches == [] then s.(loading := true, error := None)
    else Settle(s.selected, Fetch(s, refetches[0], minutesSince), refetches[1..], minutesSince)
  }

  /** After a change of selection the effect re-runs at most twice: a second run is due only
      when the first fetch selected its first entry, and that selection no fetch changes. */
  lemma SettleUsesAtMostTwoFetches(prev: Option<Conversation>, s: ProviderState, refetches: seq<FetchOutcome>,
                                   minutesSince: string -> int)
    requires |refetches| >= 2
    ensures Settle(prev, s, refetches, minutesSince) == Settle(prev, s, refetches[..2], minutesSince)
  {
    if s.selected != prev && s.user.Some? {
      var s1 := Fetch(s, refetches[0], minutesSince);
      assert refetches[..2][1..] == [refetches[1]];
      if s1.selected != s.selected {
        var s2 := Fetch(s1, refetches[1], minutesSince);
        assert s2.selected == s1.selected;
        assert Settle(s1.selected, s2, refetches[2..], minutesSince) == s2;
        assert Settle(s1.selected, s2, [], minutesSince) == s2;
      }
    }
  }

  /** `updateConversation` up to the re-render. The store is asked only when the update carries
      `isGroup`. Without a store request, or when the request succeeds, every entry with the id
      and the selection of that id are merged with the update; a failed request changes neither
      and sets the error. */
  function Update(s: ProviderState, id: string, u: ConversationUpdate, storeError: Option<StoreError>): (r: ProviderState)
    ensures r.user == s.user && !r.loading
    ensures u.isGroup.None? || storeError.None? ==>
              && r.conversations == UpdateById(s.conversations, id, u)
              && r.selected == MergeSelected(s.selected, id, u)
              && r.error.None?
    ensures u.isGroup.Some? && storeError.Some? ==>
              && r.conversations == s.conversations && r.selected == s.selected
              && r.error == Some(ErrorText(storeError.value, UpdateFailedText))
  {
    if u.isGroup.Some? && storeError.Some? then
      s.(loading := false, error := Some(ErrorText(storeError.value, UpdateFailedText)))
    else
      s.(conversations := UpdateById(s.conversations, id, u), selected := MergeSelected(s.selected, id, u),
         loading := false, error := None)
  }

  /** `deleteConversation` up to the re-render. When the store delete succeeds, the entries with
      the id go, the others stay in order, and the selection is cleared exactly when it had that
      id; a failed delete changes neither and sets the error. */
  function Delete(s: ProviderState, id: string, storeError: Option<StoreError>): (r: ProviderState)
    ensures r.user == s.user && !r.loading
    ensures storeError.None? ==>
              && r.conversations == RemoveById(s.conversations, id)
              && (s.selected.Some? && s.selected.value.id == id ==> r.selected.None?)
              && (s.selected.None? || s.selected.value.id != id ==> r.selected == s.selected)
              && r.error.None?
    ensures storeError.Some? ==>
              && r.conversations == s.conversations && r.selected == s.selected
              && r.error == Some(ErrorText(storeError.value, DeleteFailedText))
  {
    if storeError.Some? then s.(loading := false, error := Some(ErrorText(storeError.value, DeleteFailedText)))
    else
      s.(conversations := RemoveById(s.conversations, id),
         selected := if s.selected.Some? && s.selected.value.id == id then None else s.selected,
         loading := false, error := None)
  }

  /** A local-only update of the selected conversation that changes it makes a new selection,
      so the fetch runs again and its rows replace the merged list, while the selection keeps
      the merged value: the list and the selection then disagree. */
  lemma RefetchReplacesLocalUpdate(s: ProviderState, id: string, u: ConversationUpdate,
                                   rows: seq<LoadedRow>, minutesSince: string -> int)
    requires s.user.Some? && u.isGroup.None?
    requires s.selected.Some? && s.selected.value.id == id && Merge(s.selected.value, u) != s.selected.value
    ensures var r := Settle(s.selected, Update(s, id, u, None), [Loaded(rows)], minutesSince);
            && r.conversations == TransformAll(rows, minutesSince)
            && r.selected == Some(Merge(s.selected.value, u))
            && !r.loading && r.error.None?
  {
    var s1 := Update(s, id, u, None);
    var s2 := Fetch(s1, Loaded(rows), minutesSince);
    assert Settle(s1.selected, s2, [], minutesSince) == s2;
  }

  /** Deleting the selected conversation clears the selection; the refetch then selects the
      first fetched entry, which re-runs the fetch once more: the list comes from the second
      answer, the selection from the first. */
  lemma DeleteSelectedRefetchesTwice(s: ProviderState, rows1: seq<LoadedRow>, rows2: seq<LoadedRow>,
                                     minutesSince: string -> int)
    requires s.user.Some? && s.selected.Some? && rows1 != []
    ensures var r := Settle(s.selected, Delete(s, s.selected.value.id, None), [Loaded(rows1), Loaded(rows2)], minutesSince);
            && r.conversations == TransformAll(rows2, minutesSince)
            && r.selected == Some(Transform(rows1[0], minutesSince))
            && !r.loading
  {
    var s1 := Delete(s, s.selected.value.id, None);
    var s2 := Fetch(s1, Loaded(rows1), minutesSince);
    var s3 := Fetch(s2, Loaded(rows2), minutesSince);
    assert [Loaded(rows1), Loaded(rows2)][1..] == [Loaded(rows2)];
    assert Settle(s2.selected, s3, [], minutesSince) == s3;
  }

  class ConversationProvider {
    var user: Option<User>
    var conversations: seq<Conversation>
    var selected: Option<Conversation>
    var loading: bool
    var error: Option<string>

    function State(): ProviderState
      reads this
    {
      ProviderState(user, conversations, selected, loading, error)
    }

    constructor (session: Option<User>)
      ensures State() == ProviderState(session, [], None, false, None)
    {
      user := session;
      conversations := [];
      selected := None;
      loading := false;
      error := None;
    }

    /** Takes the state `r` on. */
    method Become(r: ProviderState)
      modifies this
      ensures State() == r
    {
      user := r.user;
      conversations := r.conversations;
      selected := r.selected;
      loading := r.loading;
      error := r.error;
    }

    /** `fetchConversations`, followed by the fetches its own change of selection starts. */
    method FetchConversations(outcome: FetchOutcome, refetches: seq<FetchOutcome>, minutesSince: string -> int)
      modifies this
      ensures State() == Settle(old(selected), Fetch(old(State()), outcome, minutesSince), refetches, minutesSince)
    {
      Become(Settle(selected, Fetch(State(), outcome, minutesSince), refetches, minutesSince));
    }

    /** `selectConversation`: a new selection re-runs the fetch. */
    method SelectConversation(c: Conversation, refetches: seq<FetchOutcome>, minutesSince: string -> int)
      modifies this
      ensures State() == Settle(old(selected), old(State()).(selected := Some(c)), refetches, minutesSince)
      ensures old(user).Some? || old(selected) == Some(c) ==> selected == Some(c)
      ensures old(user).None? && old(selected) != Some(c) ==> selected.None? && conversations == []
    {
      Become(Settle(selected, State().(selected := Some(c)), refetches, minutesSince));
      if old(user).Some? || old(selected) == Some(c) {
        SettleKeepsSomeSelection(old(selected), old(State()).(selected := Some(c)), refetches, minutesSince);
      }
    }

    /** `updateConversation`; the result tells whether the store was asked. */
    method UpdateConversation(id: string, u: ConversationUpdate, storeError: Option<StoreError>,
                              refetches: seq<FetchOutcome>, minutesSince: string -> int)
      returns (storeCalled: bool)
      modifies this
      ensures storeCalled <==> u.isGroup.Some?
      ensures State() == Settle(old(selected), Update(old(State()), id, u, storeError), refetches, minutesSince)
    {
      storeCalled := u.isGroup.Some?;
      Become(Settle(selected, Update(State(), id, u, storeError), refetches, minutesSince));
    }

    /** `deleteConversation`. */
    method DeleteConversation(id: string, storeError: Option<StoreError>,
                              refetches: seq<FetchOutcome>, minutesSince: string -> int)
      modifies this
      ensures State() == Settle(old(selected), Delete(old(State()), id, storeError), refetches, minutesSince)
    {
      Become(Settle(selected, Delete(State(), id, storeError), refetches, minutesSince));
    }

    /** A change of session runs the session effect, and the fetches that a change of selection
        starts follow. */
    method SessionChanged(session: Option<User>, outcome: FetchOutcome, refetches: seq<FetchOutcome>,
                          minutesSince: string -> int)
      modifies this
      ensures user == session
      ensures State() == Settle(old(selected), SessionEffect(old(State()).(user := session), outcome, minutesSince),
                                refetches, minutesSince)
    {
      Become(Settle(selected, SessionEffect(State().(user := session), outcome, minutesSince), refetches, minutesSince));
    }
  }

  /** A selection that is present stays through every refetch. */
  lemma {:induction false} SettleKeepsSomeSelection(prev: Option<Conversation>, s: ProviderState,
                                                    refetches: seq<FetchOutcome>, minutesSince: string -> int)
    requires s.selected.Some? && (s.user.Some? || s.selected == prev)
    ensures Settle(prev, s, refetches, minutesSince).selected == s.selected
    decreases |refetches|
  {
    if s.selected != prev && refetches != [] {
      SettleKeepsSomeSelection(s.selected, Fetch(s, refetches[0], minutesSince), refetches[1..], minutesSince);
    }
  }
}
