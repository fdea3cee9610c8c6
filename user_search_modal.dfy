/** The "Find User" modal. Its search effect runs each time the query, the open flag or the
    session changes: it first cancels the search scheduled by the previous run, then resets the
    modal (closed), clears the results (blank query) or schedules a debounced search. The
    scheduled search either reports a missing session or asks the `profiles` table for usernames
    containing the query, leaving out the signed-in user. When the timer fires, the request and
    its reply are one step here (`Fire`); the delay itself is not modelled. */
module UserSearchModal {
  import opened Wrappers
  import opened Strings
  import opened Records
  import opened Seqs

  const AuthRequiredText := "Authentication required"
  const SearchErrorText := "Error searching users"
  const NoUsersText := "No users found"

  /** A scheduled search: the query and the session it was scheduled with. */
  datatype PendingSearch = PendingSearch(query: string, session: Option<User>)

  /** The modal's state; `pending` is the debounce timer that has not fired yet. */
  datatype SearchState = SearchState(open: bool, query: string, results: seq<Profile>, loading: bool,
                                     error: string, pending: Option<PendingSearch>)

  /** `ilike("username", "*query*")`: the username contains the query, ignoring letter case.
      The pattern characters `%` and `_` are taken literally here. */
  predicate UsernameLike(p: Profile, query: string) {
    Contains(ToLower(p.username), ToLower(query))
  }

  /** The rows the search request returns from `profiles`: matching usernames, never the
      searcher's own row, in table order. */
  function SearchRows(profiles: seq<Profile>, query: string, ownId: string): (r: seq<Profile>)
    ensures forall i :: 0 <= i < |r| ==> r[i] in profiles && UsernameLike(r[i], query) && r[i].id != ownId
    ensures forall i :: 0 <= i < |profiles| && UsernameLike(profiles[i], query) && profiles[i].id != ownId ==>
              profiles[i] in r
    ensures IsSubsequence(r, profiles)
  {
    Filter(profiles, (p: Profile) => UsernameLike(p, query) && p.id != ownId)
  }

  /** The backend's answer to the search request: an error, or the `profiles` table it searched. */
  datatype SearchReply = SearchFailed | Table(profiles: seq<Profile>)

  /** The effect as written: closing and a blank query return without touching `loading`. */
  function EffectAsWritten(s: SearchState, session: Option<User>): (r: SearchState)
    ensures r.pending.Some? ==> r == Effect(s, session)
    ensures r.pending.None? ==> r == Effect(s, session).(loading := s.loading)
  {
    if !s.open then s.(query := "", results := [], error := "", pending := None)
    else if Trim(s.query) == [] then s.(results := [], error := "", pending := None)
    else s.(loading := true, error := "", pending := Some(PendingSearch(s.query, session)))
  }

  /** "Searching..." is shown only while a search is scheduled. */
  predicate Settled(s: SearchState) {
    s.loading ==> s.pending.Some?
  }

  /** The effect with `loading` turned off on the two early returns. Closing resets the query,
      results and error; a blank query clears the results and error without scheduling; any
      other query schedules exactly one search for itself and the current session. Either way
      the previous schedule is gone and no spinner is left without a search behind it. */
  function Effect(s: SearchState, session: Option<User>): (r: SearchState)
    ensures Settled(r)
    ensures r.open == s.open && r.error == "" && r.results == (if r.pending.Some? then s.results else [])
    ensures !s.open ==> r.query == "" && r.pending.None? && !r.loading
    ensures s.open ==> r.query == s.query
    ensures s.open && Trim(s.query) == [] ==> r.pending.None? && !r.loading
    ensures s.open && Trim(s.query) != [] ==> r.pending == Some(PendingSearch(s.query, session)) && r.loading
  {
    if !s.open then s.(query := "", results := [], loading := false, error := "", pending := None)
    else if Trim(s.query) == [] then s.(results := [], loading := false, error := "", pending := None)
    else s.(loading := true, error := "", pending := Some(PendingSearch(s.query, session)))
  }

  /** The scheduled search runs: without a session it reports "Authentication required";
      otherwise an error clears the results, a non-empty answer becomes the results and an empty
      one reports "No users found". `loading` is off afterwards; with nothing scheduled nothing
      happens. */
  function Fire(s: SearchState, reply: SearchReply): (r: SearchState)
    ensures s.pending.None? ==> r == s
    ensures s.pending.Some? ==> !r.loading && r.pending.None? && r.open == s.open && r.query == s.query
    ensures Settled(s) ==> Settled(r)
    ensures s.pending.Some? && s.pending.value.session.None? ==>
              r.error == AuthRequiredText && r.results == s.results
    ensures s.pending.Some? && s.pending.value.session.Some? && reply.SearchFailed? ==>
              r.error == SearchErrorText && r.results == []
    ensures s.pending.Some? && s.pending.value.session.Some? && reply.Table? ==>
              r.results == SearchRows(reply.profiles, s.pending.value.query, s.pending.value.session.value.id)
    ensures s.pending.Some? && s.pending.value.session.Some? && reply.Table? ==>
              (r.results == [] <==> r.error == NoUsersText) || s.error == NoUsersText
    ensures s.pending.Some? && s.pending.value.session.Some? && reply.Table? && r.results != [] ==>
              r.error == s.error
  {
    if s.pending.None? then s
    else
      var p := s.pending.value;
      if p.session.None? then s.(error := AuthRequiredText, loading := false, pending := None)
      else match reply
        case SearchFailed => s.(loading := false, error := SearchErrorText, results := [], pending := None)
        case Table(profiles) =>
          var rows := SearchRows(profiles, p.query, p.session.value.id);
          if |rows| > 0 then s.(loading := false, results := rows, pending := None)
          else s.(loading := false, results := [], error := NoUsersText, pending := None)
  }

  /** As written, clearing the query while a search is scheduled cancels the search but leaves
      `loading` on: "Searching..." stays up, no timer is left to turn it off, and the error line
      stays hidden. */
  lemma AsWrittenSearchingStuck(reply: SearchReply)
    ensures var session := Some(User("me", None, None));
            var scheduled := EffectAsWritten(SearchState(true, "ann", [], false, "", None), session);
            var cleared := EffectAsWritten(scheduled.(query := ""), session);
            && scheduled.pending.Some?
            && cleared.loading && cleared.pending.None? && !Settled(cleared)
            && Fire(cleared, reply) == cleared
            && View(cleared) == Shown(true, None, [])
  {
    var session := Some(User("me", None, None));
    var start := SearchState(true, "ann", [], false, "", None);
    assert Trim("ann") != [] by {
      assert !IsSpace("ann"[0]);
      TrimEmptyIffBlank("ann");
    }
    var scheduled := EffectAsWritten(start, session);
    assert scheduled == start.(loading := true, pending := Some(PendingSearch("ann", session)));
    var cleared := EffectAsWritten(scheduled.(query := ""), session);
    assert Trim("") == [];
    assert cleared == SearchState(true, "", [], true, "", None);
  }

  /** The correction only changes `loading`. */
  lemma EffectOnlyFixesLoading(s: SearchState, session: Option<User>)
    ensures Effect(s, session) == EffectAsWritten(s, session).(loading := Effect(s, session).loading)
  {
  }

  /** With the correction the spinner always ends: from any settled state, the next timer that
      fires (if any) turns `loading` off, and a state that is not loading stays so. */
  lemma SpinnerEnds(s: SearchState, reply: SearchReply)
    requires Settled(s)
    ensures !Fire(s, reply).loading
  {
  }

  /** The avatar letter of a result row: the username's first character in upper case, "U" for an
      empty username. */
  function AvatarLetter(username: string): (r: string)
    ensures |r| == 1
    ensures username == [] ==> r == "U"
    ensures username != [] ==> r[0] == UpperChar(username[0])
  {
    if username == [] then "U" else [UpperChar(username[0])]
  }

  /** A result row: the letter and the username (the e-mail fallback is never selected). */
  datatype ResultRow = ResultRow(id: string, letter: string, name: string)

  datatype ModalView = Hidden | Shown(searching: bool, errorText: Option<string>, rows: seq<ResultRow>)

  /** A closed modal renders nothing; the error text is hidden while loading. */
  function View(s: SearchState): (v: ModalView)
    ensures v.Hidden? <==> !s.open
    ensures v.Shown? ==> v.searching == s.loading
    ensures v.Shown? ==> (v.errorText.Some? <==> s.error != [] && !s.loading)
    ensures v.Shown? && v.errorText.Some? ==> v.errorText.value == s.error
    ensures v.Shown? ==> |v.rows| == |s.results|
    ensures v.Shown? ==> forall i :: 0 <= i < |s.results| ==>
              v.rows[i] == ResultRow(s.results[i].id, AvatarLetter(s.results[i].username), s.results[i].username)
  {
    if !s.open then Hidden
    else Shown(s.loading, if s.error != [] && !s.loading then Some(s.error) else None,
               seq(|s.results|, i requires 0 <= i < |s.results| =>
                 ResultRow(s.results[i].id, AvatarLetter(s.results[i].username), s.results[i].username)))
  }

  /** The modal component with the corrected effect. Each prop or input change re-runs the
      effect. */
  class SearchModal {
    var open: bool
    var query: string
    var results: seq<Profile>
    var loading: bool
    var error: string
    var pending: Option<PendingSearch>

    function State(): SearchState
      reads this
    {
      SearchState(open, query, results, loading, error, pending)
    }

    predicate Valid()
      reads this
    {
      Settled(State())
    }

    /** Mounting: empty query, no results, not loading, then the first effect run. */
    constructor (isOpen: bool, session: Option<User>)
      ensures State() == Effect(SearchState(isOpen, "", [], false, "", None), session)
      ensures Valid()
    {
      var s := Effect(SearchState(isOpen, "", [], false, "", None), session);
      open, query, results, loading, error, pending := s.open, s.query, s.results, s.loading, s.error, s.pending;
    }

    method RunEffect(session: Option<User>)
      modifies this
      ensures State() == Effect(old(State()), session)
      ensures Valid()
    {
      var s := Effect(State(), session);
      open, query, results, loading, error, pending := s.open, s.query, s.results, s.loading, s.error, s.pending;
    }

    /** The `open` prop changes. */
    method SetOpen(isOpen: bool, session: Option<User>)
      modifies this
      ensures State() == Effect(old(State()).(open := isOpen), session)
      ensures Valid()
    {
      open := isOpen;
      RunEffect(session);
    }

    /** The input's `onChange`. */
    method ChangeQuery(text: string, session: Option<User>)
      modifies this
      ensures State() == Effect(old(State()).(query := text), session)
      ensures Valid()
    {
      query := text;
      RunEffect(session);
    }

    /** The debounce timer fires and its request is answered. */
    method TimerFires(reply: SearchReply)
      modifies this
      requires Valid()
      ensures State() == Fire(old(State()), reply)
      ensures Valid() && !loading
    {
      var s := Fire(State(), reply);
      open, query, results, loading, error, pending := s.open, s.query, s.results, s.loading, s.error, s.pending;
    }
  }
}
