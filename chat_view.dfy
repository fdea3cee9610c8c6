/** What the chat page and the sidebar both derive from the conversation list and the session:
    the case-insensitive name filter, the list placeholder, the row highlight, the display name
    of the signed-in user and the initials of an avatar fallback. */
module ChatView {
  import opened Wrappers
  import opened Strings
  import opened Records
  import opened Seqs
  import opened ConversationContext

  /** The filter test: the lower-cased name contains the lower-cased query. */
  predicate NameMatches(c: Conversation, query: string) {
    Contains(ToLower(c.name), ToLower(query))
  }

  /** `conversations.filter(conv => conv.name.toLowerCase().includes(searchQuery.toLowerCase()))`:
      keeps, in order, exactly the conversations whose name matches. */
  function FilterByName(cs: seq<Conversation>, query: string): (r: seq<Conversation>)
    ensures forall i :: 0 <= i < |cs| ==> (cs[i] in r <==> NameMatches(cs[i], query))
    ensures forall i :: 0 <= i < |r| ==> r[i] in cs && NameMatches(r[i], query)
    ensures IsSubsequence(r, cs)
    ensures |r| == Count(cs, (c: Conversation) => NameMatches(c, query))
  {
    Filter(cs, (c: Conversation) => NameMatches(c, query))
  }

  /** An empty query keeps every conversation. */
  lemma EmptyQueryKeepsAll(cs: seq<Conversation>)
    ensures FilterByName(cs, "") == cs
  {
    forall i | 0 <= i < |cs| ensures NameMatches(cs[i], "") {
      ContainsEmpty(ToLower(cs[i].name));
    }
    FilterAll(cs, (c: Conversation) => NameMatches(c, ""));
  }

  /** The query's letter case does not matter. */
  lemma QueryCaseInsensitive(cs: seq<Conversation>, query: string)
    ensures FilterByName(cs, ToLower(query)) == FilterByName(cs, query)
  {
    ToLowerIdempotent(query);
    FilterSamePredicate(cs, (c: Conversation) => NameMatches(c, ToLower(query)),
                        (c: Conversation) => NameMatches(c, query));
  }

  /** What the list area shows: the placeholder when no conversation passes the filter, the rows
      otherwise. */
  datatype ListView = NoConversationsPlaceholder | Rows(rows: seq<Conversation>)

  function ConversationList(cs: seq<Conversation>, query: string): (v: ListView)
    ensures v.NoConversationsPlaceholder? <==> FilterByName(cs, query) == []
    ensures v.Rows? ==> v.rows == FilterByName(cs, query) && v.rows != []
  {
    var rows := FilterByName(cs, query);
    if rows == [] then NoConversationsPlaceholder else Rows(rows)
  }

  /** A row is highlighted iff it is the selected conversation's id. */
  predicate IsHighlighted(row: Conversation, selected: Option<Conversation>) {
    selected.Some? && selected.value.id == row.id
  }

  /** The signed-in user's name in the header: the `full_name` metadata, else the e-mail text
      before the first "@", else "User". */
  function DisplayName(user: Option<User>): (r: string)
    ensures user.Some? && Truthy(user.value.fullName) ==> r == user.value.fullName.value
    ensures user.Some? && !Truthy(user.value.fullName) && user.value.email.Some?
            && FirstSegment(user.value.email.value, '@') != [] ==>
              r == FirstSegment(user.value.email.value, '@')
    ensures user.None? || (!Truthy(user.value.fullName)
                           && (user.value.email.None? || FirstSegment(user.value.email.value, '@') == [])) ==>
              r == "User"
    ensures r != []
  {
    if user.Some? && Truthy(user.value.fullName) then user.value.fullName.value
    else if user.Some? && user.value.email.Some? && FirstSegment(user.value.email.value, '@') != [] then
      FirstSegment(user.value.email.value, '@')
    else "User"
  }

  /** The e-mail fallback is the local part: it has no "@" and is followed by the first "@" of
      the address, if any. */
  lemma DisplayNameFromEmail(u: User)
    requires !Truthy(u.fullName) && u.email.Some?
    ensures var r := DisplayName(Some(u));
            r == "User" || (StartsWith(u.email.value, r) && '@' !in r
                            && (|r| < |u.email.value| ==> u.email.value[|r|] == '@'))
  {
    FirstSegmentShape(u.email.value, '@');
  }

  /** `s[0]` of each part, where an empty part contributes nothing to the join. */
  function FirstChars(parts: seq<string>): string
    decreases |parts|
  {
    if parts == [] then []
    else (if parts[0] == [] then [] else [parts[0][0]]) + FirstChars(parts[1..])
  }

  /** Reference definition: the characters that begin a word, i.e. a non-space character
      at the start or right after a space. */
  function WordStarts(s: string, atStart: bool): string
    decreases |s|
  {
    if s == [] then []
    else (if s[0] != ' ' && atStart then [s[0]] else []) + WordStarts(s[1..], s[0] == ' ')
  }

  /** Runs of spaces add nothing: the first characters of the space-separated parts are exactly
      the word-start characters, in order. */
  lemma {:induction false} FirstCharsAreWordStarts(name: string)
    ensures FirstChars(Split(name, ' ')) == WordStarts(name, true)
    ensures FirstChars(Split(name, ' ')[1..]) == WordStarts(name, false)
    decreases |name|
  {
    if name != [] {
      FirstCharsAreWordStarts(name[1..]);
      var rest := Split(name[1..], ' ');
      if name[0] == ' ' {
        assert Split(name, ' ') == [[]] + rest;
        assert ([[]] + rest)[1..] == rest;
      } else {
        var parts := [[name[0]] + rest[0]] + rest[1..];
        assert Split(name, ' ') == parts;
        assert parts[1..] == rest[1..];
      }
    }
  }

  /** `name.split(" ").map(n => n[0]).join("")`: the avatar initials are the characters that
      begin a word. */
  function Initials(name: string): (r: string)
    ensures r == WordStarts(name, true)
  {
    FirstCharsAreWordStarts(name);
    FirstChars(Split(name, ' '))
  }

  /** The row highlight compares ids only, so a refetch that keeps the selection keeps the
      highlight on the same rows, whatever the refetched entries contain. */
  lemma HighlightSurvivesRefetch(row: Conversation, prev: Option<Conversation>, s: ProviderState,
                                 refetches: seq<FetchOutcome>, minutesSince: string -> int)
    requires s.selected.Some? && (s.user.Some? || s.selected == prev)
    ensures IsHighlighted(row, Settle(prev, s, refetches, minutesSince).selected) <==> IsHighlighted(row, s.selected)
  {
    SettleKeepsSomeSelection(prev, s, refetches, minutesSince);
  }

  /** A local update that leaves the id alone keeps the highlight where it was. */
  lemma HighlightSurvivesUpdate(row: Conversation, selected: Option<Conversation>, id: string, u: ConversationUpdate)
    requires u.id.None?
    ensures IsHighlighted(row, MergeSelected(selected, id, u)) <==> IsHighlighted(row, selected)
  {
  }
}
