/** What the three prototype chat pages share: mock groups with unread counters, a local message
    list whose own messages are numbered `length + 1`, the header lookup and the two styling
    rules. */
module Prototype {
  import opened Wrappers
  import opened Strings

  datatype Group = Group(id: int, name: string, unread: int)

  datatype BoardMessage = BoardMessage(id: int, sender: string, content: string)

  const OwnSender := "You"

  const InitialGroups := [Group(1, "Team Alpha", 2), Group(2, "Project Beta", 0), Group(3, "General Chat", 5)]

  const InitialMessages := [BoardMessage(1, "User1", "Hello!"), BoardMessage(2, "User2", "Hi, how are you?")]

  /** The ids are 1, 2, ..., n in list order. */
  predicate MessageIdsSequential(msgs: seq<BoardMessage>) {
    forall i :: 0 <= i < |msgs| ==> msgs[i].id == i + 1
  }

  predicate GroupIdsSequential(groups: seq<Group>) {
    forall i :: 0 <= i < |groups| ==> groups[i].id == i + 1
  }

  /** `[...messages, { id: messages.length + 1, sender: "You", content: newMessage }]`: the
      untrimmed text goes at the end and the earlier messages stay as they were. */
  function AppendOwn(msgs: seq<BoardMessage>, text: string): (r: seq<BoardMessage>)
    ensures |r| == |msgs| + 1 && r[..|msgs|] == msgs
    ensures r[|msgs|] == BoardMessage(|msgs| + 1, OwnSender, text)
    ensures MessageIdsSequential(msgs) ==> MessageIdsSequential(r)
  {
    msgs + [BoardMessage(|msgs| + 1, OwnSender, text)]
  }

  /** `[...messageGroups, { id: messageGroups.length + 1, name, unread: 0 }]`. */
  function AppendGroup(groups: seq<Group>, name: string): (r: seq<Group>)
    ensures |r| == |groups| + 1 && r[..|groups|] == groups
    ensures r[|groups|] == Group(|groups| + 1, name, 0)
    ensures GroupIdsSequential(groups) ==> GroupIdsSequential(r)
  {
    groups + [Group(|groups| + 1, name, 0)]
  }

  /** `messageGroups.find(g => g.id === selectedGroup)`: the first group with the selected id;
      a null selection matches nothing. */
  function FindGroup(groups: seq<Group>, selected: Option<int>): (r: Option<nat>)
    ensures r.Some? ==> r.value < |groups| && selected == Some(groups[r.value].id)
    ensures r.Some? ==> forall j :: 0 <= j < r.value ==> selected != Some(groups[j].id)
    ensures r.None? <==> forall j :: 0 <= j < |groups| ==> selected != Some(groups[j].id)
    decreases |groups|
  {
    if groups == [] then None
    else if selected == Some(groups[0].id) then Some(0)
    else match FindGroup(groups[1..], selected)
      case None => None
      case Some(k) => Some(k + 1)
  }

  /** The header: the found group's name, or "Chat" when there is none or its name is empty. */
  function HeaderTitle(groups: seq<Group>, selected: Option<int>): (r: string)
    ensures FindGroup(groups, selected).Some? && groups[FindGroup(groups, selected).value].name != [] ==>
              r == groups[FindGroup(groups, selected).value].name
    ensures FindGroup(groups, selected).None? ==> r == "Chat"
    ensures r != []
  {
    var k := FindGroup(groups, selected);
    if k.Some? && groups[k.value].name != [] then groups[k.value].name else "Chat"
  }

  /** With ids 1..n, selecting id `k` shows the k-th group's name (when it has one), and any
      other id shows "Chat". */
  lemma {:induction false} HeaderOfSequentialGroups(groups: seq<Group>, k: int)
    requires GroupIdsSequential(groups)
    ensures 1 <= k <= |groups| ==> FindGroup(groups, Some(k)) == Some(k - 1)
    ensures !(1 <= k <= |groups|) ==> HeaderTitle(groups, Some(k)) == "Chat"
  {
    if 1 <= k <= |groups| {
      assert groups[k - 1].id == k;
    } else {
      forall j | 0 <= j < |groups| ensures Some(k) != Some(groups[j].id) {
        assert groups[j].id == j + 1;
      }
    }
  }

  /** The unread badge is shown iff the counter is positive. */
  predicate ShowsBadge(g: Group) {
    g.unread > 0
  }

  /** Of the mock groups, "Team Alpha" and "General Chat" show a badge; a created group never
      does, and creating one keeps every other badge. */
  lemma BadgesAfterCreate(groups: seq<Group>, name: string)
    ensures ShowsBadge(InitialGroups[0]) && !ShowsBadge(InitialGroups[1]) && ShowsBadge(InitialGroups[2])
    ensures !ShowsBadge(AppendGroup(groups, name)[|groups|])
    ensures forall i :: 0 <= i < |groups| ==> (ShowsBadge(AppendGroup(groups, name)[i]) <==> ShowsBadge(groups[i]))
  {
  }

  /** A message is styled as the viewer's own iff its sender is "You". */
  predicate OwnStyle(m: BoardMessage) {
    m.sender == OwnSender
  }

  /** Neither mock message is styled as the viewer's own; a sent message always is, and sending
      restyles none of the earlier messages. */
  lemma OwnStyleAfterAppend(msgs: seq<BoardMessage>, text: string)
    ensures forall i :: 0 <= i < |InitialMessages| ==> !OwnStyle(InitialMessages[i])
    ensures OwnStyle(AppendOwn(msgs, text)[|msgs|])
    ensures forall i :: 0 <= i < |msgs| ==> (OwnStyle(AppendOwn(msgs, text)[i]) <==> OwnStyle(msgs[i]))
  {
  }

  /** Sending only when the input is not blank. */
  predicate SendAccepted(newMessage: string) {
    Trim(newMessage) != []
  }
}
