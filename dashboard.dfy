/** The prototype dashboard: the mock groups, a group creator fed by a prompt, and the
    selection it shares with the group list and the chat box (initially none). Logging out is
    an authentication call followed by navigation and is left out. */
module DashBoard {
  import opened Wrappers
  import opened Prototype

  /** `if (newGroupName)`: a cancelled prompt or an empty answer adds nothing; any other answer,
      white space included, is added as is. */
  function CreateGroup(groups: seq<Group>, promptAnswer: Option<string>): (r: seq<Group>)
    ensures promptAnswer.None? || promptAnswer == Some("") ==> r == groups
    ensures promptAnswer.Some? && promptAnswer.value != [] ==> r == AppendGroup(groups, promptAnswer.value)
    ensures GroupIdsSequential(groups) ==> GroupIdsSequential(r)
  {
    if promptAnswer.Some? && promptAnswer.value != [] then AppendGroup(groups, promptAnswer.value) else groups
  }

  /** A name made of a single space is accepted. */
  lemma BlankNameAccepted(groups: seq<Group>)
    ensures CreateGroup(groups, Some(" ")) == groups + [Group(|groups| + 1, " ", 0)]
  {
  }

  class Dashboard {
    var selectedGroup: Option<int>
    var messageGroups: seq<Group>

    predicate Valid()
      reads this
    {
      GroupIdsSequential(messageGroups)
    }

    constructor ()
      ensures selectedGroup.None? && messageGroups == InitialGroups && Valid()
    {
      selectedGroup := None;
      messageGroups := InitialGroups;
    }

    /** The chat box's header for the dashboard's groups and selection. */
    function Header(): (r: string)
      reads this
    {
      HeaderTitle(messageGroups, selectedGroup)
    }

    /** `handleCreateGroup` with the prompt's answer; the ids stay 1..n. */
    method HandleCreateGroup(promptAnswer: Option<string>)
      modifies this
      requires Valid()
      ensures Valid()
      ensures messageGroups == CreateGroup(old(messageGroups), promptAnswer)
      ensures selectedGroup == old(selectedGroup)
    {
      messageGroups := CreateGroup(messageGroups, promptAnswer);
    }

    /** `onSelectGroup={setSelectedGroup}`. */
    method SelectGroup(groupId: int)
      modifies this
      ensures selectedGroup == Some(groupId) && messageGroups == old(messageGroups)
    {
      selectedGroup := Some(groupId);
    }
  }

  /** Before anything is selected the chat box says "Chat", and a newly created group can be
      selected by the id it was given. */
  lemma CreatedGroupIsSelectable(groups: seq<Group>, name: string)
    requires GroupIdsSequential(groups) && name != []
    ensures HeaderTitle(groups, None) == "Chat"
    ensures var r := CreateGroup(groups, Some(name));
            HeaderTitle(r, Some(|r|)) == name
  {
    var r := CreateGroup(groups, Some(name));
    HeaderOfSequentialGroups(r, |r|);
  }
}
