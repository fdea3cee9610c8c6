/** The prototype board page: a fixed list of mock groups, one message list, an input box and
    the selected group's id (initially 1). Selecting a group does not load its messages. */
module Board {
  import opened Wrappers
  import opened Prototype

  class BoardPage {
    var messageGroups: seq<Group>
    var messages: seq<BoardMessage>
    var newMessage: string
    var selectedGroup: int

    /** Ids of groups and messages are 1..n in list order. */
    predicate Valid()
      reads this
    {
      GroupIdsSequential(messageGroups) && MessageIdsSequential(messages)
    }

    constructor ()
      ensures messageGroups == InitialGroups && messages == InitialMessages
      ensures newMessage == "" && selectedGroup == 1
      ensures Valid()
    {
      messageGroups := InitialGroups;
      messages := InitialMessages;
      newMessage := "";
      selectedGroup := 1;
    }

    function Header(): (r: string)
      reads this
    {
      HeaderTitle(messageGroups, Some(selectedGroup))
    }

    method OnInput(text: string)
      modifies this
      ensures newMessage == text && messages == old(messages)
      ensures messageGroups == old(messageGroups) && selectedGroup == old(selectedGroup)
    {
      newMessage := text;
    }

    /** `handleSendMessage`: a blank input changes nothing; otherwise the untrimmed text is
        appended as the viewer's message and the input is cleared. */
    method HandleSendMessage()
      modifies this
      requires Valid()
      ensures Valid()
      ensures !SendAccepted(old(newMessage)) ==> messages == old(messages) && newMessage == old(newMessage)
      ensures SendAccepted(old(newMessage)) ==> messages == AppendOwn(old(messages), old(newMessage)) && newMessage == ""
      ensures messageGroups == old(messageGroups) && selectedGroup == old(selectedGroup)
    {
      if SendAccepted(newMessage) {
        messages := AppendOwn(messages, newMessage);
        newMessage := "";
      }
    }

    /** Enter in the input box sends; other keys do nothing. */
    method HandleKeyPress(key: string)
      modifies this
      requires Valid()
      ensures Valid()
      ensures key != "Enter" || !SendAccepted(old(newMessage)) ==>
                messages == old(messages) && newMessage == old(newMessage)
      ensures key == "Enter" && SendAccepted(old(newMessage)) ==>
                messages == AppendOwn(old(messages), old(newMessage)) && newMessage == ""
      ensures messageGroups == old(messageGroups) && selectedGroup == old(selectedGroup)
    {
      if key == "Enter" {
        HandleSendMessage();
      }
    }

    /** `handleSelectGroup`: only the selection changes; the messages stay. */
    method HandleSelectGroup(groupId: int)
      modifies this
      ensures selectedGroup == groupId
      ensures messages == old(messages) && newMessage == old(newMessage) && messageGroups == old(messageGroups)
    {
      selectedGroup := groupId;
    }
  }

  /** Selecting each of the mock groups shows its name in the header; the initial selection is
      "Team Alpha". */
  lemma InitialHeaders()
    ensures HeaderTitle(InitialGroups, Some(1)) == "Team Alpha"
    ensures HeaderTitle(InitialGroups, Some(3)) == "General Chat"
    ensures HeaderTitle(InitialGroups, Some(4)) == "Chat"
  {
    HeaderOfSequentialGroups(InitialGroups, 1);
    HeaderOfSequentialGroups(InitialGroups, 3);
    HeaderOfSequentialGroups(InitialGroups, 4);
  }
}
