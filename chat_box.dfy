/** The prototype chat box: a header looked up from the groups and selection it is given, and a
    local message list of its own that does not depend on the selection. */
module ChatBox {
  import opened Wrappers
  import opened Prototype

  class ChatBoxPanel {
    var messages: seq<BoardMessage>
    var newMessage: string

    predicate Valid()
      reads this
    {
      MessageIdsSequential(messages)
    }

    constructor ()
      ensures messages == InitialMessages && newMessage == "" && Valid()
    {
      messages := InitialMessages;
      newMessage := "";
    }

    /** The header for the given props. */
    function Header(messageGroups: seq<Group>, selectedGroup: Option<int>): (r: string)
    {
      HeaderTitle(messageGroups, selectedGroup)
    }

    method OnInput(text: string)
      modifies this
      ensures newMessage == text && messages == old(messages)
    {
      newMessage := text;
    }

    /** `handleSendMessage`: as on the board, a blank input changes nothing and any other input
        is appended untrimmed and cleared. */
    method HandleSendMessage()
      modifies this
      requires Valid()
      ensures Valid()
      ensures !SendAccepted(old(newMessage)) ==> messages == old(messages) && newMessage == old(newMessage)
      ensures SendAccepted(old(newMessage)) ==> messages == AppendOwn(old(messages), old(newMessage)) && newMessage == ""
    {
      if SendAccepted(newMessage) {
        messages := AppendOwn(messages, newMessage);
        newMessage := "";
      }
    }
  }
}
