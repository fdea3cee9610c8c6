/** The message provider: the messages of the current conversation, the loading, error and
    connection flags, and the id of the conversation whose realtime channel is open. Backend
    answers are inputs: the fetch result, the insert result, the profile lookup of a realtime
    insert, and the channel status. */
module MessageContext {
  import opened Wrappers
  import opened Strings
  import opened Records
  import RealtimeUtils

  /** A message as the client shows it. */
  datatype Message = Message(id: string, content: string, createdAt: string, sender: string, isOwn: bool)

  /** A stored message with the username of its sender's profile, absent when the embedded
      profile is missing. */
  datatype FetchedMessage = FetchedMessage(row: MessageRow, profileUsername: Option<string>)

  /** The fetch transform: own iff sent by the current user; the sender is the profile username,
      else "You" for own and "User" for other messages. */
  function TransformRow(m: FetchedMessage, userId: string): (r: Message)
    ensures r.id == m.row.id && r.content == m.row.content && r.createdAt == m.row.createdAt
    ensures r.isOwn <==> m.row.senderId == userId
    ensures Truthy(m.profileUsername) ==> r.sender == m.profileUsername.value
    ensures !Truthy(m.profileUsername) && r.isOwn ==> r.sender == "You"
    ensures !Truthy(m.profileUsername) && !r.isOwn ==> r.sender == "User"
  {
    Message(m.row.id, m.row.content, m.row.createdAt,
            OrElse(m.profileUsername, if m.row.senderId == userId then "You" else "User"),
            m.row.senderId == userId)
  }

  function TransformRows(rows: seq<FetchedMessage>, userId: string): (r: seq<Message>)
    ensures |r| == |rows|
    ensures forall i :: 0 <= i < |rows| ==> r[i] == TransformRow(rows[i], userId)
  {
    seq(|rows|, i requires 0 <= i < |rows| => TransformRow(rows[i], userId))
  }

  /** The row a send inserts. */
  datatype NewMessage = NewMessage(conversationId: string, senderId: string, content: string)

  /** What the store answers to an insert: the generated id and creation time and the sender's
      profile username, or an error. */
  datatype InsertReply = Inserted(id: string, createdAt: string, profileUsername: Option<string>)
                       | InsertFailed(error: StoreError)

  /** What the profile lookup of a realtime insert did: it threw, or returned the profile's
      username (absent when there is no profile). */
  datatype ProfileLookup = LookupThrew | LookupReturned(username: Option<string>)

  const FetchFailedText := "Failed to fetch messages"
  const SendFailedText := "Failed to send message"

  /** The messages and the error after a send, and the row it inserted. */
  datatype SendResult = SendResult(messages: seq<Message>, error: Option<string>, sent: Option<NewMessage>)

  /** `sendMessage`: nothing without a user or with blank content, and then nothing is
      inserted. Otherwise the trimmed content is inserted; on success one own message is
      appended with the sender defaulting to "You", on failure the messages stay and the error
      is set. */
  function Send(messages: seq<Message>, error: Option<string>, user: Option<User>, conversationId: string,
                content: string, reply: InsertReply): (r: SendResult)
    ensures r.sent.Some? <==> user.Some? && Trim(content) != []
    ensures r.sent.None? ==> r.messages == messages && r.error == error
    ensures r.sent.Some? ==> r.sent.value == NewMessage(conversationId, user.value.id, Trim(content))
    ensures r.sent.Some? && reply.Inserted? ==>
              && r.messages == messages + [Message(reply.id, Trim(content), reply.createdAt,
                                                   OrElse(reply.profileUsername, "You"), true)]
              && r.error.None?
    ensures r.sent.Some? && reply.InsertFailed? ==>
              r.messages == messages && r.error == Some(ErrorText(reply.error, SendFailedText))
  {
    if user.None? || Trim(content) == [] then SendResult(messages, error, None)
    else
      var sent := Some(NewMessage(conversationId, user.value.id, Trim(content)));
      match reply
      case Inserted(id, createdAt, profileUsername) =>
        SendResult(messages + [Message(id, Trim(content), createdAt, OrElse(profileUsername, "You"), true)], None, sent)
      case InsertFailed(e) =>
        SendResult(messages, Some(ErrorText(e, SendFailedText)), sent)
  }

  class MessageProvider {
    var user: Option<User>
    var messages: seq<Message>
    var loading: bool
    var error: Option<string>
    var isConnected: bool
    var currentConversationId: Option<string>

    constructor (session: Option<User>)
      ensures user == session && messages == [] && !loading && error.None?
      ensures !isConnected && currentConversationId.None?
    {
      user := session;
      messages := [];
      loading := false;
      error := None;
      isConnected := false;
      currentConversationId := None;
    }

    /** The topic of the realtime channel the provider keeps open: there is one exactly when a
        user is signed in and the current conversation id is non-empty. */
    function ActiveTopic(): (r: Option<string>)
      reads this
      ensures r.Some? <==> user.Some? && Truthy(currentConversationId)
      ensures r.Some? ==> r.value == RealtimeUtils.ChannelTopic(currentConversationId.value)
    {
      if user.Some? && Truthy(currentConversationId) then
        Some(RealtimeUtils.ChannelTopic(currentConversationId.value))
      else None
    }

    /** `fetchMessages`: nothing without a user. Otherwise the conversation becomes current before
        the query, so even a failed fetch moves it; a loaded list replaces the messages
        wholesale, a failure keeps them and sets the error. */
    method FetchMessages(conversationId: string, reply: Result<seq<FetchedMessage>, StoreError>)
      modifies this
      ensures user == old(user) && isConnected == old(isConnected)
      ensures old(user).None? ==>
                messages == old(messages) && loading == old(loading) && error == old(error)
                && currentConversationId == old(currentConversationId)
      ensures old(user).Some? ==> currentConversationId == Some(conversationId) && !loading
      ensures old(user).Some? && reply.Success? ==>
                messages == TransformRows(reply.value, old(user).value.id) && error.None?
      ensures old(user).Some? && reply.Failure? ==>
                messages == old(messages) && error == Some(ErrorText(reply.error, FetchFailedText))
    {
      if user.None? {
        return;
      }
      loading := true;
      error := None;
      currentConversationId := Some(conversationId);
      match reply {
        case Success(rows) =>
          messages := TransformRows(rows, user.value.id);
        case Failure(e) =>
          error := Some(ErrorText(e, FetchFailedText));
      }
      loading := false;
    }

    /** `sendMessage`: messages, error and the inserted row follow `Send`. */
    method SendMessage(conversationId: string, content: string, reply: InsertReply)
      returns (sent: Option<NewMessage>)
      modifies this
      ensures user == old(user) && loading == old(loading) && isConnected == old(isConnected)
      ensures currentConversationId == old(currentConversationId)
      ensures SendResult(messages, error, sent) == Send(old(messages), old(error), old(user), conversationId, content, reply)
    {
      if user.None? || Trim(content) == [] {
        return None;
      }
      error := None;
      sent := Some(NewMessage(conversationId, user.value.id, Trim(content)));
      match reply {
        case Inserted(id, createdAt, profileUsername) =>
          messages := messages + [Message(id, Trim(content), createdAt, OrElse(profileUsername, "You"), true)];
        case InsertFailed(e) =>
          error := Some(ErrorText(e, SendFailedText));
      }
    }

    /** The realtime INSERT handler. The channel exists only while `ActiveTopic()` does and
        delivers only rows of the current conversation; of those, the current user's own rows are
        ignored, and any other row is appended as a message of someone else whose sender is the
        profile username, else "Unknown User", or "User" when the lookup throws. */
    method OnRealtimeInsert(row: MessageRow, lookup: ProfileLookup)
      modifies this
      ensures user == old(user) && loading == old(loading) && error == old(error)
      ensures isConnected == old(isConnected) && currentConversationId == old(currentConversationId)
      ensures var delivered := old(ActiveTopic()).Some? && row.conversationId == old(currentConversationId).value;
              var appended := delivered && row.senderId != old(user).value.id;
              && (!appended ==> messages == old(messages))
              && (appended && lookup.LookupThrew? ==>
                    messages == old(messages) + [Message(row.id, row.content, row.createdAt, "User", false)])
              && (appended && lookup.LookupReturned? ==>
                    messages == old(messages) + [Message(row.id, row.content, row.createdAt,
                                                         OrElse(lookup.username, "Unknown User"), false)])
    {
      if ActiveTopic().None? || row.conversationId != currentConversationId.value {
        return;
      }
      if row.senderId == user.value.id {
        return;
      }
      match lookup {
        case LookupThrew =>
          messages := messages + [Message(row.id, row.content, row.createdAt, "User", false)];
        case LookupReturned(username) =>
          messages := messages + [Message(row.id, row.content, row.createdAt, OrElse(username, "Unknown User"), false)];
      }
    }

    /** The subscription status callback: connected iff SUBSCRIBED; CHANNEL_ERROR sets the
        channel error, SUBSCRIBED clears any error, every other status keeps it. */
    method OnStatus(status: string)
      modifies this
      ensures isConnected <==> status == "SUBSCRIBED"
      ensures status == "CHANNEL_ERROR" ==> error == Some(RealtimeUtils.ChannelErrorText)
      ensures status == "SUBSCRIBED" ==> error.None?
      ensures status != "CHANNEL_ERROR" && status != "SUBSCRIBED" ==> error == old(error)
      ensures user == old(user) && messages == old(messages) && loading == old(loading)
      ensures currentConversationId == old(currentConversationId)
    {
      isConnected := status == "SUBSCRIBED";
      if status == "CHANNEL_ERROR" {
        error := Some(RealtimeUtils.ChannelErrorText);
      } else if status == "SUBSCRIBED" {
        error := None;
      }
    }

    /** `clearMessages`: empties the list and forgets the current conversation, which closes its
        channel. */
    method ClearMessages()
      modifies this
      ensures messages == [] && currentConversationId.None? && ActiveTopic().None?
      ensures user == old(user) && loading == old(loading) && error == old(error)
      ensures isConnected == old(isConnected)
    {
      messages := [];
      currentConversationId := None;
    }
  }
}
