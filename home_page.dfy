/** The chat page: the message box and its send rules, and the "new conversation" button that
    looks a user up by the e-mail typed into a prompt and opens the one-to-one conversation with
    them. The prompt's answer and the `profiles` table are inputs. */
module HomePage {
  import opened Wrappers
  import opened Strings
  import opened Records
  import opened Seqs
  import ConversationContext
  import MessageContext
  import OneToOne

  /** The send button is disabled iff the trimmed message text is empty. */
  predicate SendDisabled(messageText: string) {
    Trim(messageText) == []
  }

  /** The button is disabled exactly for text made of white space only. */
  lemma SendDisabledIffBlank(messageText: string)
    ensures SendDisabled(messageText) <==> AllSpace(messageText)
  {
    TrimEmptyIffBlank(messageText);
  }

  /** Enter without Shift sends; Shift+Enter and every other key do not. */
  predicate KeyTriggersSend(key: string, shiftKey: bool) {
    key == "Enter" && !shiftKey
  }

  /** Only the Enter key can send, and Shift turns it into a line break. */
  lemma OnlyPlainEnterSends(key: string, shiftKey: bool)
    ensures KeyTriggersSend(key, shiftKey) ==> key == "Enter"
    ensures KeyTriggersSend("Enter", false) && !KeyTriggersSend("Enter", true)
  {
  }

  /** `.eq("username", email).single()`: the profile whose username is `name`, when exactly one
      profile has it; none and several are both answered with an error. */
  function SingleProfileByUsername(profiles: seq<Profile>, name: string): (r: Option<Profile>)
    ensures r.Some? <==> Count(profiles, (p: Profile) => p.username == name) == 1
    ensures r.Some? ==> r.value in profiles && r.value.username == name
  {
    var matches := Filter(profiles, (p: Profile) => p.username == name);
    if |matches| == 1 then Some(matches[0]) else None
  }

  const PlaceholderAvatar := "/placeholder.svg?height=40&width=40"
  const UserNotFoundText := "User not found"
  const CreateFailedText := "Failed to create or fetch conversation"

  /** The conversation the page selects after get-or-create returned `row`: named after the
      e-mail that was typed. */
  function OpenedConversation(row: ConversationRow, email: string): (c: ConversationContext.Conversation)
    ensures c.id == row.id && c.createdAt == row.createdAt && c.isGroup == row.isGroup
    ensures c.name == email && c.avatar == PlaceholderAvatar && c.lastMessage == ""
    ensures c.timestamp == row.createdAt && !c.isOnline && c.unreadCount == Some(0)
  {
    ConversationContext.Conversation(row.id, row.createdAt, row.isGroup, email, PlaceholderAvatar, None,
                                     "", row.createdAt, false, Some(0))
  }

  class ChatPage {
    var session: Option<User>
    var messageText: string
    var searchQuery: string

    constructor (user: Option<User>)
      ensures session == user && messageText == "" && searchQuery == ""
    {
      session := user;
      messageText := "";
      searchQuery := "";
    }

    /** `handleSendMessage`: with non-blank text and a selected conversation, the untrimmed text
        goes to the message provider (which trims it) and the box is cleared once the send has
        finished, whatever its outcome; otherwise nothing happens. */
    method HandleSendMessage(provider: MessageContext.MessageProvider,
                             selected: Option<ConversationContext.Conversation>,
                             reply: MessageContext.InsertReply)
      returns (sent: Option<MessageContext.NewMessage>)
      modifies this, provider
      ensures session == old(session) && searchQuery == old(searchQuery)
      ensures SendDisabled(old(messageText)) || selected.None? ==>
                sent.None? && unchanged(this) && unchanged(provider)
      ensures !SendDisabled(old(messageText)) && selected.Some? ==>
                && messageText == ""
                && MessageContext.SendResult(provider.messages, provider.error, sent) ==
                   MessageContext.Send(old(provider.messages), old(provider.error), old(provider.user),
                                       selected.value.id, old(messageText), reply)
      ensures provider.user == old(provider.user) && provider.loading == old(provider.loading)
      ensures provider.isConnected == old(provider.isConnected)
      ensures provider.currentConversationId == old(provider.currentConversationId)
    {
      if SendDisabled(messageText) || selected.None? {
        return None;
      }
      sent := provider.SendMessage(selected.value.id, messageText, reply);
      messageText := "";
    }

    /** `handleKeyPress`: only Enter without Shift sends, exactly as the send button does. */
    method HandleKeyPress(key: string, shiftKey: bool, provider: MessageContext.MessageProvider,
                          selected: Option<ConversationContext.Conversation>,
                          reply: MessageContext.InsertReply)
      returns (sent: Option<MessageContext.NewMessage>)
      modifies this, provider
      ensures !KeyTriggersSend(key, shiftKey) ==> sent.None? && unchanged(this) && unchanged(provider)
      ensures KeyTriggersSend(key, shiftKey) && (SendDisabled(old(messageText)) || selected.None?) ==>
                sent.None? && unchanged(this) && unchanged(provider)
      ensures KeyTriggersSend(key, shiftKey) && !SendDisabled(old(messageText)) && selected.Some? ==>
                && messageText == "" && session == old(session) && searchQuery == old(searchQuery)
                && MessageContext.SendResult(provider.messages, provider.error, sent) ==
                   MessageContext.Send(old(provider.messages), old(provider.error), old(provider.user),
                                       selected.value.id, old(messageText), reply)
    {
      if !KeyTriggersSend(key, shiftKey) {
        return None;
      }
      sent := HandleSendMessage(provider, selected, reply);
    }

    /** `handleCreateConversation`. Without a session, or when the prompt is cancelled or
        answered with blank text, nothing happens. When no single profile has the typed text as
        username, "User not found" is alerted and no conversation is looked up. Otherwise the
        store follows get-or-create for the session's user and that profile; a returned
        conversation is selected under the typed name (and the provider refetches), and when
        none is returned the failure is alerted. */
    method HandleCreateConversation(conversations: ConversationContext.ConversationProvider,
                                    store: OneToOne.Store, profiles: seq<Profile>,
                                    email: Option<string>, backend: OneToOne.Backend,
                                    refetches: seq<ConversationContext.FetchOutcome>,
                                    minutesSince: string -> int)
      returns (alert: Option<string>)
      modifies conversations, store
      ensures session.None? || email.None? || Trim(email.value) == [] ==>
                alert.None? && unchanged(store) && unchanged(conversations)
      ensures session.Some? && email.Some? && Trim(email.value) != []
              && SingleProfileByUsername(profiles, email.value).None? ==>
                alert == Some(UserNotFoundText) && unchanged(store) && unchanged(conversations)
      ensures session.Some? && email.Some? && Trim(email.value) != []
              && SingleProfileByUsername(profiles, email.value).Some? ==>
                OpenedOneToOne(old(store.conversations), old(store.participants), store.conversations,
                               store.participants, session.value.id,
                               SingleProfileByUsername(profiles, email.value).value.id, email.value, backend,
                               old(conversations.State()), conversations.State(), refetches, minutesSince, alert)
    {
      if session.None? || email.None? || Trim(email.value) == [] {
        return None;
      }
      var profile := SingleProfileByUsername(profiles, email.value);
      if profile.None? {
        return Some(UserNotFoundText);
      }
      alert := OpenOneToOne(conversations, store, session.value.id, profile.value.id, email.value, backend,
                            refetches, minutesSince);
    }
  }

  /** What the tail of `handleCreateConversation` leaves behind, given the tables and the
      conversation provider's state before and after: the tables follow get-or-create for `a`
      and `b`; a returned conversation is selected under `name` and the provider settles, with no
      alert; when none is returned the failure is alerted and the provider is as it was. */
  ghost predicate OpenedOneToOne(convs0: seq<ConversationRow>, parts0: seq<ParticipantRow>,
                                 convs: seq<ConversationRow>, parts: seq<ParticipantRow>,
                                 a: string, b: string, name: string, backend: OneToOne.Backend,
                                 s0: ConversationContext.ProviderState, s: ConversationContext.ProviderState,
                                 refetches: seq<ConversationContext.FetchOutcome>, minutesSince: string -> int,
                                 alert: Option<string>)
  {
    var o := OneToOne.GetOrCreate(convs0, parts0, a, b, backend);
    && convs == o.conversations && parts == o.participants
    && (o.result.Some? ==>
          alert.None? && s == ConversationContext.Settle(s0.selected, s0.(selected := Some(OpenedConversation(o.result.value, name))),
                                                         refetches, minutesSince))
    && (o.result.None? ==> alert == Some(CreateFailedText) && s == s0)
  }

  /** The tail of `handleCreateConversation` once the profile is known. */
  method OpenOneToOne(conversations: ConversationContext.ConversationProvider, store: OneToOne.Store,
                      a: string, b: string, name: string, backend: OneToOne.Backend,
                      refetches: seq<ConversationContext.FetchOutcome>, minutesSince: string -> int)
    returns (alert: Option<string>)
    modifies conversations, store
    ensures OpenedOneToOne(old(store.conversations), old(store.participants), store.conversations, store.participants,
                           a, b, name, backend, old(conversations.State()), conversations.State(),
                           refetches, minutesSince, alert)
  {
    var conversation := OneToOne.GetOrCreateOneToOneConversation(store, a, b, backend);
    if conversation.Some? {
      conversations.SelectConversation(OpenedConversation(conversation.value, name), refetches, minutesSince);
      alert := None;
    } else {
      alert := Some(CreateFailedText);
    }
  }
}
