/** The sidebar: its search box, the user-search toggle, and what picking a user from the search
    does to the selected conversation. The row list, highlight, display name and initials are the
    ones the chat page shows too. */
module Sidebar {
  import opened Wrappers
  import opened Records
  import ConversationContext
  import OneToOne

  const PlaceholdAvatar := "https://placehold.co/40x40s"
  const CreateFailedText := "Failed to create conversation"

  /** A row's avatar image: its avatar URL, else the placehold image. */
  function RowAvatar(c: ConversationContext.Conversation): (r: string)
    ensures Truthy(c.avatarUrl) ==> r == c.avatarUrl.value
    ensures !Truthy(c.avatarUrl) ==> r == PlaceholdAvatar
  {
    OrElse(c.avatarUrl, PlaceholdAvatar)
  }

  /** The conversation the sidebar selects after get-or-create returned `row` for the picked
      user: named after the username, with the user's avatar or the placehold image. The object
      built there has no `avatar` and no `unreadCount`; the missing avatar is the empty string. */
  function PickedConversation(row: ConversationRow, user: Profile): (c: ConversationContext.Conversation)
    ensures c.id == row.id && c.createdAt == row.createdAt && c.isGroup == row.isGroup
    ensures c.name == user.username && c.avatarUrl == Some(OrElse(user.avatarUrl, PlaceholdAvatar))
    ensures c.lastMessage == "" && c.timestamp == row.createdAt && !c.isOnline && c.unreadCount.None?
  {
    ConversationContext.Conversation(row.id, row.createdAt, row.isGroup, user.username, "",
                                     Some(OrElse(user.avatarUrl, PlaceholdAvatar)), "", row.createdAt,
                                     false, None)
  }

  /** The picked conversation always shows an image: the user's own or the placehold one. */
  lemma PickedConversationHasAvatar(row: ConversationRow, user: Profile)
    ensures RowAvatar(PickedConversation(row, user)) != []
    ensures Truthy(user.avatarUrl) ==> RowAvatar(PickedConversation(row, user)) == user.avatarUrl.value
  {
  }

  class SidebarState {
    var searchQuery: string
    var showUserSearch: bool

    constructor ()
      ensures searchQuery == "" && !showUserSearch
    {
      searchQuery := "";
      showUserSearch := false;
    }

    method OpenUserSearch()
      modifies this
      ensures showUserSearch && searchQuery == old(searchQuery)
    {
      showUserSearch := true;
    }

    method CloseUserSearch()
      modifies this
      ensures !showUserSearch && searchQuery == old(searchQuery)
    {
      showUserSearch := false;
    }

    /** The search modal's `onUserSelect`. Without a session the session dereference throws: the
        failure is alerted and nothing else changes. Otherwise the store follows get-or-create
        for the session's user and the picked one; a returned conversation is selected (and the
        provider refetches) and the search closes, and when none is returned nothing else
        changes. */
    method OnUserSelect(conversations: ConversationContext.ConversationProvider, store: OneToOne.Store,
                        session: Option<User>, picked: Profile, backend: OneToOne.Backend,
                        refetches: seq<ConversationContext.FetchOutcome>, minutesSince: string -> int)
      returns (alert: Option<string>)
      modifies this, conversations, store
      ensures searchQuery == old(searchQuery)
      ensures session.None? ==>
                alert == Some(CreateFailedText) && unchanged(this) && unchanged(conversations) && unchanged(store)
      ensures session.Some? ==>
                var o := OneToOne.GetOrCreate(old(store.conversations), old(store.participants), session.value.id,
                                              picked.id, backend);
                && alert.None?
                && store.conversations == o.conversations && store.participants == o.participants
                && (o.result.Some? ==>
                      && !showUserSearch
                      && conversations.State() ==
                         ConversationContext.Settle(old(conversations.selected),
                                                    old(conversations.State()).(selected := Some(PickedConversation(o.result.value, picked))),
                                                    refetches, minutesSince))
                && (o.result.None? ==> showUserSearch == old(showUserSearch) && unchanged(conversations))
    {
      if session.None? {
        return Some(CreateFailedText);
      }
      ghost var o := OneToOne.GetOrCreate(store.conversations, store.participants, session.value.id, picked.id, backend);
      var conversation := OneToOne.GetOrCreateOneToOneConversation(store, session.value.id, picked.id, backend);
      assert conversation == o.result && store.conversations == o.conversations && store.participants == o.participants;
      if conversation.Some? {
        conversations.SelectConversation(PickedConversation(conversation.value, picked), refetches, minutesSince);
        showUserSearch := false;
      }
      alert := None;
    }
  }
}
