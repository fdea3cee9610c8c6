# limechat client core in Dafny

A Dafny model of the client-side logic of limechat, a chat application on a hosted Postgres
backend with realtime channels. Every backend request becomes an input of the model: an outcome
datatype such as the fetch result, the insert result or a failure flag, or the in-memory
`Store` that get-or-create works on. The clock is an input too, given as whole minutes elapsed or
milliseconds. What is modelled:

- **Conversation and message providers** (`ConversationContext`, `MessageContext`). These hold
  the local list state and the transitions of fetch, update, delete, select, send, the realtime
  insert handler, the channel-status handler and clear. They also cover the record transforms
  and the minute-bucket timestamp.
- **Realtime channel registry** (`RealtimeUtils`). A map from conversation id to a `Channel`
  object, with subscribe-replaces, unsubscribe-one and unsubscribe-all. It also covers the
  configuration defaults and `formatMessageTimestamp`.
- **One-to-one get-or-create** (`OneToOne`). This runs over the `conversations` and
  `conversation_participants` tables, with each of its three requests able to fail.
- **The single-room chat** (`LegacyChat`). It covers the optimistic send (add, then mark
  failed or remove) and the realtime append.
- **Pages and components**:
  - the chat page (`HomePage`, `ChatView`);
  - the sidebar (`Sidebar`);
  - the message list renderer (`MessagesList`);
  - the file preview (`FilePreview`);
  - the message box (`MessageInput`);
  - the user search modal (`UserSearchModal`) and the profile modal (`UserProfileModal`);
  - the connection dot (`RealtimeStatus`);
  - the username prompt (`UsernameEntry`);
  - the password-reset page (`RecoverAccount`);
  - the three prototype pages (`Prototype`, `Board`, `ChatBox`, `DashBoard`).

Shared modules:

- `Wrappers` holds `Option` and `Result`.
- `Strings` models the JavaScript behaviour of `trim`, ASCII `toLowerCase`/`toUpperCase`,
  `includes`, `split`/`join` and decimal rendering.
- `Seqs` holds an order-preserving `Filter` with its lemmas.
- `Records` holds the table rows, JavaScript truthiness, `a || b`, and the
  `err instanceof Error ? err.message : fallback` rule.

Stateful components are classes. Their fields are the component's state variables, and their
methods are the event handlers, with `modifies` clauses. A method's `ensures` states its new
state exactly, usually through a pure function that the lemmas then reason about. Handlers that
await a request are split at the request where the state in between can be observed: the
optimistic send, the password reset, and the debounced user search.

## Model

| member | source | states |
|---|---|---|
| RealtimeUtils.ResolveConfig | src/lib/realtimeUtils.ts:14-21 | a field given a number keeps it; a field written as `undefined` stays undefined; a left-out field takes its default (10 events/s, 30000 ms heartbeat, 1000 ms reconnect) |
| RealtimeUtils.ResolveConfigIdempotent | src/lib/realtimeUtils.ts:14-21 | spreading a resolved configuration over the defaults again changes nothing |
| RealtimeUtils.AsInput | src/lib/realtimeUtils.ts:14-21 | a resolved configuration written back as an object literal has every field present and resolves to itself |
| RealtimeUtils.NoUndefinedResolvesFully | src/lib/realtimeUtils.ts:14-21 | without a field written as `undefined`, every tunable ends up a number |
| RealtimeUtils.TopicAndFilterInjective | src/lib/realtimeUtils.ts:40-47 | distinct conversations get distinct channel topics `messages:<id>` and distinct row filters `conversation_id=eq.<id>` |
| RealtimeUtils.StatusNotices | src/lib/realtimeUtils.ts:70-76 | every status is reported first; an error notice "Failed to connect to realtime channel" follows iff the status is CHANNEL_ERROR |
| RealtimeUtils.Channel.constructor | src/lib/realtimeUtils.ts:39-77 | a new channel listens on its conversation's topic and filter and is subscribed |
| RealtimeUtils.Channel.Unsubscribe | src/lib/realtimeUtils.ts:86 | the channel is no longer subscribed |
| RealtimeUtils.RealtimeManager.constructor | src/lib/realtimeUtils.ts:11-21 | empty registry, resolved configuration, registry invariant holds |
| RealtimeUtils.RealtimeManager.GetChannel | src/lib/realtimeUtils.ts:98-100 | returns the registered channel iff the id is registered |
| RealtimeUtils.RealtimeManager.IsSubscribed | src/lib/realtimeUtils.ts:102-104 | an id counts as subscribed iff a channel is registered for it |
| RealtimeUtils.RealtimeManager.UnsubscribeFromMessages | src/lib/realtimeUtils.ts:83-89 | the id's channel, if any, is unsubscribed and its entry removed; other entries and channels are unchanged; invariant kept |
| RealtimeUtils.RealtimeManager.SubscribeToMessages | src/lib/realtimeUtils.ts:23-81 | an old channel of the id is unsubscribed; a fresh subscribed channel on the id's topic and filter replaces it; other entries unchanged; `isSubscribed` then holds |
| RealtimeUtils.RealtimeManager.UnsubscribeFromAll | src/lib/realtimeUtils.ts:91-96 | every registered channel ends unsubscribed and the registry is empty, so no id is subscribed |
| RealtimeUtils.NumberLabelInjective | src/lib/realtimeUtils.ts:119-120 | two numbers rendered with the same suffix give the same text only when they are equal |
| RealtimeUtils.FormatMessageTimestamp | src/lib/realtimeUtils.ts:111-122 | no relative text iff at least a day old; "Just now" iff under a minute; "{N}m ago" for N minutes below an hour and "{floor(N/60)}h ago" below a day |
| RealtimeUtils.MessageLabelDeterminesAge | src/lib/realtimeUtils.ts:111-122 | "Just now" iff under a minute; "{k}m ago" only at exactly k minutes; "{k}h ago" only within hour k; the locale date iff at least 1440 minutes |
| OneToOne.ParticipantIds | src/lib/utils.ts:40-42 | a user is in a conversation's participant list iff the participant table has the row |
| OneToOne.QualifiesShape | src/lib/utils.ts:39-48 | for two different users the test accepts exactly the lists [a, b] and [b, a]; for one user passed twice, any two-element list naming that user |
| OneToOne.FirstQualifying | src/lib/utils.ts:39-48 | the first candidate holding both users and exactly two participants; none iff no candidate qualifies |
| OneToOne.FetchAsWritten | src/lib/utils.ts:21-31 | the query as written returns only non-group conversations, each with only the two users' participant rows |
| OneToOne.FetchIntended | src/lib/utils.ts:21-31 | the corrected query returns every non-group conversation with its complete participant list |
| OneToOne.IntendedFindsTwoParty | src/lib/utils.ts:39-53 | a conversation found by the corrected query is a stored non-group conversation with exactly two participant rows, among them a row for each of the two users (so, for two different users, exactly those two) |
| OneToOne.AsWrittenAcceptsThirdParty | src/lib/utils.ts:31-48 | with participants A, B and C, the query as written finds the conversation for A and B; the corrected one finds none |
| OneToOne.FetchIntendedAppend | src/lib/utils.ts:21-31 | appending a conversation row appends at most its own candidate |
| OneToOne.FetchIntendedIgnoresOtherRows | src/lib/utils.ts:21-31 | participant rows of an unused id change no candidate |
| OneToOne.ParticipantIdsIgnoresOtherRows | src/lib/utils.ts:40-42 | participant rows of another conversation do not change a participant list |
| OneToOne.ParticipantIdsAppend | src/lib/utils.ts:40-42 | appended participant rows extend the list in order |
| OneToOne.FirstQualifyingAppend | src/lib/utils.ts:39-48 | a qualifying candidate appended after non-qualifying ones is the one found |
| OneToOne.NoRowsNoIds | src/lib/utils.ts:40-42 | an id without participant rows has an empty participant list |
| OneToOne.CreatedConversationIsFoundNext | src/lib/utils.ts:50-80 | once a conversation has been created for two users, the next call finds it and creates nothing |
| OneToOne.Store.constructor | src/lib/utils.ts:21-31 | the store holds the given tables |
| OneToOne.GetOrCreateOneToOneConversation | src/lib/utils.ts:15-81 | the store's tables and the result follow `GetOrCreate` |
| OneToOne.GetOrCreate | src/lib/utils.ts:15-81 | lookup failure: nothing written or returned. Found: that row returned, nothing written. Create failure: nothing. Participant insert failure: the conversation row stays, nothing returned. Else: the row plus one participant row for each user, the row returned |
| OneToOne.GetOrCreateReturnsStoredRow | src/lib/utils.ts:15-81 | a returned conversation is a non-group row of the resulting conversations table |
| OneToOne.GetOrCreateTwice | src/lib/utils.ts:15-81 | after a call that created the conversation, a second call with a working lookup finds it and leaves the tables as they are |
| ConversationContext.Merge | src/contexts/ConversationContext.tsx:237 | every field present in the update wins, `created_at` included; every other field is kept |
| ConversationContext.MergeIdempotent | src/contexts/ConversationContext.tsx:237 | applying an update twice equals applying it once |
| ConversationContext.UpdateById | src/contexts/ConversationContext.tsx:236-258 | entries with the id are merged, all others unchanged, length kept |
| ConversationContext.RemoveById | src/contexts/ConversationContext.tsx:288 | exactly the entries without the id remain, in order |
| ConversationContext.RemoveAbsentId | src/contexts/ConversationContext.tsx:288 | deleting an absent id leaves the list unchanged |
| ConversationContext.RemoveAfterUpdate | src/contexts/ConversationContext.tsx:256-288 | deleting after an id-preserving update equals deleting alone |
| ConversationContext.MergeSelected | src/contexts/ConversationContext.tsx:240-265 | the selection is merged iff it has the updated id |
| ConversationContext.FormatTimestamp | src/contexts/ConversationContext.tsx:308-319 | "Just now" iff under a minute; otherwise "{N}m" for N minutes below an hour, "{floor(N/60)}h" below a day and "{floor(N/1440)}d" from one day on |
| ConversationContext.TimestampAgreesWithMessageTimestamp | src/contexts/ConversationContext.tsx:308-319 | below one day, the message-list text is the conversation-list text followed by " ago" |
| ConversationContext.TimestampDeterminesAge | src/contexts/ConversationContext.tsx:308-319 | "Just now" iff under a minute; "{k}m", "{k}h" and "{k}d" only within minute, hour or day k of their range |
| ConversationContext.Transform | src/contexts/ConversationContext.tsx:109-159 | group name or other user's username (else "Unknown User"); avatar letter (else "?"); last message (else "No messages yet"); time of last message (else creation); offline; unread 0 |
| ConversationContext.TransformAll | src/contexts/ConversationContext.tsx:148-159 | one transformed entry per row, in order |
| ConversationContext.ConversationProvider.constructor | src/contexts/ConversationContext.tsx:40-47 | empty list, no selection, not loading, no error |
| ConversationContext.ConversationProvider.FetchConversations | src/contexts/ConversationContext.tsx:48-173 | the state follows `Fetch`, then `Settle` for the re-runs the changed callback causes |
| ConversationContext.ConversationProvider.SelectConversation | src/contexts/ConversationContext.tsx:216-218 | the selection is set and the session effect re-runs through `Settle`: with a user (or an unchanged selection) the chosen conversation stays selected; without a user a changed selection clears the list and the selection |
| ConversationContext.ConversationProvider.UpdateConversation | src/contexts/ConversationContext.tsx:220-273 | the store is called iff `is_group` is present; the state follows `Update`, then `Settle`, so a merged selection triggers a refetch |
| ConversationContext.ConversationProvider.DeleteConversation | src/contexts/ConversationContext.tsx:275-301 | the state follows `Delete`, then `Settle`, so clearing the selection triggers a refetch |
| ConversationContext.ConversationProvider.SessionChanged | src/contexts/ConversationContext.tsx:321-329 | the user becomes the session's; the state follows `SessionEffect` (signed out: list emptied and selection cleared; signed in: `Fetch`), then `Settle` |
| ConversationContext.Fetch | src/contexts/ConversationContext.tsx:48-173 | no user: unchanged. Else loading off. Query failure: list and selection kept, the error text set. No participant rows: list emptied, selection kept. Loaded: the list is the transformed rows, error cleared, the first entry selected iff nothing was selected and the list is non-empty |
| ConversationContext.SessionEffect | src/contexts/ConversationContext.tsx:321-329 | no user: list emptied and selection cleared, loading and error kept; a user: one fetch |
| ConversationContext.Settle | src/contexts/ConversationContext.tsx:173-329 | an unchanged selection ends the chain with the state as is; a changed one re-runs the session effect: without a user the list and the selection are cleared; with one and no answer left the fetch is in flight (loading, no error); the user never changes |
| ConversationContext.SettleUsesAtMostTwoFetches | src/contexts/ConversationContext.tsx:161-173 | after a change of selection at most two fetches run |
| ConversationContext.SettleKeepsSomeSelection | src/contexts/ConversationContext.tsx:161-173 | a selection that is set stays set through the re-runs while a user is signed in |
| ConversationContext.Update | src/contexts/ConversationContext.tsx:220-273 | the user is kept and loading is off. No store request or a successful one: entries with the id and the selection of that id are merged, error cleared. A failed store request: list and selection kept, the error text set |
| ConversationContext.Delete | src/contexts/ConversationContext.tsx:275-301 | the user is kept and loading is off. Success: the id's entries go, the others stay in order, the selection is cleared iff it had the id. Failure: list and selection kept, the error text set |
| ConversationContext.RefetchReplacesLocalUpdate | src/contexts/ConversationContext.tsx:220-329 | a local-only update of the selected conversation that changes it triggers a refetch, whose rows replace the locally merged list; the merged selection stays |
| ConversationContext.DeleteSelectedRefetchesTwice | src/contexts/ConversationContext.tsx:275-329 | deleting the selected conversation clears the selection, so the list is refetched; the first loaded entry is selected, which refetches once more, and the second answer gives the list |
| MessageContext.TransformRow | src/contexts/MessageContext.tsx:77-85 | own iff sent by the user; sender is the profile username, else "You" (own) or "User" |
| MessageContext.TransformRows | src/contexts/MessageContext.tsx:69-86 | one message per row, in the fetched order |
| MessageContext.MessageProvider.constructor | src/contexts/MessageContext.tsx:33-44 | no messages, not loading, no error, disconnected, no current conversation |
| MessageContext.MessageProvider.ActiveTopic | src/contexts/MessageContext.tsx:167-173 | a channel `messages:<id>` exists iff a user is signed in and the current id is non-empty |
| MessageContext.MessageProvider.FetchMessages | src/contexts/MessageContext.tsx:46-98 | no user: unchanged. Otherwise the conversation becomes current; success replaces the messages, failure keeps them and sets the error; loading off |
| MessageContext.MessageProvider.SendMessage | src/contexts/MessageContext.tsx:100-139 | the messages, the error and the request follow `Send`; user, loading, connection and current conversation unchanged |
| MessageContext.Send | src/contexts/MessageContext.tsx:100-139 | a request is sent iff a user is signed in and the content is not blank, and then carries the trimmed content. Nothing sent: messages and error kept. Inserted: one own message appended (sender defaults to "You"), error cleared. Failed: messages kept, the error text set |
| MessageContext.MessageProvider.OnRealtimeInsert | src/contexts/MessageContext.tsx:168-218 | only rows of the current conversation from other users are appended; sender is the profile username, else "Unknown User", or "User" if the lookup throws |
| MessageContext.MessageProvider.OnStatus | src/contexts/MessageContext.tsx:229-238 | connected iff SUBSCRIBED; CHANNEL_ERROR sets the channel error, SUBSCRIBED clears it, other statuses keep it |
| MessageContext.MessageProvider.ClearMessages | src/contexts/MessageContext.tsx:158-161 | messages emptied, no current conversation, so no channel |
| LegacyChat.TempId | src/components/Chat.js:85 | the temporary id starts with "temp-" |
| LegacyChat.TempIdInjective | src/components/Chat.js:85 | different milliseconds give different temporary ids |
| LegacyChat.MarkFailed | src/components/Chat.js:112-130 | exactly the messages with the id are marked failed; others unchanged |
| LegacyChat.RemoveTemp | src/components/Chat.js:120 | exactly the messages without the id remain, in order, as many as there are |
| LegacyChat.RemoveAfterOptimistic | src/components/Chat.js:99-120 | a successful send leaves the list as if the optimistic copy had never been added, keeping what arrived around it |
| LegacyChat.MarkAfterOptimistic | src/components/Chat.js:99-116 | a failed send marks its own optimistic copy and nothing else |
| LegacyChat.LabelSuffix | src/components/Chat.js:202-203 | " (sending...)" iff optimistic and not failed; " (failed to send)" iff failed; nothing otherwise |
| LegacyChat.MarkFailedKeepsLayout | src/components/Chat.js:112-162 | marking a send failed moves no message to the other side of the layout |
| LegacyChat.Chat.constructor | src/components/Chat.js:59-79 | the stored messages, an empty input |
| LegacyChat.Chat.OnInput | src/components/Chat.js:81-84 | the input text is set |
| LegacyChat.Chat.BeginSend | src/components/Chat.js:81-100 | blank input: nothing. Otherwise an optimistic message with the trimmed text and a temporary id is appended, the input cleared, the insert pending |
| LegacyChat.Chat.FinishSend | src/components/Chat.js:103-131 | success removes the optimistic message; an error or exception marks it failed |
| LegacyChat.Chat.OnRealtimeEvent | src/components/Chat.js:36-43 | INSERT appends the row; other event types change nothing |
| ChatView.FilterByName | src/app/page.tsx:79-81 | keeps, in order, exactly the conversations whose lower-cased name contains the lower-cased query, as many as match |
| ChatView.EmptyQueryKeepsAll | src/app/page.tsx:79-81 | an empty query keeps every conversation |
| ChatView.QueryCaseInsensitive | src/app/page.tsx:79-81 | the letter case of the query does not matter |
| ChatView.ConversationList | src/app/page.tsx:216-229 | the placeholder iff no conversation passes the filter, else the filtered rows |
| ChatView.DisplayName | src/app/page.tsx:181-183 | the full name when truthy, else the e-mail's non-empty local part, else (no user, no e-mail or an empty local part) "User" |
| ChatView.DisplayNameFromEmail | src/components/chat/Sidebar.tsx:60-62 | the e-mail fallback is a prefix without "@" that ends at the first "@" |
| ChatView.FirstCharsAreWordStarts | src/app/page.tsx:238-241 | the first characters of the space-separated parts are exactly the characters that begin a word, in order |
| ChatView.Initials | src/app/page.tsx:238-241 | the avatar initials are the characters that begin a word |
| ChatView.HighlightSurvivesRefetch | src/app/page.tsx:225-227 | the highlight compares ids, so re-runs that keep the selection keep the highlighted rows |
| ChatView.HighlightSurvivesUpdate | src/app/page.tsx:225-227 | a local update that leaves the id alone keeps the highlighted rows |
| HomePage.SendDisabledIffBlank | src/app/page.tsx:413 | the send button is disabled iff the text is all white space |
| HomePage.OnlyPlainEnterSends | src/app/page.tsx:91 | only Enter can send, and Enter with Shift does not |
| HomePage.SingleProfileByUsername | src/app/page.tsx:105-114 | a profile is found iff exactly one profile has the typed username |
| HomePage.OpenedConversation | src/app/page.tsx:122-132 | the selected entry is named after the typed text, has the placeholder avatar, empty last message, offline, unread 0 |
| HomePage.ChatPage.constructor | src/app/page.tsx:22-23 | empty message text and search query |
| HomePage.ChatPage.HandleSendMessage | src/app/page.tsx:83-88 | blank text or no selection: nothing changes. Otherwise the provider's messages, error and request are exactly `Send` of the untrimmed text for the selected id, and the box is cleared; the provider's other fields unchanged |
| HomePage.ChatPage.HandleKeyPress | src/app/page.tsx:90-95 | any key but Enter without Shift: nothing changes. Enter without Shift: exactly `HandleSendMessage`: nothing for blank text or no selection, else the provider follows `Send` and the box is cleared |
| HomePage.ChatPage.HandleCreateConversation | src/app/page.tsx:97-136 | no session, cancelled or blank answer: nothing changes. No single profile: "User not found", nothing changes. Else the store follows `GetOrCreate` for the session user and the profile; a returned row is selected under the typed name and the provider follows `Settle`; no row: "Failed to create or fetch conversation", provider unchanged |
| HomePage.OpenOneToOne | src/app/page.tsx:116-135 | the tables follow `GetOrCreate`; a returned row is selected under the typed name and the provider follows `Settle`, with no alert; no row: "Failed to create or fetch conversation" and the provider unchanged |
| Sidebar.RowAvatar | src/components/chat/Sidebar.tsx:150-153 | the entry's avatar URL, else the placehold image |
| Sidebar.PickedConversation | src/components/chat/Sidebar.tsx:97-106 | the selected entry is named after the picked username, with the user's avatar URL or the placehold image |
| Sidebar.PickedConversationHasAvatar | src/components/chat/Sidebar.tsx:102-153 | a picked conversation always shows an image, the user's own when there is one |
| Sidebar.SidebarState.constructor | src/components/chat/Sidebar.tsx:18-19 | empty query, search closed |
| Sidebar.SidebarState.OpenUserSearch | src/components/chat/Sidebar.tsx:80 | the user search opens |
| Sidebar.SidebarState.CloseUserSearch | src/components/chat/Sidebar.tsx:89 | the user search closes |
| Sidebar.SidebarState.OnUserSelect | src/components/chat/Sidebar.tsx:90-113 | no session: "Failed to create conversation", nothing changes. Else no alert and the store follows `GetOrCreate` for the session user and the picked user; a returned row is selected as the picked conversation, the provider follows `Settle` and the search closes; no row: provider and search unchanged |
| MessagesList.SchemeLen | src/components/chat/MessagesList.tsx:82 | the `https?://` match at an offset is 8, 7 or 0 characters and fits the text |
| MessagesList.ExtAheadIff | src/components/chat/MessagesList.tsx:82-100 | the forward scan finds a dot and extension iff one is reachable without crossing a line terminator |
| MessagesList.SearchIff | src/components/chat/MessagesList.tsx:82-100 | the scanner succeeds from an offset iff a match starts at or after it |
| MessagesList.ScanMatchesIff | src/components/chat/MessagesList.tsx:81-101 | the executable scanner computes the declarative pattern |
| MessagesList.PatternCaseInsensitive | src/components/chat/MessagesList.tsx:82-100 | the `i` flag: lower-casing the content does not change whether it matches |
| MessagesList.Classify | src/components/chat/MessagesList.tsx:81-122 | a gif/mp4 URL is media (trimmed src); else a document URL is a link (trimmed href, text after the last "/"); else a text bubble |
| MessagesList.DocumentLabelIsFileName | src/components/chat/MessagesList.tsx:110 | the link text is the content's suffix after its last "/" |
| MessagesList.UpperCaseGifIsMedia | src/components/chat/MessagesList.tsx:82 | an upper-case GIF URL is media |
| MessagesList.RenderMessage | src/components/chat/MessagesList.tsx:50-122 | aligned right iff own; avatar (URL or placeholder, initials fallback) iff not own; content classified |
| MessagesList.Render | src/components/chat/MessagesList.tsx:34-50 | loading banner iff loading; error shown iff truthy; empty state iff no error, no messages and not loading; else one bubble per message |
| FilePreview.GlyphInjective | src/components/chat/FilePreview.tsx:15-30 | the eight icons are distinct |
| FilePreview.Extension | src/components/chat/FilePreview.tsx:13 | the lower-cased text after the last "."; the whole lower-cased name when there is no "." |
| FilePreview.IconForExtension | src/components/chat/FilePreview.tsx:15-30 | each icon is chosen iff the extension is in its list; the attachment icon iff in none |
| FilePreview.GetFileIcon | src/components/chat/FilePreview.tsx:12-31 | each glyph iff the extension is in its list; 📎 iff in none |
| FilePreview.FileIconCaseInsensitive | src/components/chat/FilePreview.tsx:13 | the icon ignores the file name's letter case |
| FilePreview.NoDotUsesWholeName | src/components/chat/FilePreview.tsx:13 | a name without a dot is its own extension |
| FilePreview.Preview | src/components/chat/FilePreview.tsx:10-37 | nothing iff no file; else the name's icon and the name |
| MessageInput.ToggleGif | src/components/chat/MessageInput.tsx:114-117 | the GIF picker flips and the emoji picker closes |
| MessageInput.ToggleEmoji | src/components/chat/MessageInput.tsx:148 | the emoji picker flips and the GIF picker is unchanged |
| MessageInput.ToggleEmojiTwice | src/components/chat/MessageInput.tsx:148 | pressing the emoji button twice restores the pickers |
| MessageInput.ToggleGifTwice | src/components/chat/MessageInput.tsx:114-117 | pressing the GIF button twice restores the GIF picker and leaves the emoji picker closed |
| MessageInput.BothPickersCanBeOpen | src/components/chat/MessageInput.tsx:114-148 | opening the emoji picker over an open GIF picker leaves both open |
| MessageInput.SendEnabledIff | src/components/chat/MessageInput.tsx:165 | sending is possible iff a file is selected or the text is not all white space |
| MessageInput.MessageInputState.constructor | src/components/chat/MessageInput.tsx:36-37 | both pickers closed |
| MessageInput.MessageInputState.OnChange | src/components/chat/MessageInput.tsx:137 | the text is replaced |
| MessageInput.MessageInputState.PressGifButton | src/components/chat/MessageInput.tsx:114-117 | the pickers follow the GIF toggle; text and file unchanged |
| MessageInput.MessageInputState.PressEmojiButton | src/components/chat/MessageInput.tsx:148 | the pickers follow the emoji toggle; text and file unchanged |
| MessageInput.MessageInputState.SelectGif | src/components/chat/MessageInput.tsx:79-81 | the GIF URL is appended to the text |
| MessageInput.MessageInputState.SelectEmoji | src/components/chat/MessageInput.tsx:83-85 | the emoji's native text is appended |
| MessageInput.MessageInputState.RemoveFile | src/components/chat/MessageInput.tsx:91-150 | the file is cleared, which enables the controls again |
| UserSearchModal.SearchRows | src/components/UserSearchModal.tsx:70-74 | the results are the profiles whose username contains the query (case-insensitively), never the searcher's own, in table order |
| UserSearchModal.EffectAsWritten | src/components/UserSearchModal.tsx:49-62 | the effect as written is the corrected one, except that where no search is scheduled it leaves `loading` as it was |
| UserSearchModal.Effect | src/components/UserSearchModal.tsx:49-62 | corrected effect. Closed: query, results and error reset. Blank query: results and error cleared, no search. Otherwise exactly one search scheduled. Never loading without a pending search |
| UserSearchModal.Fire | src/components/UserSearchModal.tsx:63-85 | no session: "Authentication required". Error: "Error searching users" and no results. Rows: the results. No rows: "No users found". Loading off |
| UserSearchModal.AsWrittenSearchingStuck | src/components/UserSearchModal.tsx:50-86 | as written, clearing the query while a search is pending leaves "Searching..." on with no timer left to end it |
| UserSearchModal.EffectOnlyFixesLoading | src/components/UserSearchModal.tsx:49-62 | the corrected effect differs from the written one only in `loading` |
| UserSearchModal.SpinnerEnds | src/components/UserSearchModal.tsx:63-106 | from any reachable state, the next timer ends the spinner |
| UserSearchModal.AvatarLetter | src/components/UserSearchModal.tsx:116 | the username's first character upper-cased, or "U" |
| UserSearchModal.View | src/components/UserSearchModal.tsx:89-123 | closed renders nothing; "Searching..." iff loading; the error iff non-empty and not loading; one row per result |
| UserSearchModal.SearchModal.constructor | src/components/UserSearchModal.tsx:44-49 | initial state followed by the first effect run |
| UserSearchModal.SearchModal.RunEffect | src/components/UserSearchModal.tsx:49-87 | the state follows the corrected effect and stays settled |
| UserSearchModal.SearchModal.SetOpen | src/components/UserSearchModal.tsx:37-87 | the open flag changes and the effect re-runs |
| UserSearchModal.SearchModal.ChangeQuery | src/components/UserSearchModal.tsx:87-102 | the query changes and the effect re-runs |
| UserSearchModal.SearchModal.TimerFires | src/components/UserSearchModal.tsx:63-85 | the state follows `Fire` and loading is off |
| UserProfileModal.InitialForm | src/components/UserProfileModal.tsx:28-33 | username defaults to ""; a missing or empty avatar URL becomes null |
| UserProfileModal.InitialFormRoundTrip | src/components/UserProfileModal.tsx:28-33 | a form whose avatar URL is null or non-empty initialises back to itself |
| UserProfileModal.WithField | src/components/UserProfileModal.tsx:35-40 | only the named field changes |
| UserProfileModal.Render | src/components/UserProfileModal.tsx:72-173 | closed renders nothing; the preview and Remove show iff the avatar URL is truthy; the avatar input shows "" for null |
| UserProfileModal.ClearedAvatarFieldHidesRemove | src/components/UserProfileModal.tsx:39-129 | clearing the avatar field stores "" (not null) and hides Remove |
| UserProfileModal.AfterRender | src/components/UserProfileModal.tsx:18-33 | with the prop given, a render keeps the form; with it omitted, the render's fresh default `{}` re-runs the effect and the form is blank again |
| UserProfileModal.OmittedPropShowsBlankForm | src/components/UserProfileModal.tsx:18-33 | without the prop, an open modal shows two empty inputs, no preview and no Remove after any typing or upload |
| UserProfileModal.ProfileModal.constructor | src/components/UserProfileModal.tsx:18-33 | the form starts from the prop, or blank when it is omitted |
| UserProfileModal.ProfileModal.SetInitialData | src/components/UserProfileModal.tsx:28-33 | a new `initialData` object replaces the prop and resets the form from it |
| UserProfileModal.ProfileModal.InputChange | src/components/UserProfileModal.tsx:35-40 | the form follows `WithField`, then `AfterRender`: kept with the prop, blank again without it |
| UserProfileModal.ProfileModal.UploadImage | src/components/UserProfileModal.tsx:42-52 | no file: nothing; otherwise the image's data URL becomes the avatar URL, then `AfterRender` |
| UserProfileModal.ProfileModal.RemoveAvatar | src/components/UserProfileModal.tsx:69-70 | avatar URL null, username kept, then `AfterRender`; Remove hidden |
| UserProfileModal.ProfileModal.Cancel | src/components/UserProfileModal.tsx:60-67 | the form is the initial values of the prop (blank without it), whatever was edited, and the modal closes |
| UserProfileModal.ProfileModal.Submit | src/components/UserProfileModal.tsx:54-58 | closes; the edited values stay with the prop given and are reset without it |
| RealtimeStatus.StatusIndicator | src/components/RealtimeStatus.tsx:9-27 | red "Connection Error" iff the error is truthy; else green "Online" iff connected, gray "Offline" iff not; the extra class always appended |
| RealtimeStatus.ErrorIgnoresConnection | src/components/RealtimeStatus.tsx:10-18 | with an error the connection flag does not matter |
| RealtimeStatus.EmptyErrorIsNoError | src/components/RealtimeStatus.tsx:10 | an empty error shows the same as none |
| UsernameEntry.SubmittedName | src/components/UsernameEntry.js:10-44 | a name is handed over iff the input is not all white space, iff Join is enabled; it is the trimmed input |
| UsernameEntry.SubmittedNameIsTrimmed | src/components/UsernameEntry.js:12 | the name handed over has no white space at either end and occurs in the input |
| UsernameEntry.EntryForm.constructor | src/components/UsernameEntry.js:8 | empty input |
| UsernameEntry.EntryForm.OnChange | src/components/UsernameEntry.js:35 | the input text is set |
| UsernameEntry.EntryForm.HandleSubmit | src/components/UsernameEntry.js:10-43 | Enter and click hand over `SubmittedName` of the input |
| RecoverAccount.ValidateReset | src/pages/RecoverAccount.jsx:33-43 | a mismatch is reported first, then fewer than 8 characters; valid iff equal and at least 8 long |
| RecoverAccount.ValidationBoundary | src/pages/RecoverAccount.jsx:33-43 | a short mismatch is a mismatch; 8 characters pass, 7 do not |
| RecoverAccount.MountError | src/pages/RecoverAccount.jsx:18-24 | the invalid-link error iff the form is hidden (a missing or empty token, as at :87); no error iff the form is shown |
| RecoverAccount.RecoverPage.constructor | src/pages/RecoverAccount.jsx:6-24 | a missing or empty token sets "Invalid or expired recovery link"; the form is shown iff no error was set |
| RecoverAccount.RecoverPage.SetPassword | src/pages/RecoverAccount.jsx:97 | the password is set |
| RecoverAccount.RecoverPage.SetConfirmPassword | src/pages/RecoverAccount.jsx:6-7 | the confirmation is set |
| RecoverAccount.RecoverPage.BeginReset | src/pages/RecoverAccount.jsx:26-52 | both messages cleared; a validation failure becomes the error with no request; otherwise loading and a request with the password and token |
| RecoverAccount.RecoverPage.FinishReset | src/pages/RecoverAccount.jsx:54-65 | success message, or the error's message or the fallback; loading off |
| Prototype.AppendOwn | src/pages/Board.jsx:23-26 | one "You" message with id length+1 and the untrimmed text at the end; earlier ones unchanged; ids stay 1..n |
| Prototype.AppendGroup | src/pages/DashBoard.jsx:19-24 | one group with id length+1 and unread 0 at the end; ids stay 1..n |
| Prototype.FindGroup | src/pages/Board.jsx:71 | the first group with the selected id; none for a null selection or an unknown id |
| Prototype.HeaderTitle | src/pages/Board.jsx:71 | the found group's name, else "Chat" |
| Prototype.HeaderOfSequentialGroups | src/pages/DashBoard.jsx:9-20 | with ids 1..n, id k finds the k-th group and any other id shows "Chat" |
| Prototype.OwnStyleAfterAppend | src/pages/Board.jsx:80-84 | own styling iff the sender is "You" (the same test as ChatBox.jsx:36): neither mock message has it, a sent message always does, and sending restyles no earlier message |
| Prototype.BadgesAfterCreate | src/pages/Board.jsx:5-57 | of the mock groups, the first and third show a badge; a created group never does, and creating one keeps the other badges |
| Board.BoardPage.constructor | src/pages/Board.jsx:5-18 | mock groups and messages, empty input, group 1 selected |
| Board.BoardPage.OnInput | src/pages/Board.jsx:100 | the input text is set |
| Board.BoardPage.HandleSendMessage | src/pages/Board.jsx:21-29 | blank input: nothing; otherwise `AppendOwn` and the input is cleared; ids stay 1..n |
| Board.BoardPage.HandleKeyPress | src/pages/Board.jsx:103 | Enter with a non-blank input appends the own message and clears the input; any other key, or a blank input, changes nothing |
| Board.BoardPage.HandleSelectGroup | src/pages/Board.jsx:32-35 | only the selection changes |
| Board.InitialHeaders | src/pages/Board.jsx:5-71 | the initial header is "Team Alpha"; id 3 shows "General Chat"; id 4 shows "Chat" |
| ChatBox.ChatBoxPanel.constructor | src/pages/ChatBox.jsx:4-9 | the local mock messages, empty input |
| ChatBox.ChatBoxPanel.OnInput | src/pages/ChatBox.jsx:55 | the input text is set |
| ChatBox.ChatBoxPanel.HandleSendMessage | src/pages/ChatBox.jsx:11-19 | blank input: nothing; otherwise `AppendOwn` and the input is cleared, regardless of the selected group |
| DashBoard.CreateGroup | src/pages/DashBoard.jsx:16-26 | a cancelled or empty answer adds nothing; any other answer is appended untrimmed; ids stay 1..n |
| DashBoard.BlankNameAccepted | src/pages/DashBoard.jsx:18 | a name of one space is accepted |
| DashBoard.Dashboard.constructor | src/pages/DashBoard.jsx:8-13 | no selection, the three mock groups |
| DashBoard.Dashboard.HandleCreateGroup | src/pages/DashBoard.jsx:16-26 | the groups follow `CreateGroup`; the selection is kept |
| DashBoard.Dashboard.SelectGroup | src/pages/DashBoard.jsx:45 | the selection becomes the id |
| DashBoard.CreatedGroupIsSelectable | src/pages/DashBoard.jsx:8-24 | with no selection the header is "Chat"; a new group is found by the id it was given |

## Left out

- Network, SDK and realtime transport. Every request is an input, and so is its answer: outcome datatypes, failure flags, a `Store`. Presence events are only logged and are not modelled.
- The clock and locale. Elapsed time enters as whole minutes or milliseconds. From one day on, `formatMessageTimestamp` shows a locale date string, modelled as `None`. `isMessageFromToday` and `isMessageFromYesterday` compare locale date strings and are not modelled. Invalid dates (NaN) are not modelled.
- Unicode. Case mapping is ASCII only. Lengths count code points, not UTF-16 code units. This matters for the 8-character password rule and for `username[0]`.
- The file size line `(size / 1024).toFixed(1)` uses floating point and is not modelled.
- Debounce timing. The delay, and a search reply that arrives after the timer has fired but after the query changed, are not modelled. The timer and its request are one step.
- Effect scheduling.
  - The search modal's effect is re-run by each handler that changes one of its dependencies.
  - The conversation provider's session effect depends on `fetchConversations`, which is rebuilt whenever the selection changes. `Settle` runs that chain after every handler that sets the selection, with the answers of the refetches as inputs.
  - Object identity is approximated by value equality. A selection replaced by an equal copy (an update that changes nothing, a reselected copy) starts no refetch in the model, while React would refetch.
  - The render of the profile modal without an `initialData` prop never settles: each reset builds a new default object, which re-runs the reset. The model gives the state that loop keeps, the blank form.
  - A second run of the search effect after `setQuery("")` on close is left out, because it produces the same state.
  - The message channel is modelled by `ActiveTopic`, not by a `RealtimeManager` instance.
- DOM and browser. Not modelled: the outside-click listener that closes the pickers, scrolling, `FileReader` (its result is an input), `prompt`/`alert` (inputs and outputs), routing, redirects after a password reset or a missing token, and logout.
- The SVG avatar and its URI encoding are abstracted as `AvatarImage(letter)`.
- A null conversation name is modelled as the empty string.
- `Chat.js` initial fetch and its toast: the constructor takes the stored messages instead.
- Not modelled at all: `Profile.jsx`, the vendor UI wrappers, `cn`, `markAsRead` (only logs), `refreshConversations` (calls fetch), the provider's `createConversation` (destructured by the chat page but never called) and the GIF and emoji pickers' own search.
- OneToOne.GetOrCreateOneToOneConversation: returns the whole conversation row. For an existing conversation, the source's object carries only `id`, `is_group` and the embedded participants, so the callers' `created_at` is then undefined.
- ConversationContext.Merge: an update field written as `undefined` is treated as absent. The spread would copy `undefined` into the entry, which the model's non-optional fields cannot hold.
- ConversationContext.Update: likewise, `is_group: undefined` counts as absent, while the source's `"is_group" in updates` would still send it to the store.
- UserProfileModal.ProfileModal.SetInitialData: a parent that passes a new object on every render is modelled only through explicit calls; the endless reset without the prop is represented by its blank form (see above).
- UserSearchModal.UsernameLike: the `ilike` wildcards `%` and `_` inside the query are taken literally.
- The model of the one-to-one lookup and of the search effect uses the corrected behaviour (see Findings). The behaviour as written is kept beside it with the lemma that shows the difference. The members that follow the corrected lookup: OneToOne.GetOrCreate, OneToOne.GetOrCreateOneToOneConversation, HomePage.ChatPage.HandleCreateConversation, HomePage.OpenOneToOne and Sidebar.SidebarState.OnUserSelect. The members that follow the corrected effect: UserSearchModal.SearchModal.constructor, UserSearchModal.SearchModal.RunEffect, UserSearchModal.SearchModal.SetOpen and UserSearchModal.SearchModal.ChangeQuery.

## Findings

| source | as written | input that shows it | evidently intended | confidence | as-written member | corrected member |
|---|---|---|---|---|---|---|
| src/lib/utils.ts:31-48 | `.in("conversation_participants.user_id", [a, b])` filters the embedded participant list down to the rows of `a` and `b`, so `participantIds.length === 2` holds for any non-group conversation containing both | non-group conversation c1 with participants A, B, C; get-or-create for A and B returns c1 | only a conversation whose complete participant list is exactly {A, B} counts as their one-to-one conversation | medium, not executed | OneToOne.AsWrittenAcceptsThirdParty (with OneToOne.FetchAsWritten) | OneToOne.FetchIntended (with OneToOne.IntendedFindsTwoParty) |
| src/components/UserSearchModal.tsx:50-61 | the close and blank-query branches return without `setLoading(false)`, while the cleanup cancels the scheduled search that would have turned it off | type "ann" (a search is scheduled, loading on), then clear the query before the timer fires: "Searching..." stays and the error line stays hidden | clearing or closing also ends the loading state, so the spinner is shown only while a search is scheduled | high, not executed | UserSearchModal.AsWrittenSearchingStuck (with UserSearchModal.EffectAsWritten) | UserSearchModal.Effect (with UserSearchModal.SpinnerEnds) |
