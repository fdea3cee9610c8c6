/** The backing store's records (the row shapes of src/types/types.ts), the signed-in user, and
    the error values backend calls report. */
module Records {
  import opened Wrappers

  /** A `conversations` row. `name` is the column the group branch of the conversation list
      reads; it is not declared in the type file but is selected with `*`. */
  datatype ConversationRow = ConversationRow(id: string, createdAt: string, isGroup: bool, name: string)

  /** A `conversation_participants` row; the generated `id` and `joined_at` columns are not
      read by the client and are left out. */
  datatype ParticipantRow = ParticipantRow(conversationId: string, userId: string)

  /** A `profiles` row. */
  datatype Profile = Profile(id: string, username: string, avatarUrl: Option<string>)

  /** A `messages` row. */
  datatype MessageRow = MessageRow(id: string, conversationId: string, senderId: string,
                                   content: string, createdAt: string)

  /** The signed-in user of a session: id, e-mail and the `full_name` user metadata. */
  datatype User = User(id: string, email: Option<string>, fullName: Option<string>)

  /** What a failed backend call throws or returns. `isError` tells whether the value is an
      `Error` instance, which decides whether its `message` or a fixed fallback is shown. */
  datatype StoreError = StoreError(isError: bool, message: string)

  /** `err instanceof Error ? err.message : fallback`. */
  function ErrorText(e: StoreError, fallback: string): (r: string)
    ensures e.isError ==> r == e.message
    ensures !e.isError ==> r == fallback
  {
    if e.isError then e.message else fallback
  }

  /** JavaScript truthiness of an optional string: present and not empty. */
  predicate Truthy(s: Option<string>) {
    s.Some? && s.value != []
  }

  /** `s || fallback` on an optional string. */
  function OrElse(s: Option<string>, fallback: string): (r: string)
    ensures Truthy(s) ==> r == s.value
    ensures !Truthy(s) ==> r == fallback
  {
    if Truthy(s) then s.value else fallback
  }
}
