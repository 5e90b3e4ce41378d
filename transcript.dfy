/** The conversation transcript exchanged between the widget and the server. */
module Transcript {

  datatype Option<+T> = None | Some(value: T)

  /** One transcript entry, the JSON object `{role, content}`. */
  datatype Turn = Turn(role: string, content: string)

  /** The roles the widget writes into its transcript. */
  const UserRole: string := "user"
  const AssistantRole: string := "assistant"

  /** Every turn carries one of the two roles the widget writes. */
  predicate ClientRoles(h: seq<Turn>)
  {
    forall i :: 0 <= i < |h| ==> h[i].role == UserRole || h[i].role == AssistantRole
  }
}
