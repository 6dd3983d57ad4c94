/** A contact message as the API returns it (lib/api.ts). */
module ContactMessageEntity {

  datatype ContactMessage = ContactMessage(
    id: nat,
    name: string,
    email: string,
    message: string,
    isRead: bool,
    createdAt: int)

  /** Every row of a message table is stored under its own id. */
  ghost predicate KeyedMessages(m: map<nat, ContactMessage>) {
    forall k :: k in m ==> m[k].id == k
  }
}
