/** `ContactMessageService` (backend/.../service/ContactMessageService.java) over the messages table. */
module ContactMessageService {
  import opened Wrappers
  import opened Text
  import opened Listing
  import opened ContactMessageEntity

  /** `getAllMessages` = `findAllByOrderByCreatedAtDesc`: every message, newest first. */
  function GetAllMessages(messages: map<nat, ContactMessage>): (r: seq<ContactMessage>)
    requires KeyedMessages(messages)
    ensures forall x :: x in r <==> x in messages.Values
    ensures Distinct(r)
    ensures forall i, j :: 0 <= i < j < |r| ==> r[i].createdAt >= r[j].createdAt
  {
    var keep := (x: ContactMessage) => true;
    var r := Query(messages, (x: ContactMessage) => x.id, keep, (x: ContactMessage) => -x.createdAt);
    ListsExactlyMembers(r, messages, keep);
    r
  }

  /** `getUnreadMessages` = `findByIsReadFalseOrderByCreatedAtDesc`: the unread messages, newest first. */
  function GetUnreadMessages(messages: map<nat, ContactMessage>): (r: seq<ContactMessage>)
    requires KeyedMessages(messages)
    ensures forall x :: x in r <==> x in messages.Values && !x.isRead
    ensures Distinct(r)
    ensures forall i, j :: 0 <= i < j < |r| ==> r[i].createdAt >= r[j].createdAt
  {
    var keep := (x: ContactMessage) => !x.isRead;
    var r := Query(messages, (x: ContactMessage) => x.id, keep, (x: ContactMessage) => -x.createdAt);
    ListsExactlyMembers(r, messages, keep);
    r
  }

  /** `getMessageById` = `findById`. */
  function GetMessageById(messages: map<nat, ContactMessage>, id: nat): (r: Option<ContactMessage>)
    ensures r.Some? <==> id in messages
    ensures r.Some? ==> r.value == messages[id]
  {
    if id in messages then Some(messages[id]) else None
  }

  /** The message of the `RuntimeException` thrown for an unknown id. */
  function NotFound(id: nat): string {
    "Contact message not found with id: " + Decimal(id)
  }

  /** The table after `markAsRead(id)` has set `isRead` on the stored message and saved it. */
  function ReadMarked(messages: map<nat, ContactMessage>, id: nat): (m: map<nat, ContactMessage>)
    requires id in messages
    ensures m.Keys == messages.Keys
    ensures m[id].isRead
  {
    messages[id := messages[id].(isRead := true)]
  }

  /** Marking a message read twice is the same as marking it once. */
  lemma MarkAsReadIsIdempotent(messages: map<nat, ContactMessage>, id: nat)
    requires id in messages
    ensures ReadMarked(ReadMarked(messages, id), id) == ReadMarked(messages, id)
  {
  }

  /** Only the `isRead` flag of message `id` changes: every other field of it, and every
      other message, is as before. */
  lemma {:induction false} MarkAsReadChangesOnlyTheFlag(messages: map<nat, ContactMessage>, id: nat)
    requires id in messages
    ensures forall k :: k in messages && k != id ==> ReadMarked(messages, id)[k] == messages[k]
    ensures ReadMarked(messages, id)[id].(isRead := messages[id].isRead) == messages[id]
  {
  }

  /** After `markAsRead(id)` the unread list is the old one without message `id`. */
  lemma {:induction false} MarkAsReadLeavesUnread(messages: map<nat, ContactMessage>, id: nat)
    requires KeyedMessages(messages) && id in messages
    ensures KeyedMessages(ReadMarked(messages, id))
    ensures forall x :: x in GetUnreadMessages(ReadMarked(messages, id)) <==>
                        x in GetUnreadMessages(messages) && x.id != id
  {
    var after := ReadMarked(messages, id);
    forall x ensures (x in after.Values && !x.isRead) <==> (x in messages.Values && !x.isRead && x.id != id) {
      if x in after.Values && !x.isRead {
        var k :| k in after && after[k] == x;
        assert k != id && messages[k] == x;
      }
      if x in messages.Values && !x.isRead && x.id != id {
        var k :| k in messages && messages[k] == x;
        assert after[k] == x;
      }
    }
  }

  /** The contact messages table, with the identity counter of its `id` column. The class stands
      for both the Spring service and the JPA repository behind it. */
  class Service {
    var messages: map<nat, ContactMessage>
    var nextId: nat

    /** Rows are stored under their own ids, all below the next identity value. */
    ghost predicate Valid()
      reads this
    {
      KeyedMessages(messages) && forall k :: k in messages ==> k < nextId
    }

    /** An empty table whose identity column starts at 1. */
    constructor ()
      ensures Valid() && messages == map[] && nextId == 1
    {
      messages := map[];
      nextId := 1;
    }

    /** `createMessage` = `save` of a new entity, inserted under the next identity value
        and stamped with the creation time `now`. */
    method CreateMessage(message: ContactMessage, now: int) returns (saved: ContactMessage)
      requires Valid()
      modifies this
      ensures Valid()
      ensures saved == message.(id := old(nextId), createdAt := now)
      ensures old(nextId) !in old(messages)
      ensures messages == old(messages)[saved.id := saved] && nextId == old(nextId) + 1
    {
      saved := message.(id := nextId, createdAt := now);
      messages := messages[nextId := saved];
      nextId := nextId + 1;
    }

    /** `markAsRead`: fails for an unknown id and changes nothing; otherwise sets `isRead`. */
    method MarkAsRead(id: nat) returns (r: Result<ContactMessage, string>)
      requires Valid()
      modifies this
      ensures Valid() && nextId == old(nextId)
      ensures id !in old(messages) ==> r == Failure(NotFound(id)) && messages == old(messages)
      ensures id in old(messages) ==>
                messages == ReadMarked(old(messages), id) && r == Success(messages[id])
    {
      if id !in messages {
        return Failure(NotFound(id));
      }
      messages := ReadMarked(messages, id);
      r := Success(messages[id]);
    }

    /** `deleteMessage` = `deleteById`: the row under `id` is gone, every other row stays. */
    method DeleteMessage(id: nat)
      requires Valid()
      modifies this
      ensures Valid() && nextId == old(nextId)
      ensures messages == old(messages) - {id}
    {
      messages := messages - {id};
    }
  }
}
