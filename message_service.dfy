/**
 * The main service's MessageService over an in-memory message table. Each
 * row carries the database key (`_id`) and the document as it was built from
 * the caller's input. A database failure is a parameter: `Some(message)` makes
 * the call fail with that message, as the service rethrows it.
 */
module MessageService {
  import opened Wrappers
  import opened Seqs
  import opened Schemas

  datatype StoredMessage = StoredMessage(key: Id, doc: MessageDoc)

  /** The database keys are unique. */
  predicate UniqueKeys(rows: seq<StoredMessage>) {
    forall i, j :: 0 <= i < j < |rows| ==> rows[i].key != rows[j].key
  }

  /** The filter `{_id: messageId, chatId}`. */
  predicate InChat(row: StoredMessage, chatId: Id, messageId: Id) {
    row.key == messageId && row.doc.chatId == Some(chatId)
  }

  // ---------------------------------------------------------------- createMessage

  /** The guard of createMessage: chatId, senderId and content all present and non-empty. */
  predicate CanCreate(data: MessageDoc) {
    RequiredText(data.chatId) && RequiredText(data.senderId) && RequiredText(data.content)
  }

  const CreateError := "Can't create message."

  // ---------------------------------------------------------------- readMessages

  /** `findOneAndUpdate({_id, chatId}, {$set: {isRead: true}})` applied to the rows. */
  function MarkRead(rows: seq<StoredMessage>, chatId: Id, messageId: Id): (r: seq<StoredMessage>)
    ensures |r| == |rows|
    ensures forall i :: 0 <= i < |rows| ==> r[i].key == rows[i].key
  {
    match FirstIndex(rows, (row: StoredMessage) => InChat(row, chatId, messageId))
    case None => rows
    case Some(i) => rows[i := rows[i].(doc := rows[i].doc.(isRead := Some(true)))]
  }

  /** Marking a message read changes that message's isRead and nothing else; a miss changes nothing. */
  lemma MarkReadEffect(rows: seq<StoredMessage>, chatId: Id, messageId: Id)
    requires UniqueKeys(rows)
    ensures forall i :: 0 <= i < |rows| && !InChat(rows[i], chatId, messageId) ==> MarkRead(rows, chatId, messageId)[i] == rows[i]
    ensures forall i :: 0 <= i < |rows| && InChat(rows[i], chatId, messageId) ==>
              MarkRead(rows, chatId, messageId)[i] == rows[i].(doc := rows[i].doc.(isRead := Some(true)))
  {
  }

  /** Reading a message twice is the same as reading it once. */
  lemma MarkReadIdempotent(rows: seq<StoredMessage>, chatId: Id, messageId: Id)
    ensures MarkRead(MarkRead(rows, chatId, messageId), chatId, messageId) == MarkRead(rows, chatId, messageId)
  {
    var p := (row: StoredMessage) => InChat(row, chatId, messageId);
    var once := MarkRead(rows, chatId, messageId);
    match FirstIndex(rows, p)
    case None =>
    case Some(i) =>
      assert FirstIndex(once, p) == Some(i) by {
        FirstIndexSame(rows, once, p);
      }
      assert once[i].doc.isRead == Some(true);
      assert once[i := once[i].(doc := once[i].doc.(isRead := Some(true)))] == once;
  }

  // ---------------------------------------------------------------- editMessage

  /** `findOneAndUpdate({_id, chatId}, {$set: {content, editedAt: now}})`: the rows afterwards and the updated message. */
  function Edit(rows: seq<StoredMessage>, chatId: Id, messageId: Id, content: string, now: Time): (r: (seq<StoredMessage>, Option<StoredMessage>))
    ensures |r.0| == |rows|
    ensures r.1.None? <==> forall i :: 0 <= i < |rows| ==> !InChat(rows[i], chatId, messageId)
    ensures r.1.None? ==> r.0 == rows
    ensures r.1.Some? ==> r.1.value in r.0 && r.1.value.doc.content == Some(content) && r.1.value.doc.editedAt == Some(now)
  {
    match FirstIndex(rows, (row: StoredMessage) => InChat(row, chatId, messageId))
    case None => (rows, None)
    case Some(i) =>
      var edited := rows[i].(doc := rows[i].doc.(content := Some(content), editedAt := Some(now)));
      assert rows[i := edited][i] == edited;
      (rows[i := edited], Some(edited))
  }

  /** An edit keeps the edited message's key, chat, sender, type, timestamp and read flag, and leaves every other message alone. */
  lemma EditTouchesOnlyTarget(rows: seq<StoredMessage>, chatId: Id, messageId: Id, content: string, now: Time)
    ensures var (after, edited) := Edit(rows, chatId, messageId, content, now);
            forall i :: 0 <= i < |rows| ==>
              || after[i] == rows[i]
              || (InChat(rows[i], chatId, messageId) && Some(after[i]) == edited
                  && after[i] == rows[i].(doc := rows[i].doc.(content := Some(content), editedAt := Some(now))))
  {
  }

  // ---------------------------------------------------------------- deleteMessage

  /** `findOneAndDelete({_id: messageId})`: by key alone, whatever chat the message is in. */
  function Delete(rows: seq<StoredMessage>, messageId: Id): (r: (seq<StoredMessage>, Option<StoredMessage>))
    ensures r.1.None? <==> forall i :: 0 <= i < |rows| ==> rows[i].key != messageId
    ensures r.1.None? ==> r.0 == rows
    ensures r.1.Some? ==> r.1.value in rows && r.1.value.key == messageId && |r.0| == |rows| - 1
    ensures forall x :: x in r.0 ==> x in rows
  {
    match FirstIndex(rows, (row: StoredMessage) => row.key == messageId)
    case None => (rows, None)
    case Some(i) => (rows[..i] + rows[i + 1..], Some(rows[i]))
  }

  /** With unique keys, a deleted message is gone, every other message stays, and the keys stay unique. */
  lemma DeleteRemovesExactlyOne(rows: seq<StoredMessage>, messageId: Id)
    requires UniqueKeys(rows)
    ensures var after := Delete(rows, messageId).0;
            && UniqueKeys(after)
            && (forall x :: x in after ==> x.key != messageId)
            && (forall x :: x in rows && x.key != messageId ==> x in after)
  {
    match FirstIndex(rows, (row: StoredMessage) => row.key == messageId)
    case None =>
    case Some(i) => RemoveAtUnique(rows, i, messageId);
  }

  /** Dropping the one row with a given key from a table with unique keys. */
  lemma RemoveAtUnique(rows: seq<StoredMessage>, i: nat, messageId: Id)
    requires UniqueKeys(rows) && i < |rows| && rows[i].key == messageId
    ensures var after := rows[..i] + rows[i + 1..];
            && UniqueKeys(after)
            && (forall x :: x in after ==> x.key != messageId)
            && (forall x :: x in rows && x.key != messageId ==> x in after)
  {
    RemoveAtKeepsUnique(rows, i);
    RemoveAtDropsKey(rows, i, messageId);
    RemoveAtKeepsOthers(rows, i, messageId);
  }

  lemma RemoveAtKeepsUnique(rows: seq<StoredMessage>, i: nat)
    requires UniqueKeys(rows) && i < |rows|
    ensures UniqueKeys(rows[..i] + rows[i + 1..])
  {
    var after := rows[..i] + rows[i + 1..];
    forall a, b | 0 <= a < b < |after| ensures after[a].key != after[b].key {
      var a' := if a < i then a else a + 1;
      var b' := if b < i then b else b + 1;
      assert after[a] == rows[a'] && after[b] == rows[b'];
    }
  }

  lemma RemoveAtDropsKey(rows: seq<StoredMessage>, i: nat, messageId: Id)
    requires UniqueKeys(rows) && i < |rows| && rows[i].key == messageId
    ensures forall x :: x in rows[..i] + rows[i + 1..] ==> x.key != messageId
  {
    var after := rows[..i] + rows[i + 1..];
    forall x | x in after ensures x.key != messageId {
      var j :| 0 <= j < |after| && after[j] == x;
      var j' := if j < i then j else j + 1;
      assert after[j] == rows[j'] && j' != i;
    }
  }

  lemma RemoveAtKeepsOthers(rows: seq<StoredMessage>, i: nat, messageId: Id)
    requires i < |rows| && rows[i].key == messageId
    ensures forall x :: x in rows && x.key != messageId ==> x in rows[..i] + rows[i + 1..]
  {
    var after := rows[..i] + rows[i + 1..];
    forall x | x in rows && x.key != messageId ensures x in after {
      var j :| 0 <= j < |rows| && rows[j] == x;
      if j < i { assert after[j] == x; } else { assert j > i; assert after[j - 1] == x; }
    }
  }

  // ---------------------------------------------------------------- the service

  /** The message collection behind MessageService. */
  class MessageTable {
    var rows: seq<StoredMessage>

    ghost predicate Valid()
      reads this
    {
      UniqueKeys(rows)
    }

    constructor ()
      ensures Valid() && rows == []
    {
      rows := [];
    }

    /** createMessage: refuse a message without chatId, senderId or content; otherwise save the input document as given. */
    method CreateMessage(data: MessageDoc, newKey: Id, saveError: Option<string>) returns (r: Result<StoredMessage, string>)
      requires Valid() && forall i :: 0 <= i < |rows| ==> rows[i].key != newKey
      modifies this
      ensures Valid()
      ensures !CanCreate(data) ==> r == Err(CreateError) && rows == old(rows)
      ensures CanCreate(data) && saveError.Some? ==> r == Err(saveError.value) && rows == old(rows)
      ensures r.Ok? <==> CanCreate(data) && saveError.None?
      ensures r.Ok? ==> r.value == StoredMessage(newKey, data) && rows == old(rows) + [r.value]
    {
      if !CanCreate(data) {
        return Err(CreateError);
      }
      if saveError.Some? {
        return Err(saveError.value);
      }
      var stored := StoredMessage(newKey, data);
      rows := rows + [stored];
      r := Ok(stored);
    }

    /** readMessages: mark the message read if it is in that chat; a miss is not an error. */
    method ReadMessages(chatId: Id, messageId: Id, dbError: Option<string>) returns (r: Result<(), string>)
      requires Valid()
      modifies this
      ensures Valid()
      ensures dbError.Some? ==> r == Err(dbError.value) && rows == old(rows)
      ensures dbError.None? ==> r == Ok(()) && rows == MarkRead(old(rows), chatId, messageId)
    {
      if dbError.Some? {
        return Err(dbError.value);
      }
      rows := MarkRead(rows, chatId, messageId);
      r := Ok(());
    }

    /** editMessage: replace the content and stamp editedAt, returning the updated message or nothing. */
    method EditMessage(chatId: Id, messageId: Id, content: string, now: Time, dbError: Option<string>) returns (r: Result<Option<StoredMessage>, string>)
      requires Valid()
      modifies this
      ensures Valid()
      ensures dbError.Some? ==> r == Err(dbError.value) && rows == old(rows)
      ensures dbError.None? ==> r == Ok(Edit(old(rows), chatId, messageId, content, now).1) && rows == Edit(old(rows), chatId, messageId, content, now).0
    {
      if dbError.Some? {
        return Err(dbError.value);
      }
      var (after, edited) := Edit(rows, chatId, messageId, content, now);
      EditTouchesOnlyTarget(rows, chatId, messageId, content, now);
      rows := after;
      r := Ok(edited);
    }

    /** deleteMessage: remove the message with that key, in whatever chat, returning it or nothing. */
    method DeleteMessage(messageId: Id, dbError: Option<string>) returns (r: Result<Option<StoredMessage>, string>)
      requires Valid()
      modifies this
      ensures Valid()
      ensures dbError.Some? ==> r == Err(dbError.value) && rows == old(rows)
      ensures dbError.None? ==> r == Ok(Delete(old(rows), messageId).1) && rows == Delete(old(rows), messageId).0
    {
      if dbError.Some? {
        return Err(dbError.value);
      }
      DeleteRemovesExactlyOne(rows, messageId);
      var (after, deleted) := Delete(rows, messageId);
      rows := after;
      r := Ok(deleted);
    }
  }
}
