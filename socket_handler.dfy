/**
 * The main service's socket handler as a state machine: which rooms each
 * connected socket is in, the messages saved so far, and the log of events
 * emitted, each with the set of sockets it went to.
 *
 * A payload is `None` when it is null or undefined; its fields are strings,
 * with "" standing for any falsy value. Whether a save succeeds is a
 * parameter (`saveOk`).
 */
module SocketHandler {
  import opened Wrappers
  import opened Schemas

  type SocketId = string

  datatype Event = NewMessage(message: MessageDoc) | ErrorEvent(text: string)

  /** One `emit`: the event and the sockets it was sent to. */
  datatype Emit = Emit(recipients: set<SocketId>, event: Event)

  /** The fields of a `send-message` payload the handler reads. */
  datatype SendPayload = SendPayload(chatId: string, senderId: string, text: string, msgType: string)

  const MissingFields := "Missing required fields"
  const SendFailed := "Failed to send message"

  /** `io.to(room)`: every connected socket that has joined the room. */
  function RoomMembers(rooms: map<SocketId, set<string>>, room: string): (r: set<SocketId>)
    ensures forall s :: s in r <==> s in rooms && room in rooms[s]
  {
    set s | s in rooms && room in rooms[s]
  }

  /** The document the handler builds: content is the payload's `text`, type falls back to "text". */
  function BuildMessage(p: SendPayload): (m: MessageDoc)
    ensures m.chatId == Some(p.chatId) && m.senderId == Some(p.senderId) && m.content == Some(p.text)
    ensures m.msgType == Some(if p.msgType == "" then "text" else p.msgType)
    ensures m.id.None? && m.timestamp.None? && m.isRead.None?
  {
    MessageDoc(None, Some(p.chatId), Some(p.senderId), Some(p.text), Some(if p.msgType == "" then "text" else p.msgType),
               None, None, None, None)
  }

  predicate HasRequired(p: SendPayload) {
    p.chatId != "" && p.text != "" && p.senderId != ""
  }

  /**
   * What one `send-message` does: the message it saves, if any, and the event it
   * emits, if any. A payload that is null or undefined (`None`) makes the
   * destructuring throw inside the listener, so nothing is saved or emitted.
   */
  function SendOutcome(rooms: map<SocketId, set<string>>, sender: SocketId, message: Option<SendPayload>, saveOk: bool): (r: (Option<MessageDoc>, Option<Emit>))
    ensures message.None? ==> r.0.None? && r.1.None?
    ensures message.Some? ==> r.1.Some?
    ensures r.0.Some? <==> message.Some? && HasRequired(message.value) && saveOk
    ensures r.0.Some? ==> r.0.value == BuildMessage(message.value) && r.1 == Some(Emit(RoomMembers(rooms, message.value.chatId), NewMessage(r.0.value)))
    ensures message.Some? && !HasRequired(message.value) ==> r.1 == Some(Emit({sender}, ErrorEvent(MissingFields)))
    ensures message.Some? && HasRequired(message.value) && !saveOk ==> r.1 == Some(Emit({sender}, ErrorEvent(SendFailed)))
  {
    match message
    case None => (None, None)
    case Some(p) =>
      if !HasRequired(p) then (None, Some(Emit({sender}, ErrorEvent(MissingFields))))
      else
        var m := BuildMessage(p);
        if saveOk then (Some(m), Some(Emit(RoomMembers(rooms, p.chatId), NewMessage(m))))
        else (None, Some(Emit({sender}, ErrorEvent(SendFailed))))
  }

  /**
   * A send without a payload emits nothing; every send with one ends in exactly
   * one of: the validation error, the save error, or the broadcast.
   */
  lemma SendExactlyOneOutcome(rooms: map<SocketId, set<string>>, sender: SocketId, message: Option<SendPayload>, saveOk: bool)
    ensures message.None? <==> SendOutcome(rooms, sender, message, saveOk).1.None?
    ensures var e := SendOutcome(rooms, sender, message, saveOk).1;
            e.Some? ==>
              var missing := e.value == Emit({sender}, ErrorEvent(MissingFields));
              var failed := e.value == Emit({sender}, ErrorEvent(SendFailed));
              var broadcast := e.value.event.NewMessage?;
              (missing && !failed && !broadcast) || (!missing && failed && !broadcast) || (!missing && !failed && broadcast)
  {
  }

  /** An error event goes to the sender alone; a broadcast reaches the sender only if the sender joined the chat's room. */
  lemma SendRecipients(rooms: map<SocketId, set<string>>, sender: SocketId, message: Option<SendPayload>, saveOk: bool)
    ensures var e := SendOutcome(rooms, sender, message, saveOk).1;
            e.Some? && e.value.event.ErrorEvent? ==> e.value.recipients == {sender}
    ensures var e := SendOutcome(rooms, sender, message, saveOk).1;
            e.Some? && e.value.event.NewMessage? ==>
              message.Some? && (sender in e.value.recipients <==> sender in rooms && message.value.chatId in rooms[sender])
  {
  }

  /** The message the handler saves lacks the schema's required id, timestamp and read flag, whatever the payload. */
  lemma SavedMessageLacksRequiredFields(p: SendPayload)
    ensures !ValidMessage(BuildMessage(p))
  {
    FourFieldMessageInvalid(p.chatId, p.senderId, p.text, if p.msgType == "" then "text" else p.msgType);
  }

  /** The socket server: room membership per connected socket, saved messages and emitted events. */
  class SocketServer {
    var rooms: map<SocketId, set<string>>
    var store: seq<MessageDoc>
    var log: seq<Emit>

    constructor ()
      ensures rooms == map[] && store == [] && log == []
    {
      rooms := map[];
      store := [];
      log := [];
    }

    /** `connection`: socket.io places the new socket in a room named after its own id. */
    method Connect(s: SocketId)
      modifies this
      ensures rooms == old(rooms)[s := {s}] && store == old(store) && log == old(log)
    {
      rooms := rooms[s := {s}];
    }

    /** `join-room`: add the room to the socket's rooms, whatever its name. */
    method JoinRoom(s: SocketId, roomId: string)
      requires s in rooms
      modifies this
      ensures rooms == old(rooms)[s := old(rooms)[s] + {roomId}]
      ensures store == old(store) && log == old(log)
      ensures s in RoomMembers(rooms, roomId)
    {
      rooms := rooms[s := rooms[s] + {roomId}];
    }

    /** `leave-room`: remove the room from the socket's rooms. */
    method LeaveRoom(s: SocketId, roomId: string)
      requires s in rooms
      modifies this
      ensures rooms == old(rooms)[s := old(rooms)[s] - {roomId}]
      ensures store == old(store) && log == old(log)
      ensures s !in RoomMembers(rooms, roomId)
    {
      rooms := rooms[s := rooms[s] - {roomId}];
    }

    /**
     * `disconnect`: the handler itself only logs, but socket.io takes the socket
     * out of every room it was in, so it receives no further broadcasts.
     */
    method Disconnect(s: SocketId)
      modifies this
      ensures rooms == old(rooms) - {s}
      ensures store == old(store) && log == old(log)
      ensures forall room :: s !in RoomMembers(rooms, room)
      ensures forall room, other :: other != s ==> (other in RoomMembers(rooms, room) <==> other in RoomMembers(old(rooms), room))
    {
      rooms := rooms - {s};
    }

    /**
     * `send-message`: without a payload the listener throws before doing anything;
     * otherwise validate, save, then broadcast to the chat's room or tell the
     * sender about the failure.
     */
    method SendMessage(sender: SocketId, message: Option<SendPayload>, saveOk: bool)
      requires sender in rooms
      modifies this
      ensures rooms == old(rooms)
      ensures var (saved, e) := SendOutcome(old(rooms), sender, message, saveOk);
              && log == old(log) + (if e.Some? then [e.value] else [])
              && store == old(store) + (if saved.Some? then [saved.value] else [])
    {
      if message.None? {
        return;
      }
      var p := message.value;
      if p.chatId == "" || p.text == "" || p.senderId == "" {
        log := log + [Emit({sender}, ErrorEvent(MissingFields))];
        return;
      }
      var m := BuildMessage(p);
      if saveOk {
        store := store + [m];
        log := log + [Emit(RoomMembers(rooms, p.chatId), NewMessage(m))];
      } else {
        log := log + [Emit({sender}, ErrorEvent(SendFailed))];
      }
    }
  }

  /** Joining a room twice is joining it once, and leaving a room one never joined changes nothing. */
  lemma JoinLeaveIdempotent(rooms: map<SocketId, set<string>>, s: SocketId, roomId: string)
    requires s in rooms
    ensures var once := rooms[s := rooms[s] + {roomId}];
            once[s := once[s] + {roomId}] == once
    ensures roomId !in rooms[s] ==> rooms[s := rooms[s] - {roomId}] == rooms
  {
    var once := rooms[s := rooms[s] + {roomId}];
    assert once[s] + {roomId} == once[s];
    if roomId !in rooms[s] {
      assert rooms[s] - {roomId} == rooms[s];
    }
  }
}
