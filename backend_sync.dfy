/**
 * The transcript forwarder (agent-starter-react/hooks/useBackendSync.ts): on
 * every change of the message list it posts each message whose id it has not
 * yet recorded to the backend's /process-transcription endpoint, and records
 * an id once the post for it has completed without throwing.
 */
module BackendSync {
  import opened Wrappers
  import opened Chat

  datatype Role = User | Assistant

  /** The `item` of the posted body; `timestamp` is in seconds. */
  datatype SyncItem = SyncItem(id: string, role: Role, message: string, timestamp: real)

  datatype SyncPayload = SyncPayload(roomId: string, item: SyncItem)

  /** What `await fetch(...)` does: resolve with an HTTP status (any status), or throw. */
  datatype FetchOutcome = Resolved(status: int) | Threw

  const UnknownRoom := "unknown-room"

  /** `room.name || room.room.name || 'unknown-room'`: the first non-empty name. */
  function RoomIdOf(room: Room): (id: string)
    ensures id != ""
    ensures room.name.Some? && room.name.value != "" ==> id == room.name.value
    ensures (room.name.None? || room.name.value == "") && room.innerName.Some? && room.innerName.value != "" ==>
      id == room.innerName.value
    ensures (room.name.None? || room.name.value == "") && (room.innerName.None? || room.innerName.value == "") ==>
      id == UnknownRoom
  {
    if room.name.Some? && room.name.value != "" then room.name.value
    else if room.innerName.Some? && room.innerName.value != "" then room.innerName.value
    else UnknownRoom
  }

  /** The body posted for one message. */
  function PayloadFor(m: ChatMessage, room: Room): (p: SyncPayload)
    ensures p.roomId == RoomIdOf(room)
    ensures p.item.id == m.id && p.item.message == m.message
    ensures p.item.timestamp * 1000.0 == m.timestamp as real
    ensures p.item.role == User <==> m.from.Some? && m.from.value.identity == room.local.identity
  {
    var role := if m.from.Some? && m.from.value.identity == room.local.identity then User else Assistant;
    SyncPayload(RoomIdOf(room), SyncItem(m.id, role, m.message, m.timestamp as real / 1000.0))
  }

  /** `messages.filter(m => !sent.has(m.id))`: the messages still to be posted, in list order. */
  function Unsent(sent: set<string>, messages: seq<ChatMessage>): (r: seq<ChatMessage>)
    ensures forall i :: 0 <= i < |r| ==> r[i] in messages && r[i].id !in sent
    ensures forall i :: 0 <= i < |messages| && messages[i].id !in sent ==> messages[i] in r
    ensures |r| <= |messages|
    ensures r == [] <==> forall i :: 0 <= i < |messages| ==> messages[i].id in sent
  {
    if messages == [] then []
    else (if messages[0].id !in sent then [messages[0]] else []) + Unsent(sent, messages[1..])
  }

  /** The bodies posted for a list of messages, one per message. */
  function Payloads(ms: seq<ChatMessage>, room: Room): (ps: seq<SyncPayload>)
    ensures |ps| == |ms|
    ensures forall i :: 0 <= i < |ms| ==> ps[i] == PayloadFor(ms[i], room)
  {
    seq(|ms|, i requires 0 <= i < |ms| => PayloadFor(ms[i], room))
  }

  /** The ids whose post resolved, whatever the status. */
  function Delivered(ms: seq<ChatMessage>, room: Room, fetch: SyncPayload -> FetchOutcome): set<string>
    decreases |ms|
  {
    if ms == [] then {}
    else
      var last := ms[|ms| - 1];
      Delivered(ms[..|ms| - 1], room, fetch) + (if fetch(PayloadFor(last, room)).Resolved? then {last.id} else {})
  }

  /** An id is delivered exactly when some message with that id had its post resolve. */
  lemma {:induction false} DeliveredIff(ms: seq<ChatMessage>, room: Room, fetch: SyncPayload -> FetchOutcome, id: string)
    ensures id in Delivered(ms, room, fetch) <==>
      exists j :: 0 <= j < |ms| && ms[j].id == id && fetch(PayloadFor(ms[j], room)).Resolved?
  {
    if ms != [] {
      var init := ms[..|ms| - 1];
      DeliveredIff(init, room, fetch, id);
      if id in Delivered(init, room, fetch) {
        var j :| 0 <= j < |init| && init[j].id == id && fetch(PayloadFor(init[j], room)).Resolved?;
        assert ms[j] == init[j];
      }
      if exists j :: 0 <= j < |ms| && ms[j].id == id && fetch(PayloadFor(ms[j], room)).Resolved? {
        var j :| 0 <= j < |ms| && ms[j].id == id && fetch(PayloadFor(ms[j], room)).Resolved?;
        if j < |ms| - 1 {
          assert init[j] == ms[j];
        }
      }
    }
  }

  /** Extending a list by one message extends its bodies by one. */
  lemma PayloadsSnoc(ms: seq<ChatMessage>, room: Room, i: nat)
    requires i < |ms|
    ensures Payloads(ms[..i + 1], room) == Payloads(ms[..i], room) + [PayloadFor(ms[i], room)]
  {
  }

  /** Extending a list by one message adds its id to the delivered set exactly when its post resolves. */
  lemma DeliveredSnoc(ms: seq<ChatMessage>, room: Room, fetch: SyncPayload -> FetchOutcome, i: nat)
    requires i < |ms|
    ensures Delivered(ms[..i + 1], room, fetch) ==
      Delivered(ms[..i], room, fetch) + (if fetch(PayloadFor(ms[i], room)).Resolved? then {ms[i].id} else {})
  {
    assert ms[..i + 1][..i] == ms[..i];
  }

  /**
   * The hook's state: the set of ids already posted. It lives for the whole
   * session (a React ref) and is only ever added to.
   */
  class Forwarder {
    var sentIds: set<string>

    constructor()
      ensures sentIds == {}
    {
      sentIds := {};
    }

    /**
     * One run of the effect. Returns the bodies posted, in order. Each post is
     * taken to complete before the next run starts.
     */
    method Sync(messages: seq<ChatMessage>, room: Room, fetch: SyncPayload -> FetchOutcome)
      returns (requests: seq<SyncPayload>)
      modifies this
      ensures requests == Payloads(Unsent(old(sentIds), messages), room)
      ensures sentIds == old(sentIds) + Delivered(Unsent(old(sentIds), messages), room, fetch)
      ensures old(sentIds) <= sentIds
    {
      var toSend := Unsent(sentIds, messages);
      if |toSend| == 0 {
        requests := [];
        assert Payloads(toSend, room) == [];
        return;
      }
      requests := PostAll(toSend, room, fetch);
    }

    /** The `forEach` of the effect: posts each message in turn, recording the ids whose post resolved. */
    method PostAll(toSend: seq<ChatMessage>, room: Room, fetch: SyncPayload -> FetchOutcome)
      returns (requests: seq<SyncPayload>)
      modifies this
      ensures requests == Payloads(toSend, room)
      ensures sentIds == old(sentIds) + Delivered(toSend, room, fetch)
    {
      requests := [];
      var i := 0;
      assert toSend[..0] == [];
      while i < |toSend|
        invariant 0 <= i <= |toSend|
        invariant requests == Payloads(toSend[..i], room)
        invariant sentIds == old(sentIds) + Delivered(toSend[..i], room, fetch)
      {
        var payload := PayloadFor(toSend[i], room);
        requests := requests + [payload];
        var outcome := fetch(payload);
        if outcome.Resolved? {
          sentIds := sentIds + {toSend[i].id};
        }
        PayloadsSnoc(toSend, room, i);
        DeliveredSnoc(toSend, room, fetch, i);
        i := i + 1;
      }
      assert toSend[..i] == toSend;
    }
  }

  /** An HTTP error status still counts as sent: the code never looks at `response.ok`. */
  lemma ErrorStatusStillRecorded(ms: seq<ChatMessage>, room: Room, fetch: SyncPayload -> FetchOutcome, j: nat)
    requires j < |ms| && fetch(PayloadFor(ms[j], room)) == Resolved(500)
    ensures ms[j].id in Delivered(ms, room, fetch)
  {
    DeliveredIff(ms, room, fetch, ms[j].id);
  }

  /**
   * A message whose post threw (as did every other post of that id) stays
   * unrecorded, so the next run, on any list that still holds it, posts it again.
   */
  lemma FailedPostIsRetried(sent: set<string>, messages: seq<ChatMessage>, later: seq<ChatMessage>,
                            room: Room, fetch: SyncPayload -> FetchOutcome, m: ChatMessage)
    requires m in messages && m.id !in sent && m in later
    requires forall j :: 0 <= j < |messages| && messages[j].id == m.id ==> fetch(PayloadFor(messages[j], room)) == Threw
    ensures m in Unsent(sent + Delivered(Unsent(sent, messages), room, fetch), later)
  {
    var toSend := Unsent(sent, messages);
    forall j | 0 <= j < |toSend| && toSend[j].id == m.id
      ensures fetch(PayloadFor(toSend[j], room)) == Threw
    {
      assert toSend[j] in messages;
      var k :| 0 <= k < |messages| && messages[k] == toSend[j];
    }
    DeliveredIff(toSend, room, fetch, m.id);
    var i :| 0 <= i < |later| && later[i] == m;
  }

  /** Once every post of a run resolves, re-running on the same list posts nothing. */
  lemma DeliveredRunIsQuiet(sent: set<string>, messages: seq<ChatMessage>, room: Room, fetch: SyncPayload -> FetchOutcome)
    requires forall j :: 0 <= j < |messages| ==> fetch(PayloadFor(messages[j], room)).Resolved?
    ensures Unsent(sent + Delivered(Unsent(sent, messages), room, fetch), messages) == []
  {
    var toSend := Unsent(sent, messages);
    var after := sent + Delivered(toSend, room, fetch);
    forall i | 0 <= i < |messages| ensures messages[i].id in after {
      if messages[i].id !in sent {
        assert messages[i] in toSend;
        var j :| 0 <= j < |toSend| && toSend[j] == messages[i];
        DeliveredIff(toSend, room, fetch, messages[i].id);
      }
    }
  }

  /**
   * A transcription turned into a chat message on the normal path syncs with
   * role `user` exactly when it came from the local participant.
   */
  lemma TranscriptionRole(ts: TextStream, room: Room)
    ensures PayloadFor(TranscriptionToChatMessage(ts, room, false), room).item.role == User <==> IsFromLocal(ts, room)
  {
  }
}
