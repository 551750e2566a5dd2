/**
 * Chat messages of the voice session and their attribution to participants
 * (agent-starter-react/lib/utils.ts, transcriptionToChatMessage). Rooms and
 * participants of the real-time SDK are reduced to identities and the track
 * ids of published audio.
 */
module Chat {
  import opened Wrappers

  datatype Participant = Participant(identity: string, audioTrackSids: seq<string>)

  /** A joined room: the local participant, the remote ones in map order, and the two places the source reads a room name from. */
  datatype Room = Room(local: Participant, remotes: seq<Participant>, name: Option<string>, innerName: Option<string>)

  /** A received chat message; `timestamp` is in milliseconds. */
  datatype ChatMessage = ChatMessage(id: string, timestamp: int, message: string, from: Option<Participant>)

  /** A transcription stream: its text, the identity in its participant info and its stream info. */
  datatype TextStream = TextStream(text: string, participantIdentity: string, streamId: string, streamTimestamp: int, trackSid: Option<string>)

  /** Index of the first participant with the given identity (`Array.prototype.find`). */
  function FirstWithIdentity(ps: seq<Participant>, identity: string): (r: Option<nat>)
    ensures r.Some? ==> r.value < |ps| && ps[r.value].identity == identity
    ensures r.Some? ==> forall j :: 0 <= j < r.value ==> ps[j].identity != identity
    ensures r.None? ==> forall j :: 0 <= j < |ps| ==> ps[j].identity != identity
  {
    if ps == [] then None
    else if ps[0].identity == identity then Some(0)
    else match FirstWithIdentity(ps[1..], identity)
      case None => None
      case Some(i) => Some(i + 1)
  }

  /** No remote before index `i` has the identity. */
  predicate FirstRemoteAt(room: Room, identity: string, i: nat)
  {
    forall j :: 0 <= j < i && j < |room.remotes| ==> room.remotes[j].identity != identity
  }

  /** The first remote participant with the given identity. */
  function FindRemote(room: Room, identity: string): (r: Option<Participant>)
    ensures r.None? <==> forall j :: 0 <= j < |room.remotes| ==> room.remotes[j].identity != identity
    ensures r.Some? ==> r.value.identity == identity
    ensures r.Some? ==> exists i :: 0 <= i < |room.remotes| && room.remotes[i] == r.value && FirstRemoteAt(room, identity, i)
  {
    match FirstWithIdentity(room.remotes, identity)
    case None => None
    case Some(i) => Some(room.remotes[i])
  }

  /** The stream is the local user's: same identity, or transcribing one of the local audio tracks. */
  predicate IsFromLocal(ts: TextStream, room: Room)
  {
    ts.participantIdentity == room.local.identity ||
    (ts.trackSid.Some? && ts.trackSid.value in room.local.audioTrackSids)
  }

  /**
   * `transcriptionToChatMessage`. `threw` stands for an exception raised inside
   * the try block (whose diagnostics touch several SDK objects); the catch
   * block then attributes by identity among the remotes, falling back to the
   * local participant.
   */
  function TranscriptionToChatMessage(ts: TextStream, room: Room, threw: bool): (m: ChatMessage)
    ensures m.id == ts.streamId && m.timestamp == ts.streamTimestamp && m.message == ts.text
    ensures !threw && IsFromLocal(ts, room) ==> m.from == Some(room.local)
    ensures !threw && !IsFromLocal(ts, room) ==>
      (m.from.Some? <==> exists j :: 0 <= j < |room.remotes| && room.remotes[j].identity == ts.participantIdentity)
    ensures !threw && !IsFromLocal(ts, room) && m.from.Some? ==>
      m.from.value.identity == ts.participantIdentity && m.from.value.identity != room.local.identity
    ensures !threw && !IsFromLocal(ts, room) ==> m.from == FindRemote(room, ts.participantIdentity)
    ensures threw ==> m.from == Some(FindRemote(room, ts.participantIdentity).GetOr(room.local))
    ensures threw ==> m.from.Some?
    ensures threw && m.from != Some(room.local) ==> m.from.value.identity == ts.participantIdentity
  {
    if !threw then
      var from := if IsFromLocal(ts, room) then Some(room.local) else FindRemote(room, ts.participantIdentity);
      ChatMessage(ts.streamId, ts.streamTimestamp, ts.text, from)
    else
      var from := match FindRemote(room, ts.participantIdentity)
        case Some(p) => p
        case None => room.local;
      ChatMessage(ts.streamId, ts.streamTimestamp, ts.text, Some(from))
  }
}
