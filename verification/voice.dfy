/** The browser's voice-chat signalling bookkeeping (static/voice.js): the
    `peers` table from remote socket id to peer connection, the handlers of
    the relayed offer, answer and ICE-candidate messages, and the mute
    toggle. A peer connection is an opaque record of what was applied to
    it; every `socket.emit` is recorded in `log`. */
module Voice {
  import opened Protocol

  /** An opaque session description (an offer or an answer). */
  type Description = string

  /** An opaque ICE candidate. It is never empty: a payload without a
      candidate, or with a falsy one, is `None`. */
  type Candidate = c: string | c != "" witness "candidate"

  /** What the client has handed to one peer connection: the number of local
      tracks added to it, the remote descriptions set on it and the ICE
      candidates added to it, in order. */
  datatype Connection = Connection(tracks: nat, remote: seq<Description>, candidates: seq<Candidate>)

  /** Signalling messages the client emits. An offer names no recipient: the
      relay broadcasts it to the rest of the room. */
  datatype Signal =
    | Offer(room: Option<RoomId>)
    | Answer(room: Option<RoomId>, to: Sid)
    | IceCandidate(room: Option<RoomId>, to: Sid, candidate: Candidate)

  /** A new connection to which every local track has been added. */
  function Fresh(tracks: nat): (c: Connection)
    ensures c.tracks == tracks && c.remote == [] && c.candidates == []
  {
    Connection(tracks, [], [])
  }

  /** `n` offers to the room `room`. */
  function Offers(room: Option<RoomId>, n: nat): (s: seq<Signal>)
    ensures |s| == n && forall i :: 0 <= i < n ==> s[i] == Offer(room)
  {
    seq(n, _ => Offer(room))
  }

  /** The ids a `game_state` listing `ids` opens connections to, in order,
      when the client is `self` and already knows `known`: each listed id
      that is neither `self` nor known yet, each once. */
  function NewPeers(ids: seq<Sid>, self: Sid, known: set<Sid>): (r: seq<Sid>)
    ensures forall x {:trigger x in r} :: x in r <==> x in ids && x != self && x !in known
    ensures forall i, j :: 0 <= i < j < |r| ==> r[i] != r[j]
    decreases |ids|
  {
    if ids == [] then []
    else
      assert forall x :: x in ids <==> x == ids[0] || x in ids[1..];
      if ids[0] == self || ids[0] in known then NewPeers(ids[1..], self, known)
      else
        var rest := NewPeers(ids[1..], self, known + {ids[0]});
        assert ids[0] !in rest;
        [ids[0]] + rest
  }

  /** One step of NewPeers, taken at position `i` of the list. */
  lemma NewPeersStep(ids: seq<Sid>, i: nat, self: Sid, known: set<Sid>)
    requires i < |ids|
    ensures NewPeers(ids[i..], self, known) ==
      if ids[i] == self || ids[i] in known then NewPeers(ids[i + 1..], self, known)
      else [ids[i]] + NewPeers(ids[i + 1..], self, known + {ids[i]})
  {
    assert ids[i..][1..] == ids[i + 1..];
  }

  /** The text of the voice status line. */
  function StatusText(muted: bool): (t: string)
    ensures muted <==> t == "Voice: Muted"
    ensures !muted <==> t == "Voice: On"
  {
    "Voice: " + (if muted then "Muted" else "On")
  }

  /** What the mute button controls: the flag, the status line and the
      enabled flags of the local audio tracks (none without a stream). */
  datatype MuteState = MuteState(muted: bool, status: string, tracks: seq<bool>)

  /** The state after one click on the mute button. */
  function Toggled(s: MuteState): (s': MuteState)
    ensures s'.muted == !s.muted && s'.status == StatusText(s'.muted)
    ensures |s'.tracks| == |s.tracks| && forall i :: 0 <= i < |s'.tracks| ==> s'.tracks[i] == !s'.muted
  {
    MuteState(!s.muted, StatusText(!s.muted), seq(|s.tracks|, _ => s.muted))
  }

  /** A state the mute button could have produced: the status line and every
      track agree with the flag. */
  predicate MuteConsistent(s: MuteState)
  {
    s.status == StatusText(s.muted) && forall i :: 0 <= i < |s.tracks| ==> s.tracks[i] == !s.muted
  }

  /** One click always leaves a consistent state, and two clicks restore a
      consistent state exactly. */
  lemma ToggleTwiceRestores(s: MuteState)
    ensures MuteConsistent(Toggled(s))
    ensures MuteConsistent(s) ==> Toggled(Toggled(s)) == s
  {
    if MuteConsistent(s) {
      var t := Toggled(Toggled(s));
      assert t.tracks == s.tracks;
    }
  }

  /** Every id a `game_state` lists other than the client's own ends up in
      the table once the new ones are added, the client's own id is never
      added, and exactly one id is added per new connection. */
  lemma GameStateCoversRoom(ids: seq<Sid>, self: Sid, known: set<Sid>)
    ensures var r := NewPeers(ids, self, known);
      && (forall x :: x in ids && x != self ==> x in known || x in r)
      && self !in r
      && |set x | x in r| == |r|
  {
    var r := NewPeers(ids, self, known);
    DistinctCardinality(r);
  }

  /** A sequence without repetitions has as many distinct elements as entries. */
  lemma {:induction false} DistinctCardinality(r: seq<Sid>)
    requires forall i, j :: 0 <= i < j < |r| ==> r[i] != r[j]
    ensures |set x | x in r| == |r|
  {
    if r != [] {
      var tail := r[1..];
      DistinctCardinality(tail);
      assert (set x | x in r) == (set x | x in tail) + {r[0]};
      assert r[0] !in tail;
    }
  }

  class VoiceClient {
    /** Whether the microphone is muted. */
    var muted: bool
    /** The text of the voice status element. */
    var status: string
    /** The local media stream once `getUserMedia` has granted it: the
        enabled flags of its audio tracks. */
    var localStream: array?<bool>
    /** The `peers` table. */
    var peers: map<Sid, Connection>
    /** Every signalling message emitted so far. */
    var log: seq<Signal>

    /** Connections exist only once there is a local stream: both places that
        create one first add the stream's tracks to it. */
    ghost predicate Valid()
      reads this
    {
      peers != map[] ==> localStream != null
    }

    /** The page starts unmuted, with no stream and no peers; the status
        line holds whatever the page put in it. */
    constructor (initialStatus: string)
      ensures Valid()
      ensures !muted && status == initialStatus && localStream == null && peers == map[] && log == []
    {
      muted := false;
      status := initialStatus;
      localStream := null;
      peers := map[];
      log := [];
    }

    /** `getUserMedia` resolved with `stream`. */
    method StreamAcquired(stream: array<bool>)
      requires Valid()
      modifies this
      ensures Valid()
      ensures localStream == stream
      ensures muted == old(muted) && status == old(status) && peers == old(peers) && log == old(log)
    {
      localStream := stream;
    }

    /** createPeerConnection: a new connection carrying every local track,
        stored under `peerId`, then an offer broadcast to the room. */
    method CreatePeerConnection(peerId: Sid, myRoom: Option<RoomId>)
      requires Valid() && localStream != null
      modifies this
      ensures Valid()
      ensures muted == old(muted) && status == old(status) && localStream == old(localStream)
      ensures peers == old(peers)[peerId := Fresh(localStream.Length)]
      ensures log == old(log) + [Offer(myRoom)]
    {
      peers := peers[peerId := Fresh(localStream.Length)];
      log := log + [Offer(myRoom)];
    }

    /** The `game_state` handler: without a local stream nothing happens;
        otherwise a connection is created, with its offer, for every listed
        player id other than `self` that has none yet. `ids` are the player
        ids of the payload in order. */
    method GameStateArrived(ids: seq<Sid>, self: Sid, myRoom: Option<RoomId>)
      requires Valid()
      modifies this
      ensures Valid()
      ensures muted == old(muted) && status == old(status) && localStream == old(localStream)
      ensures old(localStream) == null ==> peers == old(peers) && log == old(log)
      ensures old(localStream) != null ==>
        var added := NewPeers(ids, self, old(peers).Keys);
        && (forall k :: k in peers <==> k in old(peers) || k in added)
        && (forall k :: k in old(peers) ==> peers[k] == old(peers)[k])
        && (forall k :: k in added ==> peers[k] == Fresh(localStream.Length))
        && log == old(log) + Offers(myRoom, |added|)
    {
      if localStream == null {
        return;
      }
      ghost var made: seq<Sid> := [];
      for i := 0 to |ids|
        invariant Valid() && localStream == old(localStream) && localStream != null
        invariant muted == old(muted) && status == old(status)
        invariant made + NewPeers(ids[i..], self, peers.Keys) == NewPeers(ids, self, old(peers).Keys)
        invariant forall k :: k in peers <==> k in old(peers) || k in made
        invariant forall k :: k in old(peers) ==> peers[k] == old(peers)[k]
        invariant forall k :: k in made ==> peers[k] == Fresh(localStream.Length)
        invariant log == old(log) + Offers(myRoom, |made|)
      {
        var id := ids[i];
        NewPeersStep(ids, i, self, peers.Keys);
        if id != self && id !in peers {
          ghost var known := peers.Keys;
          CreatePeerConnection(id, myRoom);
          assert Offers(myRoom, |made| + 1) == Offers(myRoom, |made|) + [Offer(myRoom)];
          made := made + [id];
          assert peers.Keys == known + {id};
        }
      }
    }

    /** The `webrtc_offer` handler. A sender without an entry gets a new
        connection carrying every local track; without a local stream that
        step throws before the entry is stored and the handler stops. Then
        the offer is set as the remote description of the sender's
        connection and an answer goes back to the sender. */
    method OfferArrived(from: Sid, offer: Description, myRoom: Option<RoomId>)
      requires Valid()
      modifies this
      ensures Valid()
      ensures muted == old(muted) && status == old(status) && localStream == old(localStream)
      ensures from !in old(peers) && old(localStream) == null ==> peers == old(peers) && log == old(log)
      ensures from in old(peers) || old(localStream) != null ==>
        var c := if from in old(peers) then old(peers)[from] else Fresh(localStream.Length);
        && peers == old(peers)[from := c.(remote := c.remote + [offer])]
        && log == old(log) + [Answer(myRoom, from)]
    {
      if from !in peers {
        if localStream == null {
          return;
        }
        peers := peers[from := Fresh(localStream.Length)];
      }
      var pc := peers[from];
      peers := peers[from := pc.(remote := pc.remote + [offer])];
      log := log + [Answer(myRoom, from)];
    }

    /** The `webrtc_answer` handler: the answer is set as the remote
        description of the sender's connection, if there is one. */
    method AnswerArrived(from: Sid, answer: Description)
      requires Valid()
      modifies this
      ensures Valid()
      ensures muted == old(muted) && status == old(status) && localStream == old(localStream) && log == old(log)
      ensures from !in old(peers) ==> peers == old(peers)
      ensures from in old(peers) ==>
        peers == old(peers)[from := old(peers)[from].(remote := old(peers)[from].remote + [answer])]
    {
      if from in peers {
        var pc := peers[from];
        peers := peers[from := pc.(remote := pc.remote + [answer])];
      }
    }

    /** The `webrtc_ice_candidate` handler: a candidate that is present is
        added to the sender's connection, if there is one; anything else is
        dropped. */
    method CandidateArrived(from: Sid, candidate: Option<Candidate>)
      requires Valid()
      modifies this
      ensures Valid()
      ensures muted == old(muted) && status == old(status) && localStream == old(localStream) && log == old(log)
      ensures from !in old(peers) || candidate.None? ==> peers == old(peers)
      ensures from in old(peers) && candidate.Some? ==>
        peers == old(peers)[from := old(peers)[from].(candidates := old(peers)[from].candidates + [candidate.value])]
    {
      if from in peers && candidate.Some? {
        var pc := peers[from];
        peers := peers[from := pc.(candidates := pc.candidates + [candidate.value])];
      }
    }

    /** The `onicecandidate` callback of the connection to `peerId`: a
        gathered candidate is sent to that peer; the end-of-gathering event
        (no candidate) sends nothing. */
    method IceCandidateGathered(peerId: Sid, candidate: Option<Candidate>, myRoom: Option<RoomId>)
      requires Valid() && peerId in peers
      modifies this
      ensures Valid()
      ensures muted == old(muted) && status == old(status) && localStream == old(localStream) && peers == old(peers)
      ensures candidate.None? ==> log == old(log)
      ensures candidate.Some? ==> log == old(log) + [IceCandidate(myRoom, peerId, candidate.value)]
    {
      if candidate.Some? {
        log := log + [IceCandidate(myRoom, peerId, candidate.value)];
      }
    }

    /** What the mute button controls, as a value. */
    function Mute(): (s: MuteState)
      reads this, localStream
      ensures s.muted == muted && s.status == status
      ensures localStream == null ==> s.tracks == []
      ensures localStream != null ==> s.tracks == localStream[..]
    {
      MuteState(muted, status, if localStream == null then [] else localStream[..])
    }

    /** The mute button: flip the flag, update the status line, then set
        every audio track's enabled flag to the opposite of the flag. */
    method ToggleMute()
      requires Valid()
      modifies this, localStream
      ensures Valid()
      ensures localStream == old(localStream) && peers == old(peers) && log == old(log)
      ensures Mute() == Toggled(old(Mute()))
    {
      muted := !muted;
      status := "Voice: " + (if muted then "Muted" else "On");
      var stream := localStream;
      if stream != null {
        for i := 0 to stream.Length
          invariant localStream == stream && peers == old(peers) && log == old(log)
          invariant muted == !old(muted) && status == StatusText(muted)
          invariant stream[..i] == Toggled(old(Mute())).tracks[..i]
        {
          stream[i] := !muted;
        }
        assert stream[..] == stream[..stream.Length];
      }
    }
  }
}
