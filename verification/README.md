# Key-and-door platformer: rooms, moves and voice signalling in Dafny

This project models the discrete logic of a small multiplayer platformer.
A Flask/Socket.IO server (`app.py`) keeps a table of rooms. Each room holds
its players, a key, a door that opens once the key is collected, a set of
players standing at the open door, and a randomly generated level of
platforms. When the door is open and as many sids are recorded at the door
as there are players in the room, the server announces a win and resets the
level. Two browser scripts talk to the server:

- `static/game.js` turns held keys into `move` messages, sends the lobby's
  join request, and stores what the server sends back.
- `static/voice.js` keeps a table of WebRTC peer connections, keyed by the
  other players' socket ids, and relays offers, answers and ICE candidates
  through the server.

The model is split into one module per concern:

- `protocol.dfy` (`Protocol`): the shared records, meaning platforms, the
  key, the door and players.
- `level.dfy` (`Level`): `generate_platforms`, `get_random_platform`, and the
  formulas that place the key and the door above a platform.
- `room.dfy` (`Room`): one room record as a value. It holds functions that
  define each handler's meaning on a room and the room invariant with its
  preservation lemmas. It also holds the imperative steps of join and move,
  proved against those functions.
- `server.dfy` (`Server`): the class `GameServer`. It owns the `rooms` table,
  the table's insertion order and a log of every emitted message. Its
  methods `Join`, `Move` and `Disconnect` are the three game handlers.
- `voice.dfy` (`Voice`): the class `VoiceClient`. It owns `muted`, the status
  text, the local stream (an array of the audio tracks' enabled flags), the
  `peers` table and a log of emitted signalling messages.
- `game.dfy` (`Game`): the class `GameClient`. It owns the `keys` table, the
  client's room, colour and nickname, the last game state and a log of
  emitted messages.

Randomness is an input. A `LevelChoice` carries the `random.randint` draws
and the two `random.choice` indices, each restricted to the range the server
draws it from. A fresh room id is an eight-hex-digit parameter. Player
positions are `real`, because the server's gravity makes them floats. Level
geometry is `int`. Python's `//` by a positive divisor is Dafny's `/`.

The voice module has no glare tie-break, no session teardown, no queue of
early ICE candidates and no per-peer negotiation states. It never removes an
entry from `peers`. It applies a candidate at once or drops it. The model
follows the code on all of these points, so none of those mechanisms appear.

## Model

| member | source | states |
|---|---|---|
| `Level.Layout` | app.py:23-32 | A level is seven platforms: the 800x50 ground at y 550 first, then per row i a 20-high platform at y 400-60i, 100 to 200 wide, inside the 800-pixel field, with the drawn x and width |
| `Level.GeneratePlatforms` | app.py:23-32 | The append loop builds exactly `Layout` of the draws, so it is a level |
| `Level.Candidates` | app.py:35 | Excluding the ground drops exactly the first platform (nothing for an empty list); otherwise every platform is a candidate |
| `Level.GetRandomPlatform` | app.py:34-36 | No platform is returned exactly when the candidate list is empty (`random.choice` raising); otherwise a candidate, never index 0 when the ground is excluded |
| `Level.KeyAbove` | app.py:55 | The new key is uncollected and rests centred (rounded down) on the top edge of its platform |
| `Level.DoorAbove` | app.py:56 | The new door is closed and stands centred (rounded down) on the top edge of its platform |
| `Level.RandomPlatformNeverGround` | app.py:34-36 | On a generated level the default pick always yields a platform, the one of row `pick`, and never the ground |
| `Level.PlacementInsideField` | app.py:55-56 | A key or door above a generated platform lies inside the field horizontally and below its top edge |
| `Room.FreshRoom` | app.py:47-59 | A created room has no players, nobody at the door, key and both flags false, door closed, the generated level, and key and door resting on the drawn non-ground platforms |
| `Room.NewPlayer` | app.py:60-70 | The n-th joiner gets `PLAYER_COLORS[n % 8]`, x = 100 + 50n, y = 500, zero velocity and on_ground |
| `Room.Joined` | app.py:60-71 | A join adds the sid (replacing its old record), leaves every other player and every other field unchanged |
| `Room.LandOn` | app.py:94-98 | One pass of the collision loop: the player lands, standing still on the platform's top edge with on_ground set, exactly when it overlaps the platform horizontally and its bottom crosses the top edge during this step (`Crosses`); otherwise it is unchanged |
| `Room.Settle` | app.py:92-98 | The collision loop as a fold over the platforms in order: the player either comes through unchanged or ends with vy 0 and on_ground set |
| `Room.SettleMissesAll` | app.py:92-98 | When the player crosses no platform's top edge, the collision loop leaves it as it was |
| `Room.SettleOutcome` | app.py:92-98 | The collision loop either leaves the player unchanged or leaves it on top of a platform it overlaps, with vy 0 and on_ground set |
| `Room.Collide` | app.py:92-98 | The loop over the platforms computes exactly the fold `Settle`, starting with on_ground cleared |
| `Room.CollectKey` | app.py:100-105 | The key ends collected iff it was, or the mover is within 40 of it on both axes; collecting sets both key flags and both door flags; otherwise nothing changes |
| `Room.DoorZone` | app.py:107-111 | The mover is at the door iff the door is open and it is within 40 horizontally and 60 vertically; every other sid keeps its membership; nothing else changes |
| `Room.Reset` | app.py:116-124 | The replay reset is a fresh level with key and flags false, door closed and nobody at the door, with the players kept as they are |
| `Room.Moved` | app.py:80-98 | The mover keeps sid, nickname and colour, takes the new x and vx, and its y, vy and on_ground are the collision loop's outcome |
| `Room.BeforeWinCheck` | app.py:80-111 | Before the win check, the only player record that changed is the mover's, which is `Moved`; the key ends collected iff it was or the moved player is within 40 of it on both axes, and a new collection opens the door and sets both flags, while otherwise key flag, door and door flag are kept; the mover is at the door iff the door is now open and it is within 40 horizontally and 60 vertically; every other sid keeps its at-door membership; the platforms and the key and door positions are kept |
| `Room.WinFires` | app.py:113 | The win check exactly as written: the door is open, the at-door set has as many sids as the room has players, and the room is not empty |
| `Room.MoveRoom` | app.py:113-124 | An accepted move wins iff the win check holds after the door zone; a win resets the room, otherwise the room is the state before the check; players are kept either way |
| `Room.NewLevel` | app.py:48-56 | Generating platforms and placing key and door builds the level parts of `FreshRoom` |
| `Room.AddPlayer` | app.py:60-71 | Building the player record and storing it yields `Joined`, with the colour picked from the prior player count |
| `Room.AdvanceMover` | app.py:80-111 | The in-place steps up to the win check (new x and vx, collision loop, key, door zone) compute `BeforeWinCheck` |
| `Room.ApplyMove` | app.py:80-124 | The whole accepted move, with the win check and the reset, computes `MoveRoom` |
| `Room.FreshRoomKeepsInv` | app.py:51-59 | A created room satisfies the room invariant (flags mirror the records, key collected iff door open, at-door empty while closed, key and door on the level) |
| `Room.JoinKeepsInv` | app.py:60-71 | A join keeps the room invariant |
| `Room.CollectKeyKeepsInv` | app.py:100-105 | Key collection keeps the room invariant; the four flags change together |
| `Room.DoorZoneKeepsInv` | app.py:107-111 | The door-zone update keeps the room invariant when the mover is a player of the room |
| `Room.ResetKeepsInv` | app.py:116-124 | The reset sets all four flags false together and keeps the room invariant |
| `Room.MoveKeepsInv` | app.py:75-124 | An accepted move keeps the room invariant |
| `Room.RemoveKeepsInv` | app.py:130-132 | Removing a player together with its at-door entry keeps the room invariant |
| `Room.WinMeansEveryoneAtDoor` | app.py:113 | Under the invariant, the count-based win check holds iff the door is open, the room is non-empty and every player is at the door |
| `Room.RemovePlayerAsWritten` | app.py:130-132 | Disconnect as written: the player leaves the players map, and every other field, at_door included, is unchanged |
| `Room.RemovePlayer` | app.py:130-132 | Corrected disconnect: the player leaves the players map and the at-door set; nothing else changes |
| `Room.StaleDoorWinAsWritten` | app.py:107-132 | A concrete valid room where, after the as-written disconnect, the remaining player's move far from the door makes `MoveRoom` report a win for every level the reset may draw, although that player is not at the door; after the corrected disconnect the same move does not win |
| `Server.JoinTarget` | app.py:45 | A join goes to the requested room when it is a non-empty string, otherwise to the fresh id; never to the empty name |
| `Server.Accepts` | app.py:78 | The guard of handle_move: the room field is present and non-empty, names a room in the table, and the mover is one of that room's players |
| `Server.FirstRoomWith` | app.py:129-134 | Finds no room iff no room in the table has the sid; otherwise the first room in insertion order that has it |
| `Server.FirstRoomWithIsFirst` | app.py:129-134 | A room holding the sid, with no earlier room holding it, is the one disconnect picks |
| `Server.ReplaceKeepsTableInv` | app.py:11 | Replacing one room record with one that keeps the room invariant keeps the table invariant |
| `Server.InsertKeepsTableInv` | app.py:47-51 | Inserting a new room at the end of the insertion order keeps the table invariant |
| `Server.GameServer.constructor` | app.py:11 | The server starts with an empty room table |
| `Server.GameServer.Join` | app.py:42-73 | Only the target room changes: it is created fresh if absent and the player is joined; the order gains the id only when new; `room_joined` to the joiner with the colour, then `game_state` |
| `Server.GameServer.Move` | app.py:75-125 | A move with a missing or unknown room, or from a non-member, changes and emits nothing; otherwise only that room becomes `MoveRoom`'s result, emitting `win` when it won, then `game_state` |
| `Server.GameServer.Disconnect` | app.py:127-134 | The first room in insertion order holding the sid loses it, and one `game_state` goes out; the record stays even if empty; with no such room nothing changes |
| `Voice.NewPeers` | static/voice.js:28-33 | The ids a `game_state` opens connections to are exactly the listed ids other than self that are not yet in `peers`, each once |
| `Voice.GameStateCoversRoom` | static/voice.js:28-33 | After a `game_state`, every listed id other than self is in `peers`, self is never added, and there is one new entry per added id |
| `Voice.StatusText` | static/voice.js:111 | The status reads `Voice: Muted` iff muted and `Voice: On` iff not |
| `Voice.Toggled` | static/voice.js:109-115 | A click flips the flag, sets the status to match, and sets every track's enabled to the opposite of the new flag |
| `Voice.ToggleTwiceRestores` | static/voice.js:109-115 | One click always leaves status and tracks consistent with the flag; two clicks restore a consistent state exactly |
| `Voice.VoiceClient.constructor` | static/voice.js:4-6 | The page starts unmuted, with no stream, no peers and nothing sent |
| `Voice.VoiceClient.StreamAcquired` | static/voice.js:12-14 | `getUserMedia` resolving stores the stream and changes nothing else |
| `Voice.VoiceClient.CreatePeerConnection` | static/voice.js:36-60 | A fresh connection with every local track is stored under the peer id, and one offer goes to the room with no recipient |
| `Voice.VoiceClient.GameStateArrived` | static/voice.js:26-34 | Without a stream nothing changes; otherwise exactly the `NewPeers` ids get fresh connections, existing entries are untouched, and one offer is emitted per new entry |
| `Voice.VoiceClient.OfferArrived` | static/voice.js:62-89 | An unknown sender with no stream throws and changes nothing; otherwise the sender's entry is created or reused, the offer is set as its remote description, and one answer goes to the sender |
| `Voice.VoiceClient.AnswerArrived` | static/voice.js:91-97 | An answer applies only to an existing entry; otherwise nothing changes |
| `Voice.VoiceClient.CandidateArrived` | static/voice.js:99-107 | A candidate is added only when the sender has an entry and the candidate is present; otherwise nothing changes |
| `Voice.VoiceClient.IceCandidateGathered` | static/voice.js:39-43 | A gathered candidate is sent to that connection's peer; the end-of-candidates event sends nothing |
| `Voice.VoiceClient.ToggleMute` | static/voice.js:109-115 | The track loop leaves flag, status and tracks equal to `Toggled` of the old ones; peers and log are unchanged |
| `Game.Velocity` | static/game.js:60-62 | vx is -5 iff only left is held, 5 iff only right is held, and 0 iff both or neither are held |
| `Game.MoveFor` | static/game.js:58-65 | sendMove emits nothing iff no room is joined; otherwise exactly one move for that room whose vx is `Velocity` of the held keys (so in {-5, 0, 5}) and whose jump is set iff space is held |
| `Game.Trim` | static/game.js:77-78 | `trim` yields the slice after the leading white space that has only white space after it and neither starts nor ends with white space |
| `Game.TrimBlank` | static/game.js:79 | A trimmed input is empty iff it is all white space |
| `Game.TrimIdempotent` | static/game.js:77-78 | Trimming a trimmed string changes nothing |
| `Game.GameClient.constructor` | static/game.js:8-16 | The client starts with no room, colour or nickname, no held keys, nothing to draw and no win |
| `Game.GameClient.SendMove` | static/game.js:58-65 | Building vx step by step and sending it appends exactly `MoveFor` of the room and keys; nothing else changes |
| `Game.GameClient.KeyDown` | static/game.js:67-70 | The pressed key becomes held, no other key entry changes, then one `MoveFor` is sent |
| `Game.GameClient.KeyUp` | static/game.js:71-74 | The released key becomes not held, no other key entry changes, then one `MoveFor` is sent |
| `Game.GameClient.JoinClicked` | static/game.js:76-81 | A blank nickname sends nothing; otherwise one `join_room` with the trimmed nickname and room |
| `Game.GameClient.RoomJoined` | static/game.js:83-89 | The room, colour and nickname become the payload's; nothing else changes |
| `Game.GameClient.GameStateArrived` | static/game.js:91-98 | Players, key, door and platforms become the payload's, and the win message is cleared |
| `Game.GameClient.WinArrived` | static/game.js:100-104 | The win message is shown; nothing else changes |

## Left out

- The velocity and gravity integration of `handle_move` (app.py:83-90) is left out. It is floating-point arithmetic on client-supplied values. The mover's integrated position and velocity are an input (`Motion`), and the model runs from the collision loop on.
- Floats are not modelled: positions and velocities are exact reals.
- `os.urandom`, `random.randint` and `random.choice` are parameters restricted to their ranges, not generators.
- Socket.IO room membership is not modelled: `join_room`, `leave_room` and the recipients of each emit. `room_joined` is logged with its recipient sid, room, nickname and colour; `game_state` and `win` are logged with their target room only. The `game_state` payload is not logged, because it is the room record the log entry names.
- The Flask route, the server start and the three WebRTC relay handlers (app.py:38-40, 147-170) only forward payloads, so they are not modelled.
- `getUserMedia` is the `StreamAcquired` event. The delayed `voice_ready` emit (static/voice.js:15-22, 117-122) is timer plumbing and is not modelled.
- `RTCPeerConnection` is an opaque record of what was applied to it. The model leaves out description creation, `setLocalDescription`, a failing `setRemoteDescription` or `addIceCandidate`, the `ontrack` audio elements (static/voice.js:44-53, 72-81) and the interleaving of the `await`s. The offer and the answer are emitted in the same step that creates or updates the entry.
- A candidate payload that is missing or falsy (`null`, `undefined`, the empty string) is `None`, so `Candidate` is a non-empty string.
- `addTrack` shares track objects with the stream. A connection records only how many tracks it received, so the model does not show that muting also affects tracks already added to connections.
- `drawGame`, the 60 FPS redraw, and the lobby and game display switches (static/game.js:21-56, 84-85, 107) are UI and are not modelled. So are the `alert` on a blank nickname and the 2-second timer that hides the win message (static/game.js:103).
- Room records are values in the table, reassigned by each handler, not objects updated in place. No other code holds a reference to a room record, so nothing observable depends on aliasing.
- `Server.GameServer.Disconnect`: uses the corrected removal `Room.RemovePlayer`, which also drops the sid from `at_door`. The code as written (app.py:132) leaves it there. That version is `Room.RemovePlayerAsWritten`; see Findings.

## Findings

| source | as written | input that shows it | evidently intended | confidence | as-written member | corrected member |
|---|---|---|---|---|---|---|
| app.py:132, app.py:113 | Disconnect deletes the player but leaves its sid in `at_door`. The win check compares the size of `at_door` with the number of players. | A is at the open door and B is far away. A disconnects. B then moves without reaching the door: `at_door` is {A}, the players are {B}, both sizes are 1, and the win fires. | The win fires only when every player present is at the door. Disconnect should also discard the sid from `at_door`. | not executed | `Room.RemovePlayerAsWritten`, `Room.StaleDoorWinAsWritten` | `Room.RemovePlayer`, `Room.WinMeansEveryoneAtDoor` |
