# A verified model of the networking, emulator and game cores

This project models, in Dafny, the parts of the repository whose correctness is hard to see:
two reliable transports and what is built on them, the session layers above, the arithmetic
and exception core of the ColdFire interpreter, cave generation with the simulation that
lives in it, and the codecs.

* **netchan-ipx** (`IpxWire`, `IpxEndpoint`, `IpxSystem`, `IpxRecovery`,
  `IpxHandshake`, `IpxUnreliable`, `IpxStale`, `IpxNetchan`). A go-back-N protocol with 16-bit serial numbers and an 8-slot window. An
  endpoint is a value with one function per call; two of them and a bag of all datagrams ever sent form the
  system whose runs the theorems are about. Unbounded counters beside the 16-bit fields make
  the serial arithmetic exact. `IpxNetchan.Netchan` is the object itself, with arrays and
  loops, each method tied to its function. `MapStream`, `MapArrival` and `MapPeers` put the
  map streaming of the game on top.
* **netchan-v2** (`V2Channel`, `V2Pool`, `V2Conn`, `V2Fragments`, `V2Receiver`, `V2Sender`,
  `V2System`, `V2Reassembly`, `V2Emission`, `V2Resend`, `V2Window`, `V2Journey`, `V2Bounds`,
  `V2Acks`, `V2Buffered`, `V2Netchan`). A selective-reorder protocol with fragments and a pool of 64 message buffers
  shared by every slot of every channel. A channel operation is a function of pool and
  channel; ownership is proved through a map from buffers to their one
  holder, which also makes the contents of other slots safe. The fields `written`, `arrived`,
  `kept` and `taken` of a channel are history and have no counterpart in the source.
* **Session layers** (`Session`, `SessionObject`, `Replay`, `Login`). Hash, X25519 and AEAD
  are symbolic terms. The attacker of `Session` controls the network and may inject whatever
  can be made from own secrets and all that was heard; that the honest keys are out of reach
  is proved.
* **ColdFire** (`CfFlags`, `CfException`, `CfEmac`). Multi-limb arithmetic through the
  condition codes, nested exceptions over stack memory, and the 48-bit accumulators.
* **Cave and simulation** (`CaveGraph`, `CaveFill`, `GameMap`, `GameWorld`). Flood fill as
  graph reachability, then what a tick does and an invariant of the running world. Random draws are parameters.
* **Codecs** (`Sha1Spec`, `Sha1Meaning`, `Sha1Stream`, `Sha1OneShot`, `WebSocket`). Two independent SHA-1
  implementations against RFC 3174, and WebSocket framing of RFC 6455.

Assumptions taken from the source and its headers: for netchan-ipx one session per object,
the same channels opened at both ends before traffic and a clock that does not wrap; for
netchan-v2 an MTU fixed before channels open, the same at both ends where two ends are
spoken of, with at most 32 fragments to a 2048-byte message.

Where the code does less than one might expect, the failing input and the exact condition
are proved:

* a netchan-ipx ack more than 2^15 numbers old is taken for a new one (`MessageLost`,
  `StaleAckLoses`);
* nc_send_next writes 12 bytes where it has checked for 8 (`ShortBuffer`, `StaysInside`), and
  with a short buffer never stops giving packets (`SendShrinksExactly`);
* a netchan-ipx server that is up does not answer a client that connects anew
  (`ReconnectUnheard`, `HandshakeRecovers`);
* netchan-v2 accepts fragments that together are longer than a buffer and moves them past
  its end (`OversizedFragments`, `V2Fragments.InsideExactly`, `PoolConserved`);
* netchan-v2 acknowledges message 0 before it has arrived (`FirstMessageLost`,
  `GivesUpExactly`), never resends what it sent when its clock read 0 (`NotBeforeItsTime`,
  `LostIsResent`), and a read into too little room leaves its bytes counted
  (`CutStaysCounted`, `BufferedExactly`);
* a login started twice can leave the client waiting for ever (`SecondStartSticks`,
  `StuckExactly`);
* a WebSocket frame whose header and length together wrap 64 bits is taken for complete
  (`WrappedLength`, `WrappedEarly`, `WebSocket.InsideExactly`);
* an unsigned EMAC product of 2^63 or more passes for a negative number (`UnsignedLost`,
  `UnsignedStepExactly`), and a saturating sum beyond 64 bits ends at the wrong limit
  (`SaturatesLow`, `SaturatesExactly`);
* a player whose connection is lost, alive or waiting, keeps the slot (`Leave`,
  `LeftWaiting`, `FreedExactly`).

`dafny verify dfyconfig.toml` checks the whole project.

## Model

| member | source | states |
|---|---|---|
| IpxSystem.InOrderDelivery | netchan-ipx/demo/netchan.c:311-404 | in every run of two endpoints over a network that loses, repeats and reorders datagrams (acks at most 2^15 and records less than 2^16 numbers old), with send buffers of any size, each reliable channel has queued exactly a prefix of what nc_write accepted, in order, none twice, and the application has read a prefix of that; both directions |
| IpxSystem.WindowInvariant | netchan-ipx/demo/netchan.c:323-375 | in every run the 16-bit counters stand for unbounded ones with base <= unsent <= next <= base + 8 and base <= peer rx <= next, across wrap-around, and slot q mod 8 still holds every message q the peer has not queued |
| IpxSystem.UnackedIsPursued | netchan-ipx/demo/netchan.c:579-580 | in every run unacknowledged data implies a record still to be sent or a running retransmit timer |
| IpxRecovery.OneRoundRecovers | netchan-ipx/demo/netchan.c:511-664 | one timeout, a full drain of nc_send_next, lossless delivery and the returned packets leave the peer with everything queued and everything acknowledged |
| IpxRecovery.RecoversFromAnyRun | netchan-ipx/demo/netchan.c:511-664 | the same from every reachable state in which both sides are connected and the receiving queues are drained, in either direction |
| IpxRecovery.SendShrinks | netchan-ipx/demo/netchan.c:511-606 | with a whole buffer, a call of nc_send_next that returns a packet lowers a bound on the packets still to come, so draining ends |
| IpxRecovery.SendShrinksExactly | netchan-ipx/demo/netchan.c:511-606 | with a buffer of any size it does so if and only if it was a control packet, an ack was due, or the first waiting message fits; otherwise empty packets come out for ever |
| IpxRecovery.RunIds | netchan-ipx/demo/netchan.c:423-464 | in every run a connected side knows its peer by the id the peer drew, and only handshake packets of the right role are on the wire |
| IpxHandshake.HandshakeRecovers | netchan-ipx/demo/netchan.c:423-464 | in every run: when the handshake timer of a connecting client runs out, one round of all its packets, the answers and the answers to those connects both ends if and only if the server has a SYNACK to send or is not, and does not by a late acknowledgement become, connected; and the timer of a server whose client is up connects both |
| IpxHandshake.ClientRecoversExactly | netchan-ipx/demo/netchan.c:617-633 | the same for any two ends that know each other, whatever was lost before |
| IpxHandshake.ServerRecovers | netchan-ipx/demo/netchan.c:617-633 | a due server timer with the client up connects both ends |
| IpxHandshake.ReconnectUnheard | netchan-ipx/demo/netchan.c:423-441 | an input that fails: a client that connects anew while its server is still up is not heard |
| IpxHandshake.ServiceExactly | netchan-ipx/demo/netchan.c:635-661 | a connection that is up is given up exactly after more than ten seconds of silence or at the thirteenth timeout of the window; a timeout rewinds the window and waits 120 ms doubled up to three times, at most a second; a second without sending makes a packet due |
| IpxHandshake.KeptAlive | netchan-ipx/demo/netchan.c:635-661 | after a second of silence the next call gives a packet, and the end that hears it stays up for ten more seconds |
| IpxHandshake.ProgressForgives | netchan-ipx/demo/netchan.c:361-375 | an acknowledgement that frees a message resets the count of timeouts and starts the timer anew, or stops it when nothing is left; any other changes neither |
| IpxHandshake.FinCloses | netchan-ipx/demo/netchan.c:492-499 | a FIN closes the end it names, in any state, and no other |
| IpxHandshake.SynBytes | netchan-ipx/demo/netchan.c:544-553 | the twelve bytes of a SYN |
| IpxUnreliable.WritesKeepNewest | netchan-ipx/demo/netchan.c:333-346 | however many unreliable messages are written, the newest four wait, in the order written |
| IpxUnreliable.UnreliableArrives | netchan-ipx/demo/netchan.c:559-606 | between connected ends, draining one into the other brings every waiting unreliable message to its channel, whole and in order, as far as the queue of eight has room, whatever reliable traffic goes with them |
| IpxUnreliable.ArrivesFromAnyRun | netchan-ipx/demo/netchan.c:559-606 | so in every reachable state with both ends connected, in either direction |
| IpxSystem.SeqAfterExact | netchan-ipx/demo/netchan.c:73-77 | inside the 2^15 range the 16-bit serial comparison decides as the comparison of unbounded numbers does |
| IpxSystem.StaleAckExact | netchan-ipx/demo/netchan.c:361-375 | the ack loop moves the base to the maximum of base and ack if and only if the ack is at most 2^15 behind: the exact limit of the freshness condition |
| IpxSystem.StaleAckLoses | netchan-ipx/demo/netchan.c:361-375 | in any state the link invariant allows, with one message under way that the peer has not queued, a DATA packet of the peer makes the sender give it up if and only if its ack is more than 2^15 old |
| IpxStale.MessageLost | netchan-ipx/demo/netchan.c:361-375 | a run that loses a message this way: handshake, a first packet of the server that stays behind, 2^15 + 1 messages written, delivered and acknowledged, one more written, and then the late packet makes the client take it for acknowledged |
| IpxEndpoint.StaysInside | netchan-ipx/demo/netchan.c:511-562 | nc_send_next writes at most buflen bytes if and only if buflen is below 8, or at least 12, or no SYN or SYNACK is due: only 8 bytes are checked for |
| IpxEndpoint.ShortBuffer | netchan-ipx/demo/netchan.c:518-553 | an input that fails: a client that has begun to connect writes 12 bytes into a buffer of 8 |
| IpxSystem.StepKeeps | netchan-ipx/demo/netchan.c:311-664 | every call, and the arrival of every datagram ever sent, keeps the link invariant between the two endpoints |
| IpxSystem.RunKeeps | netchan-ipx/demo/netchan.c:311-664 | so does every run |
| IpxSystem.WriteKeeps | netchan-ipx/demo/netchan.c:311-351 | an accepted reliable write goes into its window slot and becomes the next message of the history; a refused one changes nothing |
| IpxSystem.ReadKeeps | netchan-ipx/demo/netchan.c:296-309 | a read takes the oldest queued message of its channel and nothing else |
| IpxSystem.SendDataKeeps | netchan-ipx/demo/netchan.c:559-605 | a DATA packet carries unsent messages in order, then unreliable ones, and its ack; its bytes parse back to exactly those |
| IpxSystem.AckKeeps | netchan-ipx/demo/netchan.c:361-375 | a fresh ack sets the unbounded base to the maximum of base and ack and frees no message the peer lacks |
| IpxSystem.RelRecordKeeps | netchan-ipx/demo/netchan.c:377-398 | a reliable record is queued exactly when it is the next one and there is room, and is otherwise dropped |
| IpxSystem.FeedDataKeeps | netchan-ipx/demo/netchan.c:466-490 | a DATA packet from the peer keeps the link invariant in every connection state |
| IpxWire.ParseEncoded | netchan-ipx/demo/netchan.c:478-488 | records written by the send loops and read by the feed loop come back unchanged |
| IpxWire.DataPacketRoundTrip | netchan-ipx/demo/netchan.c:598-601 | header and records of a DATA packet read back as id, type, ack and the same records |
| IpxWire.Layout | netchan-ipx/demo/netchan.c:563-601 | each byte of a DATA packet with a record: id, type 4, zero, ack, channel, kind, number, length and payload, numbers most significant byte first |
| IpxNetchan.Netchan.constructor | netchan-ipx/demo/netchan.c:188-199 | a new endpoint is the initial state of the model |
| IpxNetchan.Netchan.Connect | netchan-ipx/demo/netchan.c:218-230 | in place: the model connect |
| IpxNetchan.Netchan.Read | netchan-ipx/demo/netchan.c:296-309 | in place: result, buffer and state are those of the model read |
| IpxNetchan.Netchan.Write | netchan-ipx/demo/netchan.c:311-351 | in place: return code and state are those of the model write, for every error path |
| IpxNetchan.Netchan.AdvanceTxBase | netchan-ipx/demo/netchan.c:364-368 | the ack loop ends and leaves the base where the model has it |
| IpxNetchan.Netchan.ProcessAck | netchan-ipx/demo/netchan.c:361-375 | in place: the model acknowledgement |
| IpxNetchan.Netchan.Deliver | netchan-ipx/demo/netchan.c:377-404 | in place: the model delivery of one record |
| IpxNetchan.Netchan.DeliverRecords | netchan-ipx/demo/netchan.c:478-488 | the record loop delivers exactly the records the packet parses to |
| IpxNetchan.Netchan.Feed | netchan-ipx/demo/netchan.c:406-505 | in place: return code and state are those of the model feed for every packet |
| IpxNetchan.Netchan.PutReliable | netchan-ipx/demo/netchan.c:563-578 | the reliable loop writes the encoding of the records the model packs, for every capacity |
| IpxNetchan.Netchan.SendNext | netchan-ipx/demo/netchan.c:511-606 | in place, for every buflen: the bytes written and the new state are those of the model send; a packet with an id needs 12 bytes of memory |
| IpxNetchan.Netchan.Service | netchan-ipx/demo/netchan.c:612-664 | in place: delay and state are those of the model timers |
| MapStream.MapArrivesIntact | netchan-ipx/demo/game_net.c:195-214 | for every interleaving of full windows, retries, chat messages, losses and repeats, a client with have_map set holds exactly the server's tiles; that these are one fixed map while the server plays on is what PlayOn and Played state |
| MapArrival.MapArrives | netchan-ipx/demo/game_net.c:195-214 | from every reachable state in which both ends are connected, the map is not out and the server has not given up, some continuation of reads, one timeout, packets both ways and streaming leaves the client with have_map set and the right tiles |
| MapStream.HandledTiles | netchan-ipx/demo/game_net.c:365-395 | after any messages that are honest chunks, chats and an end marker, every tile some chunk covered is the server's |
| MapStream.HandleExactly | netchan-ipx/demo/game_net.c:365-394 | for every message: a chunk that stays inside the map and has all its tiles puts them in place, the end marker completes the map, a welcome gives the player number, and anything else is ignored |
| MapStream.StreamUp | netchan-ipx/demo/game_net.c:199-213 | a streaming pass keeps the log of what was said covering the map up to the offset, and says the end only when all is covered |
| MapPeers.StreamEpAgrees | netchan-ipx/demo/game_net.c:195-214 | streaming on the endpoint alone and on the endpoint with its history do the same |
| MapPeers.DrainedEpAgrees | netchan-ipx/demo/game_net.c:359-395 | likewise for the client's drain |
| MapPeers.GameConn.StreamMap | netchan-ipx/demo/game_net.c:195-214 | in place: offset, mapped flag and endpoint after the loop are those of the model |
| MapPeers.GameClient.HandleMessage | netchan-ipx/demo/game_net.c:366-394 | in place: one message changes tiles, offset and flags as in the model, malformed chunks nothing |
| MapPeers.GameClient.Drain | netchan-ipx/demo/game_net.c:365-395 | the read loop ends and leaves client and endpoint as in the model |
| CaveFill.Flood | netchan-ipx/demo/game.c:80-96 | the explicit-stack fill ends, never overflows its stack, marks exactly the 4-connected region of its start and counts it |
| CaveFill.FindLargest | netchan-ipx/demo/game.c:74-102 | the scan finds a start whose region no other region exceeds, or none when there is no floor |
| CaveFill.KeepLargestRegion | netchan-ipx/demo/game.c:69-129 | what survives, with its tiles, is nothing or one region of maximum size; everything else is wall |
| CaveFill.FloorIsOneRegion | netchan-ipx/demo/game.c:104-128 | after pruning the floor is off the border and any two floor cells are connected through floor |
| CaveGraph.FloodIsRegion | netchan-ipx/demo/game.c:80-96 | a closed set grown from a start through open neighbours is exactly the set of cells a path reaches |
| GameMap.WallNeighbours | netchan-ipx/demo/game.c:51-63 | the nested loop counts the walls among the eight neighbours |
| GameMap.Smooth | netchan-ipx/demo/game.c:146-153 | one pass through the scratch map is one step of the cellular automaton |
| GameMap.GenMap | netchan-ipx/demo/game.c:131-157 | the generated map is the pruned fourth smoothing of the seeded noise, for every sequence of draws |
| GameWorld.VecToDir | netchan-ipx/demo/game.c:27-37 | the direction found points the way of the vector, and there is none exactly for the zero vector |
| GameWorld.NearestPlayer | netchan-ipx/demo/game.c:232-253 | the first living player at minimum distance, or none when nobody lives |
| GameWorld.CreatureAt | netchan-ipx/demo/game.c:299-309 | the first living creature on the cell, or none when there is none |
| GameWorld.RandomFloor | netchan-ipx/demo/game.c:159-173 | the first of the drawn cells that is floor, or failure when none of the 4000 is |
| GameWorld.World.constructor | netchan-ipx/demo/game.c:179-197 | a new world is valid on the largest region of its map and has no treasure; every player slot is vacant, and each creature stands on the first floor cell drawn for it, or is missing exactly when none of its draws is floor |
| GameWorld.World.AddPlayer | netchan-ipx/demo/game.c:199-219 | the lowest slot that is dead, without health and not waiting is filled on the first floor cell drawn, facing south, with full health, no input and no score; none when there is no such slot or no draw is floor; all others stay |
| GameWorld.World.Leave | netchan-ipx/demo/game_net.c:272-276 | a lost connection leaves its player dead with its health: if it was alive, its slot is not vacant |
| GameWorld.World.StepPlayers | netchan-ipx/demo/game.c:255-297 | one after the other each living player faces the direction of its input, stands on the next cell that way exactly when it is floor, gains 25 points exactly on treasure, which is gone, and fires from there into the first free slot exactly when the input asks for it, the cooldown is over and there is a slot; nobody else, no tile and no shot changes otherwise |
| GameWorld.World.StepShots | netchan-ipx/demo/game.c:311-343 | each living shot in turn flies up to two cells of its direction: it ends at a wall, at the first creature on its cell, which dies and gives its owner ten points, or with its range; all players together gain ten points for each creature lost |
| GameWorld.World.StepCreatures | netchan-ipx/demo/game.c:345-391 | on even ticks each living creature in turn has its turn for the nearest living player, and nothing else happens; on odd ticks nothing; creatures stay on floor, players only lose health and fall exactly when none is left |
| GameWorld.World.StepCreature | netchan-ipx/demo/game.c:352-389 | the new creatures, players and waits are those of one turn for the first living player at minimum distance, unchanged when nobody lives |
| GameWorld.TurnHunts | netchan-ipx/demo/game.c:352-389 | what a turn is: a player within one step loses a point, and with the last falls and waits 24 ticks; else the creature comes nearer by one if the straight cell is clear and never goes away, and nothing else changes |
| GameWorld.TurnMeans | netchan-ipx/demo/game.c:352-389 | a turn changes at most one creature, by a step towards a living player, or harms one player |
| GameWorld.World.Approach | netchan-ipx/demo/game.c:373-389 | which of these cells it takes is decided by what is floor and free of living creatures |
| GameWorld.World.StepRespawns | netchan-ipx/demo/game.c:393-408 | each waiting dead player counts down by one; when the count ends it is back with full health on the first floor cell drawn, and stays dead exactly when none of the draws is floor; nobody else changes |
| GameWorld.World.Tick | netchan-ipx/demo/game.c:410-418 | the whole new state: walks and shots fired, flights, creature turns on even ticks, and the countdowns, in this order, each as the steps state; a living player ends where its walk took it; the world stays valid on the same floor; and a slot that was taken is free afterwards if and only if its player was dead, the count was 1 and no draw is floor |
| GameWorld.PlayOn | netchan-ipx/demo/game.c:255-418 | after any ticks, joins, inputs and lost connections every living player, creature and shot stands inside the region map generation kept, a map without treasure is unchanged, and each command changes who has which slot as the trace says |
| GameWorld.FreedExactly | netchan-ipx/demo/game.c:393-408 | over any commands, a taken slot is free again at some moment if and only if some tick ended the wait of its dead player with no floor drawn; losing the connection never frees it |
| GameWorld.LeftWaiting | netchan-ipx/demo/game_net.c:272-276 | an input that fails: a connection lost while its player waits; the player comes back with full health and nobody to play it, and the slot is not free |
| GameWorld.Played | netchan-ipx/demo/game_net.c:251-295 | a generated world after any commands still has the tiles that were generated, and any two living things are joined by a walk over them |
| V2Conn.PoolConserved | netchan-v2/demo/netchan.c:239-267 | after any calls and any received frames no byte was written outside a buffer if and only if no frame completed a message longer than 2048 bytes; and then each of the 64 buffers is exactly once on the free stack or in one slot of one channel, active outgoing slots lie in [out_head, out_tail), and on a reliable channel bytes_in_flight is the sum of the active lengths |
| V2Conn.RunMarks | netchan-v2/demo/netchan.c:787-807 | over any calls and frames, which frames write past a buffer: exactly those that complete a message longer than it |
| V2Fragments.InsideExactly | netchan-v2/demo/netchan.c:798-807 | for fragments each accepted at its place, every move of the compaction loop stays inside the 2048 bytes if and only if their sizes add up to at most 2048 |
| V2Fragments.OversizedFragments | netchan-v2/demo/netchan.c:787-807 | an input that fails: MTU 1200 and two fragments of 2048 and 863 bytes are both accepted and the second is moved past the end |
| V2Bounds.NeverOverruns | netchan-v2/demo/netchan.c:713-839 | two connections with one MTU, in any run over the wire of the two-sided system, never write past a buffer |
| V2Conn.SoundMeans | netchan-v2/demo/netchan.c:239-267 | the holder map behind the proof says just that: free or in use, never both, in no two places |
| V2Conn.RunSound | netchan-v2/demo/netchan.c:1254-1262 | every sequence of calls and frames keeps the holder map, the rings and the byte counts, as far as the memory behind a buffer was not written |
| V2Conn.StepHolds | netchan-v2/demo/netchan.c:1415-1480 | a step of one channel that borrows from and returns to the pool leaves every other channel's holdings in place |
| V2Pool.DataOwns | netchan-v2/demo/netchan.c:713-839 | receiving any DATA frame keeps every buffer's one owner, every slot tidy, and the contents of every other slot |
| V2Pool.DeliverOwns | netchan-v2/demo/netchan.c:499-514 | so does the delivery loop, which copies each waiting message before it frees its buffer |
| V2Pool.WriteOwns | netchan-v2/demo/netchan.c:1415-1460 | a write takes one buffer into the slot at the tail, holding exactly the message, or changes no ownership, on every refusal |
| V2Pool.AckOwns | netchan-v2/demo/netchan.c:841-870 | an acknowledgement returns exactly the buffers of the slots it clears and moves the head over cleared slots only |
| V2Pool.AdvanceTidy | netchan-v2/demo/netchan.c:864-867 | the head never passes an active slot |
| V2Pool.TransmitOwns | netchan-v2/demo/netchan.c:1254-1262 | an unreliable message gives its buffer back once its last fragment is out |
| V2Pool.WriteAccounts | netchan-v2/demo/netchan.c:1454-1455 | the byte count of a reliable channel stays the sum of the active lengths after a write |
| V2Pool.AckFromAccounts | netchan-v2/demo/netchan.c:851-861 | and after an acknowledgement |
| V2Pool.RetransmitAccounts | netchan-v2/demo/netchan.c:1324-1354 | and after the retransmission timers |
| V2System.InOrderOnce | netchan-v2/demo/netchan.c:713-839 | for every run of two connections in which any sent DATA frame may arrive any number of times in any order, and other frames at will: what arrived on a reliable channel (fewer than 2^16 messages) is an in-order subsequence of what was written, the whole prefix when the queue refused nothing, and every reorder slot i holds a number with number mod 64 = i and 0 < number - recv_seq < 64; both directions |
| V2System.HappenKeeps | netchan-v2/demo/netchan.c:713-870 | every call and every arrival keeps the two-sided invariant |
| V2Receiver.DataGood | netchan-v2/demo/netchan.c:763-838 | a genuine DATA frame, whole or a fragment, early, late or repeated, keeps the receiving channel right |
| V2Receiver.DeliverGood | netchan-v2/demo/netchan.c:499-514 | the delivery loop hands over waiting messages in order and leaves only later ones waiting |
| V2Receiver.GoodExtends | netchan-v2/demo/netchan.c:1415-1460 | what the sender writes later changes nothing about what was received |
| V2Sender.ReadGood | netchan-v2/demo/netchan.c:1462-1480 | a read returns the oldest message not yet read, cut to the caller's room, and frees its buffer |
| V2Sender.WriteSends | netchan-v2/demo/netchan.c:1415-1460 | an accepted message is the one stored under its number with the right fragment count |
| V2Sender.PieceGenuine | netchan-v2/demo/netchan.c:1227-1246 | whatever slot the send loop picks, first time or again, the frame is a true fragment of the message of its number |
| V2Reassembly.Reassembles | netchan-v2/demo/netchan.c:787-834 | for every message of 1 to 2048 bytes and admissible fragment size, fragments in any order with any repeats, between any other messages, fragments and reads: nothing is handed over until the last missing one, and then exactly the message, to the queue if it is its turn or the channel is unreliable, to its reorder slot if it is up to 63 ahead |
| V2Reassembly.Collects | netchan-v2/demo/netchan.c:789-797 | while a fragment is missing, whatever else happens on the channel, all fragments that came are kept |
| V2Reassembly.WholeArrives | netchan-v2/demo/netchan.c:713-786 | a message in one DATA frame, with room for it: queued at once on an unreliable channel, queued in its turn or kept for it on a reliable one, which then owes an acknowledgement |
| V2Emission.EmitsAll | netchan-v2/demo/netchan.c:1196-1263 | from any state that calls and frames can lead to, whatever channels have acknowledgements, windows or fragments to send, calling netchan_send_next as often as something is owed puts every fragment the message still has on the wire, each with the right bytes |
| V2Emission.SendPays | netchan-v2/demo/netchan.c:1196-1263 | while any acknowledgement, window update or fragment is owed, a call of netchan_send_next pays some of it |
| V2Resend.LostIsResent | netchan-v2/demo/netchan.c:1324-1354 | from any sound state: a message of an open reliable channel whose fragments all went out at time t > 0, with fewer than five transmissions, once retransmit_ms doubled by each earlier transmission (in 32 bits, at most 1000 ms) has passed and no slot of the channel is spent: netchan_service and asking for packets put every fragment on the wire again, and the message is out once more with one transmission more |
| V2Resend.GoesOut | netchan-v2/demo/netchan.c:1227-1263 | asking for packets until nothing is owed leaves a message of a reliable channel altogether sent, stamped with the time of the calls, and its first transmission counted |
| V2Resend.NotBeforeItsTime | netchan-v2/demo/netchan.c:1324-1354 | before that time, and for ever if it went out when the clock read 0, netchan_service and any number of sends leave the message as it is, and every DATA frame of its channel is a fragment another slot had left |
| V2Resend.SilentUntilDue | netchan-v2/demo/netchan.c:1196-1354 | with nothing due and nothing owed neither the timers nor any number of sends do anything |
| V2Resend.GivenUpExactly | netchan-v2/demo/netchan.c:1337-1341 | netchan_service closes an open reliable channel if and only if some slot has had its five transmissions and waited in vain after the last; nothing more is sent on it then |
| V2Resend.ServiceServes | netchan-v2/demo/netchan.c:1324-1354 | on every channel the due slots before the first spent one are re-armed and nothing else changes |
| V2Resend.RunCounted | netchan-v2/demo/netchan.c:1247-1252 | in every run whatever has been sent has counted its transmissions, at most five |
| V2Resend.ManyOnward | netchan-v2/demo/netchan.c:1219-1263 | however often packets are asked for, every DATA frame is a fragment, with its bytes, that some slot of an open channel had left to send; slots only go forward and keep their messages |
| V2Window.ControlGoesOut | netchan-v2/demo/netchan.c:1196-1217 | asking for packets until nothing is owed puts every acknowledgement and every window update that is due on the wire, the latter with the room that is left |
| V2Window.DataIsAcked | netchan-v2/demo/netchan.c:836-838 | so whatever DATA a reliable channel hears, the last number it has counted is acknowledged, or 0 while there is none |
| V2Window.ReadIsTold | netchan-v2/demo/netchan.c:1462-1480 | and whatever is read, the sender is told the room there is |
| V2Window.WriteExactly | netchan-v2/demo/netchan.c:1415-1460 | a message of 1 to 2048 bytes is accepted if and only if the channel is not closed, the ring and the pool have space, and on an open reliable channel the unacknowledged bytes with it stay within the window; they then count it, and a refusal changes nothing |
| V2Window.AckMakesRoom | netchan-v2/demo/netchan.c:841-870 | after an acknowledgement the ring begins with a message still under way or is empty |
| V2Window.OpensBothEnds | netchan-v2/demo/netchan.c:661-698 | a channel opened at one end and heard of at the other has one number and kind, a sender and a receiver; the receiver is open, and the sender once it hears of a window, to which it then keeps |
| V2Window.CloseEnds | netchan-v2/demo/netchan.c:700-711 | a closed channel accepts and sends nothing more |
| V2Journey.FragmentsSurvive | netchan-v2/demo/netchan.c:713-839 | sender and receiver together: in any state of the two-sided system the calls put every fragment of a message on the wire, and a receiver that hears frames of it from that wire, in any order, repeated and mixed with any other frames and reads, until none is missing, hands on exactly the message |
| V2Journey.LostStillArrives | netchan-v2/demo/netchan.c:1324-1354 | a message all of whose fragments were lost: in any state of the two-sided system, once its time is up, netchan_service, the sends and a receiver that hears its fragments from the wire hand on exactly the message |
| V2Buffered.CutStaysCounted | netchan-v2/demo/netchan.c:1462-1480 | inputs that fail: a read into less room than the oldest message needs leaves what it cuts off counted |
| V2Buffered.BufferedExactly | netchan-v2/demo/netchan.c:1462-1480 | after any calls and frames recv_buffered is the bytes queued plus the bytes that reads into too little room cut off, modulo 2^32: the bytes queued if and only if the latter are 0 modulo 2^32 |
| V2Acks.ReleasedIsCounted | netchan-v2/demo/netchan.c:837-870 | in every run of two connections in which acknowledgements too come from the wire and are less than 2^15 numbers old, each message of a reliable channel (fewer than 2^16 messages) is still in its slot or counted by the receiver, except message 0 once an acknowledgement of 0 is on the wire; both directions |
| V2Acks.GivesUpExactly | netchan-v2/demo/netchan.c:841-870 | in such runs any acknowledgement on the wire, however old, makes the sender give up a message the receiver has not counted if and only if it is message 0 and the receiver has counted none, or the acknowledgement is 2^15 or more behind it |
| V2Acks.FirstMessageLost | netchan-v2/demo/netchan.c:836-861 | a run that does so, for every admissible MTU: two messages sent, the second arrives first, its acknowledgement frees the first |
| V2Acks.DataCounts | netchan-v2/demo/netchan.c:836-838 | the guard: the acknowledgement a DATA frame asks for names a counted message if and only if one was counted |
| V2Acks.AckReleases | netchan-v2/demo/netchan.c:851-861 | an acknowledgement releases exactly the numbers from 2^15 below it up to it, and those 2^15 or more above |
| V2Fragments.CompactJoins | netchan-v2/demo/netchan.c:798-807 | the compaction loop joins the fragments, wherever they end short of their places |
| V2Fragments.CompactIs | netchan-v2/demo/netchan.c:798-807 | a full set of fragments compacts to the message |
| V2Fragments.AdmissibleMeans | netchan-v2/demo/netchan.c:1444-1452 | a fragment size is admissible exactly when 2048 bytes need at most 32 fragments |
| V2Netchan.Connection.constructor | netchan-v2/demo/netchan.c:989-1001 | a new connection has all 64 buffers on its stack |
| V2Netchan.Connection.PoolTake | netchan-v2/demo/netchan.c:247-253 | in place: the model pop of the free stack |
| V2Netchan.Connection.PoolGive | netchan-v2/demo/netchan.c:255-261 | in place: the model push; the stack has room for every buffer returned |
| V2Netchan.Connection.RecvEnqueue | netchan-v2/demo/netchan.c:479-497 | in place: the model enqueue with its three refusals |
| V2Netchan.Connection.DeliverReordered | netchan-v2/demo/netchan.c:499-514 | the loop ends and does what the model does |
| V2Netchan.Connection.FragFor | netchan-v2/demo/netchan.c:520-550 | in place: the slot found or allocated is the model's |
| V2Netchan.Connection.CompactAt | netchan-v2/demo/netchan.c:798-807 | the compaction loop in place on its buffer, inside its bounds, for fragments that add up to at most 2048 bytes |
| V2Netchan.Connection.ProcessData | netchan-v2/demo/netchan.c:713-839 | in place: pool and channel after a DATA frame are those of the model, unless it completes a message longer than a buffer |
| V2Netchan.Connection.ProcessAck | netchan-v2/demo/netchan.c:841-870 | in place: likewise for an acknowledgement |
| V2Netchan.Connection.Feed | netchan-v2/demo/netchan.c:894-945 | in place: every modelled frame keeps the connection valid and does what the model does, with the same exception |
| V2Netchan.Connection.Open | netchan-v2/demo/netchan.c:1363-1387 | in place: likewise for opening a channel |
| V2Netchan.Connection.Close | netchan-v2/demo/netchan.c:1389-1395 | in place: likewise for closing one |
| V2Netchan.Connection.ChanWrite | netchan-v2/demo/netchan.c:1415-1460 | in place: result and state of a write |
| V2Netchan.Connection.ChanRead | netchan-v2/demo/netchan.c:1462-1480 | in place: result and state of a read |
| V2Netchan.Connection.NextToSend | netchan-v2/demo/netchan.c:1120-1130 | the ring scan returns the first slot that still has a fragment to send |
| V2Netchan.Connection.Send | netchan-v2/demo/netchan.c:1196-1263 | in place: the frames emitted and the new state are those of the model |
| V2Netchan.Connection.Service | netchan-v2/demo/netchan.c:1324-1354 | in place: the retransmission loop re-arms, backs off and gives up as the model does |
| Session.KeyAgreement | netchan-auth/demo/nc_crypto.c:115-207 | for every mix of identity keys and an equal pre-shared key the two roles derive the same session id and crossed, distinct keys |
| Session.SidBinds | netchan-auth/demo/nc_crypto.c:115-207 | equal session ids mean equal ephemeral and identity keys, shared secrets and pre-shared key |
| Session.LowOrderRefused | netchan-auth/demo/nc_crypto.c:146-165 | a degenerate peer key fails the session and no key is derived from it |
| Session.NothingForgedOrRepeated | netchan-auth/demo/nc_crypto.c:274-389 | in every run from before the first HELLO, against an attacker who may inject whatever can be made from own secrets, all that was heard, X25519, hashing and sealing: nothing is opened twice, no counter is used twice under one key, and under a key the attacker cannot derive everything opened was sealed by the peer, with its plaintext, and the identity shown is the peer's |
| Session.MadeIsKnown | netchan-auth/demo/nc_crypto.c:115-207 | whatever an attacker can make is known in the inductive sense: no shared secret of two honest keys, no key derived from one |
| Session.KnownIsMade | netchan-auth/demo/nc_crypto.c:115-207 | and conversely |
| Session.ExposedExactly | netchan-auth/demo/nc_crypto.c:146-207 | the keys derived from a HELLO are within the attacker's reach if and only if neither key in it is an honest one and the pre-shared key is known |
| Session.GuardedIsShut | netchan-auth/demo/nc_crypto.c:321-343 | a side with a secret pre-shared key, or that accepts honest identities only among those an attacker can show, never has a key within the attacker's reach, whatever HELLOs are injected |
| Session.ExposedHearsAnything | netchan-auth/demo/nc_crypto.c:345-389 | a side whose key is within reach delivers any plaintext the attacker likes |
| Session.UnguardedHearsAnything | netchan-auth/demo/nc_crypto.c:321-389 | from the attacker's HELLO on: an unguarded side takes it, derives keys within reach, and delivers any plaintext the attacker likes |
| Session.FooledExactly | netchan-auth/demo/nc_crypto.c:321-389 | some run from the start makes a side deliver something the other never sealed if and only if that side is not guarded |
| Session.DerivedIsFormed | netchan-auth/demo/nc_crypto.c:146-207 | keys derived from a HELLO made of well-formed values are well formed, so that what is known of them can be made |
| Session.ArriveKeeps | netchan-auth/demo/nc_crypto.c:345-389 | opening anything the attacker can bring keeps the invariant behind these |
| Session.SealKeeps | netchan-auth/demo/nc_crypto.c:274-296 | so does sealing, up to the refusal at the largest counter |
| Replay.WindowIsSet | netchan-auth/demo/nc_crypto.c:298-319 | over any sequence of counters the shifting 64-bit mask accepts exactly the nonzero ones never accepted before and above the highest less 64 |
| Replay.CheckRefines | netchan-auth/demo/nc_crypto.c:298-319 | one counter: the mask decides as the set does and goes on standing for it |
| SessionObject.CryptoSession.DeriveSession | netchan-auth/demo/nc_crypto.c:146-207 | in place: the model derivation, or -1 on a degenerate key |
| SessionObject.CryptoSession.ConsumeHello | netchan-auth/demo/nc_crypto.c:321-343 | in place: the model treatment of a HELLO |
| SessionObject.CryptoSession.Seal | netchan-auth/demo/nc_crypto.c:274-296 | in place: refused exactly without keys, without room or at the largest counter; else the counter is a new one and every peer with the crossed key that has not seen it opens the packet to this plaintext |
| SessionObject.CryptoSession.ReplayCheck | netchan-auth/demo/nc_crypto.c:298-319 | in place: accepted exactly when the counter is nonzero, not taken before and above the highest taken less 64, and then taken |
| SessionObject.CryptoSession.Open | netchan-auth/demo/nc_crypto.c:345-389 | in place: the model open |
| Login.LoginAgrees | netchan-auth/demo/nc_auth.c:116-345 | in every run of client and server over FIFO queues, with credentials given, declined or late: client OK implies server OK for the same user, client DENIED implies server not OK, server OK implies an accepted credential of that user, and each offered method is tried at most once |
| Login.NeverStuck | netchan-auth/demo/nc_auth.c:116-345 | a conversation started once is decided for the client as soon as nothing is under way and nothing is asked of it |
| Login.StuckExactly | netchan-auth/demo/nc_auth.c:116-345 | some run leaves the client waiting for ever if and only if the policy offers that user a key or a password, for every policy, session and user |
| Login.SecondStartSticks | netchan-auth/demo/nc_auth.c:256-272 | for every policy with a method for the user, a run with a second start that leaves the client waiting for ever |
| Login.HappenKeeps | netchan-auth/demo/nc_auth.c:116-345 | every event keeps the invariant behind these |
| Login.CredentialAnswer | netchan-auth/demo/nc_auth.c:274-325 | a greeted server answers a credential with OK if and only if its method is still on offer and its callbacks accept it, and otherwise with what is left |
| Login.KeyGetsIn | netchan-auth/demo/nc_auth.c:116-345 | for every policy that offers the user a key and accepts one, a conversation with it ends with both sides granted |
| Login.PasswordGetsIn | netchan-auth/demo/nc_auth.c:166-192 | likewise for a password of at most 127 bytes when no key is offered |
| Login.PasswordAfterKey | netchan-auth/demo/nc_auth.c:116-325 | likewise for a password after a key that was refused |
| Login.PasswordWithoutKey | netchan-auth/demo/nc_auth.c:116-192 | likewise for a password after the key was declined |
| Login.AdmittedExactly | netchan-auth/demo/nc_auth.c:116-345 | some conversation lets the client in if and only if the policy offers its user a method and accepts a credential of it |
| Login.AtMostSix | netchan-auth/demo/nc_auth.c:241-325 | from any client at all, whatever it sends, a server refuses at most six times and is done with the sixth, and answers nothing before the greeting |
| Login.Machine.ForClient | netchan-auth/demo/nc_auth.c:43-58 | in place: the initial client |
| Login.Machine.ForServer | netchan-auth/demo/nc_auth.c:60-73 | in place: the initial server |
| Login.Machine.TryNextMethod | netchan-auth/demo/nc_auth.c:116-135 | in place: asks for the first of key and password still on offer and takes it off, or is denied exactly when none is |
| Login.Machine.Supply | netchan-auth/demo/nc_auth.c:143-164 | in place: a key, or none |
| Login.Machine.SupplySecret | netchan-auth/demo/nc_auth.c:166-192 | in place: a password, none, or one too long |
| Login.Machine.Refuse | netchan-auth/demo/nc_auth.c:241-250 | in place: nothing new is on offer afterwards and the method refused is not, the answer says what is, and the server is denied exactly when nothing is left, at the latest at the sixth try |
| Login.Machine.Hear | netchan-auth/demo/nc_auth.c:332-345 | in place: one message at either role |
| CfFlags.SubExact | coldfire-emulator/demo/coldfire.c:223-241 | the flags of SUB.L are borrow, the exact signed difference leaving 32 bits, sign and zero |
| CfFlags.AddExact | coldfire-emulator/demo/coldfire.c:202-221 | the flags of ADD.L likewise for the sum |
| CfFlags.SubxExact | coldfire-emulator/demo/coldfire.c:1477-1493 | SUBX.L subtracts the extend bit too and clears Z only on a nonzero result |
| CfFlags.AddxExact | coldfire-emulator/demo/coldfire.c:1916-1932 | ADDX.L likewise |
| CfFlags.SubChainExact | coldfire-emulator/demo/coldfire.c:1477-1493 | SUB.L and any number of SUBX.L give the n-limb difference, with borrow, and Z for the whole |
| CfFlags.AddChainExact | coldfire-emulator/demo/coldfire.c:1916-1932 | ADD.L and any number of ADDX.L give the n-limb sum, with carry, and Z for the whole |
| CfFlags.ComparesWhole | coldfire-emulator/demo/coldfire.c:260-286 | after the subtraction chain every condition code answers the n-limb unsigned or signed comparison, and N and V are those of the n-limb difference |
| CfFlags.AddsWhole | coldfire-emulator/demo/coldfire.c:1916-1932 | the sum modulo 2^(32n), its carry-out, whole-result zero, sign, and overflow exactly when the signed n-limb sum leaves its range |
| CfFlags.Cpu.Sub | coldfire-emulator/demo/coldfire.c:223-241 | in place, after SUB.L: the register holds the difference modulo 2^32 and the flags say of the exact difference what they should |
| CfFlags.Cpu.Add | coldfire-emulator/demo/coldfire.c:202-221 | in place, after ADD.L: likewise for the sum |
| CfFlags.Cpu.Subx | coldfire-emulator/demo/coldfire.c:1477-1493 | in place, after SUBX.L: likewise with the extend bit, Z only ever cleared |
| CfFlags.Cpu.Addx | coldfire-emulator/demo/coldfire.c:1916-1932 | in place, after ADDX.L: likewise |
| CfException.NestingRestores | coldfire-emulator/demo/coldfire.c:311-359 | from reset, after any work and exceptions, any properly nested exceptions and RTEs that fit the stack, from either mode, restore SR, PC, A7 and the shadow stack pointer, and no frame of the whole nest fails the format check |
| CfException.ExecPreserves | coldfire-emulator/demo/coldfire.c:998-1019 | one exception, whatever its handler does to registers, SR, A7 and memory outside the frames, and its RTE, with every frame inside it |
| CfException.ExecAllIs16 | coldfire-emulator/demo/coldfire.c:311-359 | the status register keeps to 16 bits through work, exceptions and RTEs |
| CfException.EntryFrame | coldfire-emulator/demo/coldfire.c:341-358 | the frame that entry pushes, and what it leaves of memory |
| CfException.EntryHandler | coldfire-emulator/demo/coldfire.c:354-358 | where the handler starts: the big-endian long word at VBR + 4 * vector, as it was before entry unless the frame lies over it; the processor runs |
| CfException.FormatFields | coldfire-emulator/demo/coldfire.c:348-352 | the format word: 4 in the top four bits, the fault status of an access error in bits 11 and 10, the vector in bits 9 to 2, nothing else |
| CfException.EntryStatus | coldfire-emulator/demo/coldfire.c:335-339 | entry sets S, clears T and keeps every other status bit |
| CfException.DoubleFault | coldfire-emulator/demo/coldfire.c:321-329 | an exception during entry halts the processor and touches nothing else |
| CfException.RteReturns | coldfire-emulator/demo/coldfire.c:998-1019 | RTE on an intact frame |
| CfException.RteRefused | coldfire-emulator/demo/coldfire.c:998-1019 | RTE in user mode traps with vector 8, and on a frame of another format with vector 14; the frame tells where from |
| CfException.Cpu.Raise | coldfire-emulator/demo/coldfire.c:311-359 | in place: the model exception entry, double fault included |
| CfException.Cpu.ReturnFromException | coldfire-emulator/demo/coldfire.c:998-1019 | in place: the model RTE with its two error exits |
| CfEmac.RunIsSum | coldfire-emulator/demo/coldfire.c:1680-1742 | any MAC and MSAC in signed wrapping mode: the accumulator stays in 48 bits and is the running sum modulo 2^48, the exact sum when PAV is still clear |
| CfEmac.UnsignedStepExactly | coldfire-emulator/demo/coldfire.c:1680-1742 | one step in unsigned wrapping mode that leaves PAV clear adds the exact term if and only if the product, doubled if scaled so, is below 2^63 |
| CfEmac.UnsignedRunIsSum | coldfire-emulator/demo/coldfire.c:1680-1742 | any MAC and MSAC of such products in that mode: the exact sum when PAV is still clear |
| CfEmac.UnsignedLost | coldfire-emulator/demo/coldfire.c:1680-1742 | an input that fails: the largest product on an empty accumulator gives 1 - 2^33 and no flag says so |
| CfEmac.SaturatesExactly | coldfire-emulator/demo/coldfire.c:1680-1742 | one step in signed saturating mode gives the nearest 48-bit value to the exact sum, and PAV says whether it differs, if and only if the sum fits 64 bits |
| CfEmac.SaturatesLow | coldfire-emulator/demo/coldfire.c:1680-1742 | an input that fails: -2^31 times itself, doubled, on an empty accumulator saturates at the least value |
| CfEmac.UnsignedSaturatesExactly | coldfire-emulator/demo/coldfire.c:1680-1742 | likewise in unsigned mode, for products below 2^63, at the limits of a signed 48-bit value |
| CfEmac.ExtensionTells | coldfire-emulator/demo/coldfire.c:1680-1742 | EV is set exactly when the result has left the low 32 bits, signed or unsigned as the mode has it, or the low 40 in fractional mode |
| CfEmac.StepAgrees | coldfire-emulator/demo/coldfire.c:1680-1742 | one step against the exact term, and the flags it leaves |
| CfEmac.SaveRestore | coldfire-emulator/demo/coldfire.c:1584-1642 | saving and restoring ACC0-3, both extension words, MASK and MACSR over any state is the identity |
| CfEmac.LoadedValue | coldfire-emulator/demo/coldfire.c:1611-1642 | a load gives the operand as two's complement, unsigned, or in fractional mode sign-extended above 40 bits, clears PAV, V and EV and sets Z and N |
| CfEmac.PartsOfAccumulator | coldfire-emulator/demo/coldfire.c:103-110 | an accumulator is its low register and its half of an extension word, the even one in the lower half |
| CfEmac.Unit.MacLong | coldfire-emulator/demo/coldfire.c:1680-1742 | in place: the model step |
| CfEmac.Unit.MoveTo | coldfire-emulator/demo/coldfire.c:1611-1642 | in place: the model load of an EMAC register |
| CfEmac.Unit.MoveFrom | coldfire-emulator/demo/coldfire.c:1580-1597 | in place: the value, put into the same register of any other unit, reads back the same |
| CfEmac.Unit.RestoreAll | coldfire-emulator/demo/coldfire.c:1611-1642 | loading a saved set into a unit in any state gives the unit that was saved |
| CfEmac.Unit.Switched | coldfire-emulator/demo/coldfire.c:1580-1642 | saving all registers, any MACs and register loads of other tasks, and loading back leaves the unit as it was |
| CfEmac.MovedReads | coldfire-emulator/demo/coldfire.c:1580-1642 | each register reads back what was moved to it |
| Sha1Stream.HashChunks | netchan-v2/demo/nc_ws.c:26-91 | init, any number of updates and final give the RFC 3174 digest of the bytes, however they are split |
| Sha1Stream.Hasher.constructor | netchan-v2/demo/nc_ws.c:49-56 | the initial state has digested nothing |
| Sha1Stream.Hasher.Block | netchan-v2/demo/nc_ws.c:26-47 | the in-place block loop is the compression function of section 6.1 of RFC 3174 |
| Sha1Stream.Hasher.Update | netchan-v2/demo/nc_ws.c:58-70 | an update appends its bytes to the message digested so far |
| Sha1Stream.Hasher.AddPadding | netchan-v2/demo/nc_ws.c:76-80 | the padding loop ends and adds the zeros of section 4 of RFC 3174 |
| Sha1Stream.Hasher.Final | netchan-v2/demo/nc_ws.c:72-91 | final returns the digest of everything fed |
| Sha1Spec.PadFits | netchan-v2/demo/nc_ws.c:76-84 | the padded length is a multiple of 64 and at most 72 bytes longer |
| Sha1Meaning.ChooseBits | netchan-v2/demo/nc_ws.c:26-47 | for every bit, rounds 0 to 19 take c or d as b says, 20 to 39 and 60 to 79 the parity, 40 to 59 the value two of three share |
| Sha1Meaning.RotateBits | netchan-v2/demo/nc_ws.c:26-47 | the rotations, bit by bit |
| Sha1Meaning.MixedBits | netchan-v2/demo/nc_ws.c:26-47 | the message schedule, bit by bit |
| Sha1Meaning.ConstantRoots | netchan-v2/demo/nc_ws.c:26-47 | the four constants are the integer parts of 2^30 times the roots of 2, 3, 5 and 10 |
| Sha1Meaning.DigestOfAbc | netchan-v2/demo/nc_ws.c:26-91 | the digest of "abc" is the one of section 7.3 of RFC 3174 |
| Sha1OneShot.OneShot | programmable-display-protocols/demo/quaoar-server.c:28-80 | the flag-driven loop ends and returns the same digest for every message |
| Sha1OneShot.FillBlock | programmable-display-protocols/demo/quaoar-server.c:37-60 | the byte loop builds the words of one block of the padded message and knows the last one |
| Sha1OneShot.MixIn | programmable-display-protocols/demo/quaoar-server.c:64-74 | the rounds on the array are the rounds of the specification |
| Sha1OneShot.BothWays | programmable-display-protocols/demo/quaoar-server.c:28-80 | both implementations, each with its own round expressions, agree for every message and every split |
| WebSocket.RoundTrip | netchan-v2/demo/nc_ws.c:265-345 | a frame built with any payload length and any mask, followed by anything, parses back to its opcode and payload and its own length |
| WebSocket.Layout | netchan-v2/demo/nc_ws.c:303-345 | the header of section 5.2 of RFC 6455, byte by byte: FIN and opcode, mask bit, length in 7, 16 or 64 bits, the shortest that holds it and most significant byte first, and the mask |
| WebSocket.MaskedLayout | netchan-v2/demo/nc_ws.c:303-345 | a payload bit is flipped exactly where the bit of its mask byte is set |
| WebSocket.WithoutFin | netchan-v2/demo/nc_ws.c:265-301 | the same frame without the FIN bit parses to the same opcode and payload, and says so |
| WebSocket.PrefixWaits | netchan-v2/demo/nc_ws.c:265-288 | no strict prefix of a built frame is taken for a frame |
| WebSocket.ChunkingIrrelevant | netchan-v2/demo/nc_ws.c:265-301 | any chunking of a stream in which no header and declared length reach 2^64 decodes to the same frames and leftover as the whole stream |
| WebSocket.InsideExactly | netchan-v2/demo/nc_ws.c:279-288 | for every buffer, parse reports a frame that reaches past the bytes received if and only if its length field is there, header plus declared length reach 2^64, and what is left of the sum is there |
| WebSocket.HeaderDecides | netchan-v2/demo/nc_ws.c:279-288 | with the whole header received, header plus declared length below 2^64 alone decides |
| WebSocket.WrappedLength | netchan-v2/demo/nc_ws.c:279-288 | an input that fails: 14 bytes declaring 2^64 - 1 are taken for a complete frame of 13 |
| WebSocket.WrappedEarly | netchan-v2/demo/nc_ws.c:279-288 | another before the header is complete: 12 bytes declaring 2^64 - 3 are taken for a frame of 11 |
| WebSocket.AnyChunking | netchan-v2/demo/nc_ws.c:265-345 | however a stream of built frames is cut up, the receiver gets exactly those frames |
| WebSocket.Stable | netchan-v2/demo/nc_ws.c:265-301 | a complete frame is not changed by what follows it |
| WebSocket.MaskedTwice | netchan-v2/demo/nc_ws.c:291-295 | masking twice with the same key is the identity |
| WebSocket.Parse | netchan-v2/demo/nc_ws.c:265-301 | in place, with the 64-bit sum of header and length: zero and an untouched buffer while incomplete; the frame with its payload unmasked and nothing else changed when it is there; and when the sum wraps, a report that reaches past the bytes received |
| WebSocket.Build | netchan-v2/demo/nc_ws.c:303-345 | in place: the encoding, or zero and an untouched buffer when it does not fit |

## Left out

- Sockets, event loops, prompts, key files, terminals, rendering and the display server's routing: input and output.
- Event queues, statistics counters, peer addresses, redirect and connection migration of both transports: they do not affect what is delivered.
- netchan-ipx clock wrap-around in the theorems about timers; FIN, which the code never sends, is modelled only where it is received.
- IpxNetchan.Netchan.SendNext: where 12 bytes are written into a shorter buffer the memory behind it is not modelled; StaysInside says when that happens.
- stream_map skips a chunk when nc_write fails with anything but NC_ERR_AGAIN; the model has that branch, and on the open channels of the theorem it is not taken.
- serialize_state and deserialize_state of the game: a fixed layout of fields, easy to state.
- The second copy of the flood loop in keep_largest_region is the same code and is modelled once; the nested row and column loops of pruning and smoothing run over the cells in the same order as one loop.
- netchan-v2 connection handshake, control-frame bytes, pings and idle timeout: frames are values, and any frame other than DATA may arrive at any time.
- V2Netchan.Connection.Send: the position after header and control frames is a parameter, because control frames are not modelled as bytes.
- V2Netchan.Connection.Service: the retransmission part only; the return value, handshake retries, idle timeout and pings are left out.
- V2Netchan.Connection.Feed: a frame that completes a message longer than a buffer is excluded, because the code then writes to memory outside it; V2Conn.RunMarks says which frames these are.
- V2Netchan.Connection.ProcessData: the same frames are excluded.
- V2Netchan.Connection.CompactAt: the same fragments are excluded.
- V2Conn.RunSound: after such a write nothing is claimed, since the memory behind a buffer is not modelled; PoolConserved carries the condition.
- V2Pool.DataOwns: likewise.
- V2System.InOrderOnce: speaks of channels with fewer than 2^16 messages, because a number names one message only up to then; on unreliable channels nothing is claimed about order.
- V2Acks.ReleasedIsCounted: speaks of channels with fewer than 2^16 messages, because a number names one message only up to then, and of acknowledgements that are not too old; what older ones do is in GivesUpExactly.
- V2Emission.EmitsAll: packets have room for the whole MTU after the header; control frames are not modelled as bytes.
- Login messages are values, not bytes; a message of wrong length is the value Junk. User names and passwords have no NUL bytes.
- The cryptographic primitives and the source of randomness: symbolic terms and parameters.
- MapArrival.MapArrives: says that there is a way on, not that every network takes it; a map that counts as out because it was streamed to a closed connection is excluded.
- Session.KeyAgreement: assumes that the byte order used to sort the two ephemeral keys tells different keys apart.
- ColdFire instruction decoding, effective addresses, word and byte sizes, the FPU, divide, hypercalls and the trace buffer; memory is flat and has no side effects.
- CfException.NestingRestores: the handlers' own work may change registers, SR, A7 and memory, but not the frames themselves, which is what fitting the stack means.
- WebSocket.Parse: bytes past the array are not modelled, so the XOR that a wrapped length causes there is not; the HTTP handshake, base64 and control-frame rules are left out.
- The RV32 tools and ELF loaders, libquaoar widgets and the earlier netchan revisions: other programs, or copies.
