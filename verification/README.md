# Verified models of the dungeon generator, the ciphers, the save codec and the agent server

Dafny models of the parts of this repository where the most can go wrong, each proved against what it is for.
`dafny verify dfyconfig.toml` checks them all.

- **Dungeon** (`Walks`, `DungeonMap`, `PassageNumbers`, `Dungeon`): Rogue's level generator as a class `Level` that
  places rooms, grows a spanning graph of corridors, digs them cell by cell and numbers passages by flood fill. A
  finished level has one connected graph of nine rooms, unbroken corridors that cross no room, and passage numbers that
  agree exactly on connected cells. Luck is a draw that can come out any way; a loop that ends only with luck spends
  `patience`, and the only way not to finish is to have spent it all.
- **DES** (`DesBits`, `DesTables`, `DesStandard`, `DesRefinement`, `Des`, `DesSboxes`, `DesAnswers`, `DesKeyAnswers`): the
  table-driven cipher with its cached schedule and salt as a class `Cipherer`, proved equal to the bit-level cipher of
  FIPS PUB 46-3 (with the salt swap of crypt), which is proved to invert itself and to give published answers; they and
  the design criteria of the S-boxes leave no table entry room to be off. Words are sequences of 32 bits.
- **Save files** (`SaveCipher`, `SaveStream`, `SaveRecords`, `SaveHeap`, `SaveWrite`, `SaveRead`, `SaveLevel`,
  `SaveRoundTrip`): encrypted writes, typed readers and writers, linked lists written with indices for pointers and
  rebuilt in two passes. Saving and restoring a level is a heap isomorphism exactly if no thing was in two lists; the
  few pointers that do not come back are listed exactly.
- **Streaming and fan-out** (`Broadcaster`, `Interviewer`, `StreamAccumulator`, `StreamRoundTrip`, `Generate`,
  `SseParser`, `Retry`): lock-protected methods as atomic steps with invariants over every interleaving, an accumulator
  that refines a meaning of event lists and gives back what was sent, streaming generation that simulates plain
  generation, and a parser that undoes printing.
- **Texts** (`GoStrings`, `PatchApply`, `PatchParser`, `DotComments`, `DotLexer`, `DotJoin`): patches and DOT sources.
- **The agent loop** (`Session`, `SessionPrints`, `SessionHistory`, `SessionRequests`): one input worked off in rounds,
  three repeat counters refined to runs of equal fingerprints, and the shape of the history, and of the messages sent,
  at every request of every conversation.

Methods keep the loops and branches of the code and are proved against functions that say what comes out; the lemmas
are about those functions.

Where the code does not do what one would like, the model follows the code, and a lemma says exactly when it does:

- `SaveRoundTrip.CopyIsOneToOne`: two monsters that shared a pack would come back with a pack each.
- `SaveRoundTrip.PlayerDestIsCopied`: a target of the player that is a floor object is lost, because the player is read
  before the floor objects are. This is a fact about the codec: no code of the game gives the player a target.
- `Broadcaster.DrainedClient` (with a run in `Broadcaster.SlowClientSeesDone`): the done frame means that nothing was
  missed exactly for clients never dropped.
- `Interviewer.PostIsReturnedExactly` (with a run in `Interviewer.AcceptedYetTimedOut`): an accepted answer can be
  lost exactly if the timer has fired or somebody has cancelled by the time it is accepted, or does before it is taken.
- `PatchApply.PatchUndone` (with a patch in `PatchApply.InverseMayGoAstray`): an inverted patch can go astray.
- `DotJoin.CommentIsBlankExactly` (with a text in `DotComments.CommentsJoinNeighbours`): a comment does not separate what
  would join without it.
- `SessionHistory.RequestsAreLegalExactly`, `SessionHistory.LegalUntilAGuardStops`: the loop warning stands between calls
  and their answers, calls without an id are answered under another, and after a guardrail return every later request
  of the session carries unanswered calls.

## Model

| member | source | states |
|---|---|---|
| `Dungeon.Rnd` | demo/rogue/original-rogue/main.c:185-189 | Any value below the range, and 0 for the empty range; no draw can be foreseen |
| `Dungeon.Level.DoRooms` | demo/rogue/original-rogue/rooms.c:31-114 | Every room fits its own box of the 3x3 grid, at most three rooms are gone, and no exits are on record; only spent patience can keep it from finishing |
| `Dungeon.Level.MarkGone` | demo/rogue/original-rogue/rooms.c:52-57 | Up to three rooms are marked as gone, and no others |
| `Dungeon.Level.PlaceAll` | demo/rogue/original-rogue/rooms.c:58-114 | Every room is placed in its own box, and gone rooms stay gone |
| `Dungeon.Level.PlaceGone` | demo/rogue/original-rogue/rooms.c:70-84 | A gone room lands strictly inside its box, at the first try: the retry in the code is never taken |
| `Dungeon.Level.PlaceRoom` | demo/rogue/original-rogue/rooms.c:85-114 | An ordinary room or maze fits its box with a free line and column, off the top line |
| `Dungeon.Level.RndRoom` | demo/rogue/original-rogue/new_level.c:106-116 | The room returned is not gone |
| `DungeonMap.InBox` | demo/rogue/original-rogue/rooms.c:62-114 | No cell of a legally placed room, gone or not, leaves its box, which ends with a free line and column |
| `DungeonMap.RoomBetween` | demo/rogue/original-rogue/passages.c:163-220 | Between the exit of one room and the entry of its neighbour below or to the right there is always at least one line, so the single turn always happens |
| `DungeonMap.CorridorAvoidsRooms` | demo/rogue/original-rogue/passages.c:163-264 | No cell a corridor digs lies in any room that is there |
| `DungeonMap.GoneAvoidsRooms` | demo/rogue/original-rogue/passages.c:226-233 | The passage square drawn for a gone room lies in no other room |
| `Dungeon.DigArrives` | demo/rogue/original-rogue/passages.c:237-266 | From any legal exit, distance and turn, the digging loop ends right next to the entry and stays on the map, so the mismatch warning is dead |
| `Dungeon.Level.Dig` | demo/rogue/original-rogue/passages.c:237-260 | Exactly the cells of the bent path are dug, each as plain or hidden passage, and nothing else changes |
| `Dungeon.Level.Putpass` | demo/rogue/original-rogue/passages.c:274-284 | The cell becomes passage and shows as #, or from level 2 on perhaps is a hidden passage that keeps its character; nothing else changes |
| `Dungeon.Level.Door` | demo/rogue/original-rogue/passages.c:293-313 | The exit is recorded, and outside mazes the cell shows as +, or from level 2 on perhaps as the piece of wall it stands in, - on the top and bottom lines and | on the sides; nothing else changes |
| `Dungeon.Level.Conn` | demo/rogue/original-rogue/passages.c:133-266 | Between any two neighbouring rooms exactly one corridor is added, whose cells outside rooms show as # unless hidden; rooms keep their places, and everything drawn before stays drawn, doors included |
| `Dungeon.CorridorAdded` | demo/rogue/original-rogue/passages.c:133-266 | Drawing one more corridor leaves every earlier corridor an unbroken run of passage between exits of its two rooms, and makes the new one such a run |
| `Dungeon.DoorAdded` | demo/rogue/original-rogue/passages.c:293-313 | A door put in the wall of a room is seen as one, or as wall if it is hidden, and spoils no other door |
| `Dungeon.DiggingKeepsDoors` | demo/rogue/original-rogue/passages.c:237-260 | Digging a corridor never runs over a door of any room |
| `DungeonMap.RoomsApart` | demo/rogue/original-rogue/rooms.c:58-114 | No cell lies in two rooms that are there |
| `DungeonMap.ConnIsNeighbours` | demo/rogue/original-rogue/passages.c:28-43 | The nine-by-nine connection table says exactly which boxes share a side |
| `DungeonMap.CandidateExists` | demo/rogue/original-rogue/passages.c:63-83 | While a room is missing from the graph, some room inside has a neighbour outside, so growing the graph cannot get stuck |
| `Dungeon.Level.PickNeighbour` | demo/rogue/original-rogue/passages.c:67-70 | A random admissible neighbour is picked, and none exactly if there is none |
| `Dungeon.TreeGrows` | demo/rogue/original-rogue/passages.c:84-98 | Joining a room outside to one inside keeps the corridors a tree that links all rooms inside, one room larger, with no pair joined twice |
| `Dungeon.Level.GrowTree` | demo/rogue/original-rogue/passages.c:59-99 | Exactly eight corridors, linking all nine rooms, each an unbroken run of passage |
| `Dungeon.MoreConnections` | demo/rogue/original-rogue/passages.c:100-123 | An extra corridor between a pair not yet joined keeps the graph connected and every pair joined at most once |
| `Dungeon.Level.AddLoops` | demo/rogue/original-rogue/passages.c:100-123 | Up to four more corridors; the graph stays connected, no pair is joined twice |
| `Dungeon.Level.DoPassages` | demo/rogue/original-rogue/passages.c:22-125 | The nine rooms form one connected graph of unbroken corridors, passages are numbered, and only spent patience can prevent it |
| `Dungeon.Level.NewLevel` | demo/rogue/original-rogue/new_level.c:23-60 | Rooms, corridors and numbers together, whatever drawing the rooms leaves on the map: placed rooms, a connected graph, at most four exits to a room, every exit numbered, numbers that agree exactly on connected cells; corridors show as # and doors as + except where hidden, and on level 1 nothing is hidden |
| `Dungeon.FourExits` | demo/rogue/original-rogue/passages.c:293-313 | A room has at most one exit for each neighbour, so never more than four of the twelve there is room for |
| `Dungeon.Level.Numpass` | demo/rogue/original-rogue/passages.c:387-424 | The flood fill terminates and gives one number to exactly the unnumbered cells connected to its start; a new number is taken at most once |
| `Dungeon.Level.Brethren` | demo/rogue/original-rogue/passages.c:416-423 | The four neighbours in turn complete the flood begun at a cell |
| `PassageNumbers.PassageExits` | demo/rogue/original-rogue/passages.c:405-413 | The exit list of a numbered passage is as long as there are doors with its number, so it fits the twelve places of the record exactly if there are at most twelve |
| `PassageNumbers.FloodNumbers` | demo/rogue/original-rogue/passages.c:386-424 | After a flood from an unnumbered cell the numbering is still right: equal numbers exactly on connected cells, all up to the new top |
| `PassageNumbers.ConnectedNumbers` | demo/rogue/original-rogue/passages.c:386-424 | In a right numbering whatever is connected to a numbered cell carries its number |
| `PassageNumbers.OneLess` | demo/rogue/original-rogue/passages.c:386-424 | Numbering a cell lowers the count of unnumbered cells, the measure of the recursion |
| `Dungeon.OneNumberPerCorridor` | demo/rogue/original-rogue/passages.c:364-379 | A corridor carries one number from end to end |
| `Dungeon.Level.Passnum` | demo/rogue/original-rogue/passages.c:364-379 | Every exit is numbered, two numbered cells carry the same number exactly when they are 4-connected through door and passage cells, there are no more numbers than corridors, so they fit the four-bit field, and only numbers change |
| `DungeonMap.FlagsAreBits` | demo/rogue/original-rogue/rogue.h:181-187 | The field updates of the model are the bit operations on the flag byte |
| `DesStandard.PermutationsInverse` | demo/rogue/original-rogue/xcrypt.c:83-88 | The initial and the final permutation undo each other on every block |
| `DesStandard.CipherUndone` | demo/rogue/original-rogue/xcrypt.c:455-569 | For every key, salt and count, count -n undoes count n, over any number of repetitions |
| `DesStandard.RoundsUndone` | demo/rogue/original-rogue/xcrypt.c:505-547 | Running the reversed key schedule over the swapped result of sixteen rounds steps back through those rounds one by one |
| `DesStandard.RepeatedUndone` | demo/rogue/original-rogue/xcrypt.c:502-548 | n repetitions undo n repetitions in the other direction |
| `DesStandard.RotationBound` | demo/rogue/original-rogue/xcrypt.c:98-100 | The key rotations add up to one per round, and two in rounds 2 to 7 and 9 to 14, 28 in all |
| `DesTables.GatherMoves` | demo/rogue/original-rogue/xcrypt.c:284-331 | A block of OR-mask tables moves exactly the input bit that feeds it to every output bit |
| `DesTables.LookupBit` | demo/rogue/original-rogue/xcrypt.c:284-331 | One table lookup sets an output bit exactly if its source bit is among the bits looked up and is set |
| `DesTables.BuildMasks` | demo/rogue/original-rogue/xcrypt.c:284-331 | The nested loops build exactly the mask tables of the permutation |
| `DesTables.FpInverts` | demo/rogue/original-rogue/xcrypt.c:259-262 | The final permutation is the inverse of the IP table |
| `DesSboxes.RowsPermute` | demo/rogue/original-rogue/xcrypt.c:115-164 | In a row of an S-box no value comes twice: two inputs with the same outer bits never give the same output |
| `DesSboxes.OneBitSpreads` | demo/rogue/original-rogue/xcrypt.c:115-164 | Changing any one of the six bits put into an S-box changes at least two of the four that come out |
| `DesSboxes.MiddleSpreads` | demo/rogue/original-rogue/xcrypt.c:115-164 | So does changing the two middle bits together |
| `DesAnswers.KnownBlocks` | demo/rogue/original-rogue/xcrypt.c:88-171 | Under a key of zeros, whatever its parity bits, four blocks become the ones published for the standard; together they look up every entry that the S-box criteria leave free |
| `DesKeyAnswers.KeyLeft` | demo/rogue/original-rogue/xcrypt.c:96-101 | The left half of the key permutation walks down the columns of the key, from the last row up |
| `DesKeyAnswers.KeyRight` | demo/rogue/original-rogue/xcrypt.c:96-101 | The right half likewise from the other side, and ends with half a column |
| `DesKeyAnswers.Schedule1` | demo/rogue/original-rogue/xcrypt.c:403-450 | The first round key of the key 133457799BBCDFF1 is the published one, and so, by lemmas of the same form, are the next |
| `DesKeyAnswers.Schedule16` | demo/rogue/original-rogue/xcrypt.c:403-450 | So is the last of the sixteen, after which the halves of the key are back where they started |
| `DesTables.FieldIsShift` | demo/rogue/original-rogue/xcrypt.c:485-492 | Shifting and masking a word reads the field of bits it is meant to |
| `DesRefinement.InitialTables` | demo/rogue/original-rogue/xcrypt.c:485-500 | Eight lookups in the IP masks compute the bit-level initial permutation of every block |
| `DesRefinement.FinalTables` | demo/rogue/original-rogue/xcrypt.c:552-567 | Eight lookups in the FP masks compute the bit-level final permutation of every block |
| `DesRefinement.ScheduleTables` | demo/rogue/original-rogue/xcrypt.c:403-450 | Key-permutation masks, rotation and compression masks compute the standard round key, whose top eight bits are clear |
| `DesRefinement.ExpandBit` | demo/rogue/original-rogue/xcrypt.c:513-523 | The shift-and-mask expansion puts the bit that the E table names in each of the 48 places |
| `DesRefinement.KeyedBit` | demo/rogue/original-rogue/xcrypt.c:528-530 | After the salt swap and the key, each of the 48 bits is the expanded bit, swapped with its partner where the salt says so, XORed with the key bit |
| `DesRefinement.RowAndColumn` | demo/rogue/original-rogue/xcrypt.c:238-242 | The reordered S-box is the standard one: outer bits the row, inner bits the column |
| `DesRefinement.PairLookup` | demo/rogue/original-rogue/xcrypt.c:248-253 | A twelve-bit lookup in a combined S-box gives both boxes of the pair |
| `DesRefinement.SubstitutedBit` | demo/rogue/original-rogue/xcrypt.c:338-348 | The P-box masks place every output bit of an S-box pair as the P table says |
| `DesRefinement.RoundTables` | demo/rogue/original-rogue/xcrypt.c:513-538 | One table-driven round equals the bit-by-bit E, S-box and P definition, for every input, salt and round key |
| `Des.BuildPairBox` | demo/rogue/original-rogue/xcrypt.c:238-253 | The combining loops build the twelve-bit table of an S-box pair |
| `Des.BuildPerms` | demo/rogue/original-rogue/xcrypt.c:259-278 | The inverted permutation tables, with unused places marked |
| `Des.BuildTables` | demo/rogue/original-rogue/xcrypt.c:225-351 | des_init compiles exactly the tables that the rounds are proved about |
| `Des.IndicesAsWritten` | demo/rogue/original-rogue/xcrypt.c:535-538 | The shifts written in the code read the four twelve-bit indices of the keyed word |
| `Des.BuildSchedule` | demo/rogue/original-rogue/xcrypt.c:403-450 | The sixteen encryption keys are the standard round keys, the decryption keys the same in reverse |
| `Des.SixteenRounds` | demo/rogue/original-rogue/xcrypt.c:505-547 | The round loop computes sixteen rounds of the standard in the direction of its keys |
| `Des.Cipherer.DesInit` | demo/rogue/original-rogue/xcrypt.c:225-351 | Tables are compiled; the key and salt the caches stand for are unchanged |
| `Des.Cipherer.SetupSalt` | demo/rogue/original-rogue/xcrypt.c:354-372 | Whatever was cached before, the salt bits are now those of this salt |
| `Des.Cipherer.DesSetkey` | demo/rogue/original-rogue/xcrypt.c:375-452 | Whatever was cached before, also the same key or the zero key first of all, the schedule is now that of this key |
| `Des.Cipherer.DoDes` | demo/rogue/original-rogue/xcrypt.c:455-569 | For any history of keys and salts, the block enciphered count times under the last of each (deciphered if negative), and 1 for count 0 |
| `Des.Cipherer.DesCipher` | demo/rogue/original-rogue/xcrypt.c:572-592 | The same with the salt set first |
| `SaveCipher.CryptTwice` | demo/rogue/original-rogue/save.c:275-334 | Reading a write back gives the bytes written: the key stream starts afresh each time |
| `SaveCipher.CryptBit` | demo/rogue/original-rogue/save.c:287-298 | Bit by bit: a byte goes out as itself XORed with the two strings at its index, each read round and round, and with the low byte of the sum of the products of the pairs before it |
| `SaveCipher.XorBit` | demo/rogue/original-rogue/save.c:287-298 | XOR by arithmetic is XOR of every bit |
| `SaveCipher.CryptAt` | demo/rogue/original-rogue/save.c:287-298 | Each byte is XORed with the key byte at its index, whatever the others are |
| `SaveCipher.Stream40` | demo/rogue/original-rogue/vers.c:15-16 | The key stream is the one that the two strings of the game make: its first forty bytes, in ten steps of four, of which this is the last |
| `SaveRecords.MarkersInFile` | demo/rogue/original-rogue/state.c:41-50 | The markers as they stand in a file, enciphered |
| `SaveRecords.LevelBegins` | demo/rogue/original-rogue/save.c:275-300 | The first four bytes of every saved level |
| `SaveCipher.Decrypt` | demo/rogue/original-rogue/save.c:307-334 | The decrypting loop |
| `SaveStream.SaveFile.EncWrite` | demo/rogue/original-rogue/save.c:275-300 | The bytes put out are the encrypted ones, up to where the file is full, and their number is returned |
| `SaveStream.LoadFile.EncRead` | demo/rogue/original-rogue/save.c:307-334 | The bytes there are, decrypted as one run |
| `SaveStream.LoadFile.RsRead` | demo/rogue/original-rogue/state.c:88-97 | After any error nothing is read; a short read is an error that lasts |
| `SaveStream.IntRoundTrip` | demo/rogue/original-rogue/state.c:100-146 | The four little-endian bytes of every 32-bit int read back as it |
| `SaveStream.ShortRoundTrip` | demo/rogue/original-rogue/state.c:303-345 | The same for 16 bits |
| `SaveStream.UIntRoundTrip` | demo/rogue/original-rogue/state.c:430-476 | The same for unsigned ints |
| `SaveStream.TextRoundTrip` | demo/rogue/original-rogue/state.c:509-568 | A string, or none, survives being written with its length and terminator |
| `SaveStream.SaveFile.RsWriteInt` | demo/rogue/original-rogue/state.c:100-120 | One int is appended to what the file holds, whether or not there is room |
| `SaveStream.LoadFile.RsReadInt` | demo/rogue/original-rogue/state.c:123-146 | The int that stands next in the file; an earlier error stays |
| `SaveStream.LoadFile.RsReadMarker` | demo/rogue/original-rogue/state.c:490-502 | Accepts exactly the marker expected, and flags any other |
| `SaveStream.LoadFile.RsReadChars` | demo/rogue/original-rogue/state.c:183-198 | A run of characters of exactly the length expected; any other length is an error |
| `SaveStream.SaveFile.RsWriteString` | demo/rogue/original-rogue/state.c:509-522 | A string with its terminator, or none, is appended |
| `SaveStream.LoadFile.RsReadNewString` | demo/rogue/original-rogue/state.c:543-568 | The string that stands next in the file, or none |
| `SaveHeap.ListSize` | demo/rogue/original-rogue/state.c:797-805 | The number of nodes of a list |
| `SaveHeap.FindItem` | demo/rogue/original-rogue/state.c:785-794 | The index of an item in a list, -1 if it is not there |
| `SaveHeap.GetItem` | demo/rogue/original-rogue/state.c:773-782 | The item at an index, none if there is none |
| `SaveWrite.WriteObjectList` | demo/rogue/original-rogue/state.c:1388-1400 | Marker, length, and each object in list order |
| `SaveWrite.WriteDest` | demo/rogue/original-rogue/state.c:1558-1602 | A chase target is coded as hero, monster, floor object or room gold with its index, in that order of search |
| `SaveWrite.WriteRoomReference` | demo/rogue/original-rogue/state.c:1269-1283 | A reference to a room by index, -1 for a passage |
| `SaveWrite.WriteThing` | demo/rogue/original-rogue/state.c:1524-1610 | Everything the record of a creature holds, then its pack |
| `SaveRead.ReadObjectList` | demo/rogue/original-rogue/state.c:1403-1439 | A fresh list with consistent next and previous links in any case, and on a good file one with the objects recorded, in order |
| `SaveRead.ReadDest` | demo/rogue/original-rogue/state.c:1646-1679 | A target is set from its code; one that names a monster is only noted for the second pass |
| `SaveRead.ReadThing` | demo/rogue/original-rogue/state.c:1613-1687 | On a good file the creature as recorded, its pack rebuilt from new things |
| `SaveRead.ReadThingList` | demo/rogue/original-rogue/state.c:1733-1768 | A new doubly linked list in any case, with packs of new things, no two of which share one; on a good file the creatures recorded, in order |
| `SaveLevel.Save` | demo/rogue/original-rogue/state.c:1966-1977 | Player, equipment, floor objects, monsters and places are written in the order of the code |
| `SaveLevel.WritePlaces` | demo/rogue/original-rogue/state.c:1846-1861 | Each place with its character, flags and the index of its monster |
| `SaveLevel.FixThingList` | demo/rogue/original-rogue/state.c:1690-1777 | The second pass points every noted target at its monster and leaves all others |
| `SaveLevel.ReadPlaces` | demo/rogue/original-rogue/state.c:1864-1879 | Each place as recorded, its monster found by index |
| `SaveLevel.Restore` | demo/rogue/original-rogue/state.c:2096-2109 | On a file that holds a level, the world becomes that level; in any case its floor, monsters and packs are new and no thing is in two lists |
| `SaveRoundTrip.DestIsCopied` | demo/rogue/original-rogue/state.c:1556-1680 | A monster's target comes back as its counterpart: the hero, the monster or floor object at the same index, or the same room's gold; no target stays none, and a target that cannot be named becomes the hero |
| `SaveRoundTrip.PlayerDestIsCopied` | demo/rogue/original-rogue/state.c:1613-1687 | The player's own target comes back except exactly when it is a floor object: floor objects are read after the player |
| `SaveRoundTrip.CreatureIsCopied` | demo/rogue/original-rogue/state.c:1524-1705 | A restored creature equals the saved one, with its pack in order; its room too unless that was a passage |
| `SaveRoundTrip.RestoredIsCopy` | demo/rogue/original-rogue/state.c:1966-2109 | The restored world is a copy of the saved one: equal lists in equal order with consistent links, equipment and places pointing to counterparts |
| `SaveRoundTrip.CopyIsOneToOne` | demo/rogue/original-rogue/state.c:1966-2109 | Between a copy without sharing and its original, pairing the nodes in the same places is a bijection exactly if nothing in the original was in two lists |
| `SaveRoundTrip.SaveToFile` | demo/rogue/original-rogue/state.c:1966-1977 | Saving succeeds exactly if the file has room, and then holds exactly the encoding of the level |
| `SaveRoundTrip.LoadFromFile` | demo/rogue/original-rogue/state.c:2096-2109 | From that encoding the level is rebuilt, every floor, pack and creature node new and in one list only |
| `SaveRoundTrip.SaveAndRestore` | demo/rogue/original-rogue/state.c:1966-2109 | Whenever the file has room the restored level is a copy made of new nodes without sharing, and the correspondence of nodes is one to one exactly if the saved level shared none |
| `Broadcaster.Broadcaster.Send` | internal/server/sse.go:31-47 | The event joins the history and every client's channel; exactly the clients with a full channel are dropped; nothing after closing |
| `Broadcaster.PartSentStep` | internal/server/sse.go:38-45 | Offering an event to one more client, in whatever order, takes the send one client further: that client gets the event, or is closed and dropped if its channel is full |
| `Broadcaster.PartSentEnds` | internal/server/sse.go:37-46 | When all clients have been offered the event, that is the send |
| `Broadcaster.Broadcaster.Subscribe` | internal/server/sse.go:53-82 | A new client starts with the whole history buffered and room for 256 more |
| `Broadcaster.Broadcaster.Unsubscribe` | internal/server/sse.go:73-80 | The client's channel is closed once, and not again if it is gone already |
| `Broadcaster.Broadcaster.Close` | internal/server/sse.go:85-94 | All channels close, no client is left |
| `Broadcaster.Broadcaster.Serve` | internal/server/sse.go:124-148 | One turn of the writer: one event taken and framed, or the end, with the done frame exactly if the broadcaster has closed |
| `Broadcaster.RunsKeepInv` | internal/server/sse.go:31-94 | The invariant holds in every state of every interleaving |
| `Broadcaster.ClientsAreOpen` | internal/server/sse.go:38-93 | Whatever is sent to or closed is open |
| `Broadcaster.DropsAreForced` | internal/server/sse.go:38-45 | A client is dropped exactly when a send finds its channel full |
| `Broadcaster.LiveClient` | internal/server/sse.go:31-72 | Received and buffered events of a client are the whole history, those of a former one a prefix |
| `Broadcaster.DrainedClient` | internal/server/sse.go:123-148 | A client that drains its closed channel without unsubscribing has everything exactly if it was never dropped; then the broadcaster has closed |
| `Broadcaster.SlowClientSeesDone` | internal/server/sse.go:129-139 | 257 events unread, then the close: the client drains, sees done, and has missed one |
| `Interviewer.WebInterviewer.AskBegin` | internal/server/interviewer.go:47-59 | A fresh id is parked |
| `Interviewer.WebInterviewer.AskEnd` | internal/server/interviewer.go:61-78 | The answer the call was woken with; a real one is the accepted one |
| `Interviewer.WebInterviewer.Post` | internal/server/interviewer.go:131-145 | Accepted exactly if the question is pending, which it then no longer is |
| `Interviewer.WebInterviewer.CancelAll` | internal/server/interviewer.go:118-127 | Every waiting call can wake up cancelled |
| `Interviewer.RunsKeepInv` | internal/server/interviewer.go:47-145 | The invariant holds in every state of every interleaving of asking, posting, timeouts, cancelling and waking |
| `Interviewer.IdsAreFresh` | internal/server/interviewer.go:49-50 | No id is ever given twice |
| `Interviewer.PendingIsUnanswered` | internal/server/interviewer.go:131-145 | A pending question's channel is empty, so the already-answered branch is dead |
| `Interviewer.AcceptedOnce` | internal/server/interviewer.go:131-145 | A step accepts an answer only for a question without one, and never replaces it |
| `Interviewer.AcceptedForever` | internal/server/interviewer.go:47-145 | An accepted answer stays the only one over any later run, and a call that returns a real answer returns it |
| `Interviewer.RealAnswersWerePosted` | internal/server/interviewer.go:47-145 | Every accepted answer was posted earlier, while the question was pending |
| `Interviewer.AcceptedYetTimedOut` | internal/server/interviewer.go:61-78 | A run in which an answer is accepted and the call still times out |
| `Interviewer.HoldingStep` | internal/server/interviewer.go:70-77 | A step leaves an accepted answer waiting or hands it over; it can lose it exactly if the timer has fired or somebody has cancelled; taking the answer is always possible |
| `Interviewer.AcceptedIsReturnedExactly` | internal/server/interviewer.go:47-145 | At any time after an answer was accepted, the call returns it in every continuation in which neither its timer nor a cancellation comes before it wakes up, exactly if it has taken it already or neither has come so far |
| `Interviewer.PostIsReturnedExactly` | internal/server/interviewer.go:47-145 | For every accepted post, also one that comes when the call has already woken: its answer is returned in every such continuation exactly if the timer has not fired and nobody has cancelled by then |
| `Interviewer.RiskLoses` | internal/server/interviewer.go:70-77 | If one has come, the very next step can lose the answer |
| `StreamAccumulator.StreamAccumulator.Process` | internal/llm/stream_accumulator.go:47-103 | After any list of events the accumulator holds exactly their meaning: parts in first-seen order, texts, calls, finish, and before the end a partial equal to the response built now |
| `StreamAccumulator.StreamAccumulator.BuildResponse` | internal/llm/stream_accumulator.go:126-175 | The response is the meaning of the events so far |
| `StreamAccumulator.TextLog` | internal/llm/stream_accumulator.go:177-188 | After a text event there is exactly one entry for each text id mentioned so far, and its part is logged once, in first-seen order |
| `StreamAccumulator.StreamAccumulator.EnsureToolCall` | internal/llm/stream_accumulator.go:190-212 | One entry per call id, nameless calls numbered |
| `StreamAccumulator.LogMore` | internal/llm/stream_accumulator.go:214-221 | Recording the part an event mentions makes the log the parts of all events so far, in first-seen order, each once |
| `StreamAccumulator.TextCollected` | internal/llm/stream_accumulator.go:52-59 | A text event adds its delta to its own text and to nothing else |
| `StreamAccumulator.CallCollected` | internal/llm/stream_accumulator.go:60-87 | A tool event updates its own call and no other |
| `StreamAccumulator.FinishCollected` | internal/llm/stream_accumulator.go:88-102 | A finish sets reason and usage, and other events change nothing |
| `StreamAccumulator.PartsDiffer` | internal/llm/stream_accumulator.go:214-221 | No part appears twice |
| `StreamAccumulator.PartsAreMentioned` | internal/llm/stream_accumulator.go:214-221 | The parts are exactly those some event mentions |
| `StreamAccumulator.PartsGrow` | internal/llm/stream_accumulator.go:214-221 | Parts keep the order in which they were first seen |
| `StreamAccumulator.EndAddsNothing` | internal/llm/stream_accumulator.go:79-87 | An end event after deltas does not double the arguments |
| `StreamAccumulator.KeysDiffer` | internal/llm/stream_accumulator.go:214-221 | The string keys of different parts differ |
| `GoStrings.DecimalReads` | internal/llm/stream_accumulator.go:190-199 | A decimal, as used in made-up ids, is all digits, has no zero in front, and is read back as its number |
| `StreamAccumulator.SilentTextShowsNothing` | internal/llm/stream_accumulator.go:52-59 | A text event without a delta leaves the response as it was, so the stored partial need not change |
| `StreamRoundTrip.StreamArrives` | internal/llm/stream_accumulator.go:131-156 | Parts sent one after the other as a start, two deltas cut anywhere, and for calls an end that repeats everything, are collected in order, each once and whole |
| `StreamRoundTrip.StreamRoundTrip` | internal/llm/stream_accumulator.go:41-168 | A response sent like that and then finished comes out as it was: same parts in the same order, a call without a type as a function, the finish reason and the usage |
| `Generate.ExecuteToolCalls` | internal/llm/generate.go:263-306 | In whatever order the calls finish, results stand in call order, one per call, each with its call's id and name |
| `Generate.Generate` | internal/llm/generate.go:143-230 | The loop is the recursive definition: requests, steps, reason to stop and final reply |
| `Generate.ToolCalls` | internal/llm/types.go:305-313 | The loop over the parts collects the calls |
| `Generate.CallsJoin` | internal/llm/types.go:305-313 | The calls of a reply put together from two are the calls of the first and then of the second |
| `Generate.CallAt` | internal/llm/types.go:305-313 | Every call part is among the calls, at the number of call parts before it |
| `Generate.CallHasPart` | internal/llm/types.go:305-313 | Every call is a call part of the reply |
| `Generate.FindIsLast` | internal/llm/generate.go:233-257 | Of several tools with one name the last is found |
| `Generate.StopsExactly` | internal/llm/generate.go:182-226 | The loop goes on exactly if the reply makes a call, none of its calls is for a passive tool, some tool is active and rounds are left |
| `Generate.CallsAreRun` | internal/llm/generate.go:182-226 | At any request: if its reply goes on, there is a next request, and it is this one, the reply, and one message for each call part in order, which holds what running that call gave, or that its tool is not known; if not, there is none |
| `Generate.RoundsAreBounded` | internal/llm/generate.go:143-230 | At most maxToolRounds + 1 requests, one step for each reply, and the final reply is the last step's |
| `Generate.RequestsGrow` | internal/llm/generate.go:143-230 | Each request is the one before, the reply to it, and one result per call in call order |
| `Generate.ReadStream` | internal/llm/stream_generate.go:173-212 | One stream is read to its first failure, forwarding all but the finish |
| `Generate.StreamStep` | internal/llm/stream_generate.go:159-237 | One streaming step yields the same kind of reply as a whole one |
| `Generate.FinishHasResponse` | internal/llm/stream_generate.go:214-237 | A stream has a final response exactly if it finished |
| `Generate.StreamGenerate` | internal/llm/stream_generate.go:130-296 | The streaming loop runs the recursive definition on the replies its streams amount to; a context that has ended keeps the next request back and ends the run with its error |
| `Generate.StreamSimulates` | internal/llm/stream_generate.go:130-296 | Against models that reply alike, streaming and plain generation send the same requests, run the same tools, stop for the same reason and return the same final reply |
| `Generate.OneFinish` | internal/llm/stream_generate.go:188-270 | Exactly one finish is forwarded if the run succeeds, last and with the final response, and none if it fails |
| `Generate.FailureIsLast` | internal/llm/stream_generate.go:157-236 | The events of a run that fails end with the failure that made it fail |
| `Generate.NoFinishFails` | internal/llm/stream_generate.go:214-224 | A stream that neither finishes nor fails counts as failed, with the message that says so |
| `Generate.StepsShown` | internal/llm/stream_generate.go:282-294 | After every request but the last, the consumer gets a step event with the response of that step, its finish reason and its usage |
| `SseParser.ParseSse` | internal/llm/sse.go:18-68 | The read loop hands on exactly the events of the text, up to the first one refused |
| `SseParser.ParseLine` | internal/llm/sse.go:42-61 | A line is taken without trailing returns; a blank one ends the event |
| `SseParser.PrintParseRoundTrip` | internal/llm/sse.go:18-68 | Any sequence of clean events printed line by line parses back to the same events in order |
| `SseParser.RoundTripExactly` | internal/llm/sse.go:18-68 | An event comes back from print and parse exactly if it is clean |
| `SseParser.NamesHaveNoNewline` | internal/llm/sse.go:50-51 | No parsed name holds a line break |
| `SseParser.FramesParse` | internal/server/sse.go:141-146 | The server's own frames parse back to the events that could be encoded, in order |
| `SseParser.DoneParses` | internal/server/sse.go:129-140 | The closing frame parses as a done event after all of them |
| `SseParser.DrainedClientReads` | internal/server/sse.go:123-148 | In every interleaving, what a client that drains its channel parses is the events it got, then done if the broadcaster closed; never dropped, it parses all events that could be encoded, in order, then done |
| `SseParser.OtherLinesSayNothing` | internal/llm/sse.go:45-61 | A line that is not blank and brings neither event nor data may be taken out of any text without changing its events |
| `SseParser.FieldLines` | internal/llm/sse.go:50-56 | The space behind the colon of event and data is optional, and more of them count for nothing |
| `Retry.Retry` | internal/llm/retry_util.go:50-87 | An attempt is followed by a wait exactly if it failed, the context goes on, the error is no cancellation and may be retried, a retry is left and the server does not ask for too much; by another attempt exactly if the wait is not disturbed; and each end has its cause. Between one and max(0, MaxRetries) + 1 calls; success exactly if the last call succeeds; never the final fallthrough; if MaxDelay is positive, sleeps of at most 1.5 times it, and at most it if the server named them |
| `Retry.RetryDelay` | internal/llm/retry_util.go:89-123 | Gives up exactly if the server asks for more than MaxDelay; otherwise the server's delay, or the backoff within half to one and a half |
| `Retry.BackoffGrows` | internal/llm/retry_util.go:104-116 | Backoff without jitter never decreases, and never exceeds a positive MaxDelay |
| `Retry.BackoffMultiplies` | internal/llm/retry_util.go:104-116 | It starts at the base delay, and with a whole factor each wait is that many times the one before, up to a positive MaxDelay; a factor of at most one doubles |
| `PatchApply.FirstAnchor` | internal/agent/apply_patch.go:253-266 | The first expected line of a hunk |
| `PatchApply.IndexOfLine` | internal/agent/apply_patch.go:268-275 | The first match at or after a position |
| `PatchApply.FirstAtIsFirst` | internal/agent/apply_patch.go:268-275 | First means: no earlier match; none means: nowhere |
| `PatchApply.ApplyHunk` | internal/agent/apply_patch.go:99-134 | A hunk applies exactly if its expected lines stand there, and replaces them by its new lines; otherwise the error names the line at fault |
| `PatchApply.ApplyHunks` | internal/agent/apply_patch.go:86-136 | A patch applies exactly if each hunk finds its place and fits; otherwise the error is that of the first hunk that does not |
| `PatchApply.OneComplaint` | internal/agent/apply_patch.go:86-136 | A failing patch has exactly one error it may report |
| `PatchApply.AppliedWeaves` | internal/agent/apply_patch.go:86-136 | The original is gaps interleaved with the hunks' expected lines, the result the same gaps with their new lines |
| `PatchApply.InvertedSwaps` | internal/agent/apply_patch.go:99-134 | Swapping + and - swaps what a hunk expects and what it leaves |
| `PatchApply.PatchUndone` | internal/agent/apply_patch.go:86-136 | The inverted patch restores the original exactly if each hunk can be found again: the first line it leaves does not occur between the hunk before and it, or, if it leaves no line or a blank one first, nothing lies between |
| `PatchApply.InvertedGoes` | internal/agent/apply_patch.go:88-97 | In the result an inverted hunk goes to its own place exactly then, and otherwise to one before |
| `PatchApply.InverseMayGoAstray` | internal/agent/apply_patch.go:253-275 | A patch whose inverse changes another line |
| `PatchParser.ParsePatch` | internal/agent/apply_patch.go:167-236 | The parser terminates and returns the meaning of the lines, with the same errors |
| `PatchParser.ReadAdded` | internal/agent/apply_patch.go:187-200 | Added lines up to the next header, or the line that has no + |
| `PatchParser.ReadHunks` | internal/agent/apply_patch.go:212-229 | Hunks split at @@ lines up to the next header |
| `PatchParser.HunksBack` | internal/agent/apply_patch.go:212-229 | Rendered hunks are gathered again as they were |
| `PatchParser.PatchRoundTrip` | internal/agent/apply_patch.go:167-236 | A list of operations is recovered from its rendered patch exactly if paths are trimmed and hunks have lines, none of which ends an operation or, but for the first, separates hunks |
| `PatchParser.ReadAgain` | internal/agent/apply_patch.go:167-236 | Whatever is read as a patch can be written down and read again without change |
| `PatchParser.PatchInWords` | internal/agent/apply_patch.go:167-236 | A patch written out line by line, with a new file, a removed one, and one changed in two places and moved, for any paths and lines that can be written |
| `DotComments.StripComments` | internal/attractor/dot/comments.go:7-70 | The index loop computes the recursive definition, with an error exactly for an unclosed block comment or string |
| `DotComments.StrippedIsClean` | internal/attractor/dot/comments.go:7-70 | The output has no comment opener outside strings and all its strings are closed |
| `DotComments.StripsToItself` | internal/attractor/dot/comments.go:7-70 | A text is left as it is exactly if it has no opener outside strings and ends outside strings; output is never longer |
| `DotComments.StripIdempotent` | internal/attractor/dot/comments.go:7-70 | Stripping twice is stripping once |
| `DotComments.BlockCutOut` | internal/attractor/dot/comments.go:49-60 | Cutting out a block comment puts the code before it and the stripped rest together, with nothing between |
| `DotComments.LineCutOut` | internal/attractor/dot/comments.go:39-47 | Cutting out a line comment leaves the newline behind it |
| `DotComments.CommentsJoinNeighbours` | internal/attractor/dot/comments.go:49-60 | Two names with a block comment between them become one |
| `DotLexer.Lexer.Next` | internal/attractor/dot/lexer.go:32-68 | Skips white space, and returns the first token of the rest, or its error, or the end; every token advances |
| `DotLexer.Lexer.LexIdent` | internal/attractor/dot/lexer.go:81-93 | The longest identifier |
| `DotLexer.Lexer.LexBareNumberish` | internal/attractor/dot/lexer.go:95-114 | A number with its suffix, as one token |
| `DotLexer.Lexer.LexString` | internal/attractor/dot/lexer.go:116-152 | A string up to its closing quote, unescaped, or the error |
| `DotLexer.FirstAdvances` | internal/attractor/dot/lexer.go:32-68 | Every token takes at least one character |
| `DotLexer.LexingIsLossless` | internal/attractor/dot/lexer.go:32-152 | Lexemes and the white space between them make up the source again, each standing for its token |
| `DotLexer.StringsClose` | internal/attractor/dot/lexer.go:116-152 | A text whose strings are closed in the stripper's eyes never fails with an unterminated string or escape |
| `DotLexer.StrippedStringsClose` | internal/attractor/dot/lexer.go:116-152 | So a stripped source never does |
| `DotLexer.EscapeRoundTrip` | internal/attractor/dot/lexer.go:116-152 | An escaped literal lexes back to itself |
| `DotLexer.EscapeMeans` | internal/attractor/dot/lexer.go:127-145 | In a string, backslash n and t are the two white space characters, a quote and a backslash stand for themselves, and before anything else the backslash stays |
| `DotLexer.CharacterAlone` | internal/attractor/dot/lexer.go:32-93 | What every single character is as a text of its own: blank, symbol, name or number, or which error |
| `DotLexer.NameAlone` | internal/attractor/dot/lexer.go:81-93 | A text that starts like a name is one token exactly if it is all letters, digits and underscores |
| `DotLexer.LexAgain` | internal/attractor/dot/lexer.go:32-152 | The tokens of a text, written out with blanks between them and strings escaped again, lex to the same tokens |
| `DotJoin.FirstEnds` | internal/attractor/dot/lexer.go:32-152 | A token ends only where it cannot go on: a name at a character no name takes, a number at one its digits, point or unit do not take, a minus before anything but > |
| `DotJoin.FirstStays` | internal/attractor/dot/lexer.go:32-152 | A token is the same whatever follows, unless it ends the text and goes on |
| `DotJoin.FailsOn` | internal/attractor/dot/lexer.go:32-152 | Code that cannot be lexed fails in the same way whatever follows it, unless it breaks off behind the point of a number and a digit follows |
| `DotJoin.BlankMatters` | internal/attractor/dot/lexer.go:32-152 | Any two texts, the first with its strings closed, lex the same with and without a blank between them exactly if the last token of the first, or a number broken off at its point, does not go on at the start of the second (unless neither way can be lexed) |
| `DotJoin.CommentIsBlankExactly` | internal/attractor/dot/comments.go:49-60 | So a block comment acts as white space exactly if the code on its two sides does not join, whether or not the code before it lexes by itself |
| `Session.Session.ProcessOneInput` | internal/agent/session.go:412-786 | Counters and all, the loop does what the counterless definition does: same end, history, turn count, queued steering, and closed exactly after an error that is not retryable |
| `Session.Session.AskModel` | internal/agent/session.go:445-691 | A round up to the reply: it ends the input as the counterless definition says, or its calls are on record and yet to be run |
| `SessionRequests.RequestIsHistory` | internal/agent/session.go:456-463 | A request is the system message and then one message for each turn of the history, with the same text, calls, answers and error flags; steering goes out as a user message |
| `SessionRequests.LegalAnswers` | internal/agent/session.go:456-463 | Messages are legal by their own definition, not by that of the history: between an assistant message and the next message that is no answer its calls are all answered, in order |
| `SessionRequests.RequestsSentExactly` | internal/agent/session.go:445-470 | Every message list sent in any conversation is legal, under each rule, exactly if the history it was made of has all calls answered |
| `SessionRequests.SessionRequestsAreLegal` | internal/agent/session.go:239-260 | Over any inputs, the messages sent are legal exactly until a guard has stopped an input |
| `Session.Session.ToolRound` | internal/agent/session.go:693-783 | One round with tool calls: the guards judge it, and it is either recorded in full or ends the input |
| `Session.Session.ExecTools` | internal/agent/session.go:711-728 | Run in any order, results stand in call order |
| `Session.Session.DetectLoop` | internal/agent/session.go:693-707 | Counts the run of equal calls and warns when it reaches the window |
| `Session.Session.Tally` | internal/agent/session.go:732-776 | The counter is the length of the current run of equal non-empty fingerprints |
| `Session.Session.Steer` | internal/agent/session.go:201-211 | Queues a message unless it is blank or the session closed |
| `Session.Session.DrainSteering` | internal/agent/session.go:815-824 | Takes the whole queue |
| `Session.ToolCallsFingerprint` | internal/agent/session.go:837-849 | The fingerprint of the calls, in order |
| `Session.MalformedToolCallsFingerprint` | internal/agent/session.go:851-866 | The fingerprint of the malformed calls |
| `Session.MalformedPrint` | internal/agent/session.go:851-866 | It is empty exactly if no call was malformed |
| `Session.RepeatedErrorToolCallsFingerprint` | internal/agent/session.go:871-893 | The fingerprint of a round all of whose calls failed |
| `Session.ErrorPrint` | internal/agent/session.go:871-893 | It is empty exactly if one call did not fail |
| `Session.RunReaches` | internal/agent/session.go:732-776 | A run has length n at least exactly if the last n fingerprints are one and the same, and not empty |
| `SessionPrints.PrintsAgreeExactly` | internal/agent/session.go:837-849 | The fingerprints of two rounds agree exactly if their calls do, one by one and in order, by trimmed name and digest of the arguments (for names without a colon and digests without a semicolon): no two lists are confused by running together |
| `SessionPrints.ContainsExactly` | internal/agent/session.go:857 | A text contains another exactly if it is that one with something, or nothing, on either side |
| `SessionPrints.MalformedSaysSo` | internal/agent/session.go:857 | A call counts as malformed exactly if it failed and says so in these words |
| `SessionPrints.TurnsInOrder` | internal/agent/session.go:693-785 | A round stands in the history as the reply with its calls, the loop warning if there was one, the results in call order and the steering, and nothing else |
| `SessionHistory.GuardsStopAtTheFirstRun` | internal/agent/session.go:730-776 | Each guard stops the input in the first round that makes its limit of equal fingerprints in a row, with a count equal to the limit; the malformed guard goes first |
| `SessionHistory.WarnsAtTheFirstRun` | internal/agent/session.go:693-707 | The loop warning is given once, in the first round that makes a window of equal calls in a row |
| `SessionHistory.PlayIsGenuine` | internal/agent/session.go:445-785 | Every end has the cause it names, and rounds and requests stay within MaxToolRoundsPerInput |
| `SessionHistory.ToolsSettle` | internal/agent/session.go:778-780 | Answers in call order settle the calls one by one |
| `SessionHistory.IdsMatchExactly` | internal/agent/tool_registry.go:101-115 | An answer names its call's id exactly unless the call ran under a blank one |
| `SessionHistory.RequestsAreLegalExactly` | internal/agent/session.go:445-470 | At each request every earlier call is answered once and in order exactly if this was so before the input; at once after the calls exactly if no loop warning has come between; under the same ids exactly if no call ran under a blank one |
| `SessionHistory.OnlyGuardsLeaveCalls` | internal/agent/session.go:671-783 | An input that starts with all calls answered ends so, except that the two guards leave exactly the last reply's calls open |
| `SessionHistory.LegalUntilAGuardStops` | internal/agent/session.go:239-260 | Over any inputs until the session closes, requests have all calls answered until a guard stops an input, and never again after |
| `SessionHistory.GuardLeavesCallsOpen` | internal/agent/session.go:730-776 | A concrete input after which the next request carries an unanswered call |

## Left out

- Termination of the loops that need luck (picking a room, a tree node, a maze exit, a place off the top line): each try
  spends one unit of `patience`, and an unlucky run without end is reported as such.
- Dungeon.Level.NewLevel: what drawing walls, floors and mazes leaves on the map is an argument, any map without passage
  numbers; gold, monsters and stairs are not modelled.
- Dungeon.Level.Numpass: the exit list of a passage has no limit, where the code's record has room for twelve;
  `PassageNumbers.PassageExits` says exactly when the list fits. Rooms never need more than four (`Dungeon.FourExits`).
- The map is a value of type `map` held in a field instead of an array of cells, and flag bytes are taken apart into
  fields (`DungeonMap.FlagsAreBits` relates the two).
- DES on the bytes of a string, byte order, and the outer loop of crypt; the count INT_MIN, whose negation overflows.
- Save files: the scalars, option strings, item tables, rooms, daemons and window around the level's lists and map; an
  object's text is not saved by the code either.
- The union of objects and monsters is two classes, and the six equipment pointers are one sequence.
- Values that the code leaves uninitialised after a read error are arbitrary.
- HTTP, contexts, clocks and channels between goroutines that only carry events on; timers are steps that may come at
  any time. Question ids and client ids do not wrap around.
- Broadcaster.Broadcaster.Close: requires that it was not called before; the code panics on a second call.
- Generate.StreamGenerate: the partial response shown while a stream is read is not modelled.
- Generate: retries, timeouts, tool schemas and usage totals; a tool run is an oracle that says what it comes to.
- Events on reasoning: the accumulator ignores them too.
- Retry.Retry: delays are whole numbers without overflow and factors are real numbers.
- Texts are characters, not bytes in UTF-8; error positions of the lexer are not kept.
- Files: patches are applied to lines; splitting, joining, moving and path checks are not modelled.
- Session: events for observers, usage warnings, follow-ups taken from the queue, concurrent inputs on one session;
  SHA-256 is an arbitrary function, so different arguments may look alike.
