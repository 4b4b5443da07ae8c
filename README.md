# underworld: player sessions, turn coordination and the object table

This project models two parts of the underworld match server.

The first is the server's player-session state machine and its turn coordinator (underworld.py):
- the `Client` state setter with its one-way gate into final states, its start-thinking event, its `onReady` callback and its `cleanup` call;
- `kick`, `handshake`, the locked per-line step of `playerLoop` and the `_isMessageSecure` spam bound;
- the parts of `runGame` that work on the player list: the `onClientStopThinking` callback, registration and the handshake token, the initial round, move collection and applying the game engine's reply.

Each block the source runs under a lock is modelled as one atomic step. `Underworld.Client` is a class holding the source's fields. Each of its methods is specified by a pure function over the `Session` value in module `Sessions`, and module `SessionProperties` proves what the source promises about those functions. That includes invariants over every sequence of events (`Run`). `Underworld.Coordinator` holds the player list, the thinking set and the everyone-ready event. Its methods are proved against the same per-player functions.

The second part is the object-type table (gameengine/celldefs.py). Module `CellDefs` has one datatype of kinds, one function per class attribute, the `ObjTypes` list and `ObjTypeDict` map, and the fields a new cell or object starts with.

The player states and the configuration constants come from modules that are not part of this model. `PlayerStates` declares the seven states and the two classifications the server relies on. `Config.Settings` carries the constants as parameters.

Where the code and its design description disagree, the model follows the code:
- The everyone-ready event is cleared unconditionally at the end of the initial round and of reply application (underworld.py:209, 237), even when the thinking set is then empty. So "event set ⟹ thinking set empty" holds after every step, but "thinking set empty ⟹ event set" does not: after either clear, a match in which nobody is THINKING has an empty set and a clear event. `Underworld.Coordinator.OnClientStopThinking` sets the event when its removal empties the set.
- At move collection only a player still THINKING records no move. An already-kicked player hands over its buffer, which may be empty (underworld.py:216-220; `SessionProperties.CollectEffects`, `SessionProperties.TwoPlayerTurn`).
- The initial round's kick reason is the string "Handshake timeout" (underworld.py:208).
- A wrong handshake answer sets the reason "Handshake failed" before the state is checked (underworld.py:125-126). A player kicked in the initial round whose answer arrives afterwards therefore stays KICKED with reason "Handshake failed", not "Handshake timeout". The design says the reason is only set for a player that is not yet KICKED (`SessionProperties.LateHandshakeOverwritesReason`).
- A line that fails the spam check ends with reason "Disconnected", not "Spam protection" (see Findings).

## Model

The functions of module `Sessions`, `Text.IsSpace` and the attribute functions of `CellDefs` only compute and carry no contract of their own. Each row below names the lemma or method whose contract states what one of them promises, and the row's third column names the function it is about. The constants `CellDefs.ObjTypes` and `CellDefs.ObjTypeDict` are covered the same way.

| member | source | states |
|---|---|---|
| Text.Strip | underworld.py:123 | `str.strip()`: the result has no whitespace at either end and is no longer than the input |
| Text.LeadingSpaces | underworld.py:144 | the whitespace prefix that strip removes: every character before it is whitespace, the next one is not |
| Text.TrailingSpaces | underworld.py:144 | the same for the whitespace suffix |
| Text.StripBounds | underworld.py:144 | the kept slice: everything outside it satisfies `Text.IsSpace` (the characters `str.isspace` accepts) and, unless it is empty, both of its ends do not |
| Text.StripPadded | underworld.py:144 | stripping whitespace padding around a trimmed word gives back exactly that word |
| Text.StripEndLine | underworld.py:144 | "end\n" and "end" both strip to "end", so either ends a turn |
| SessionProperties.SetStateGate | underworld.py:58 | `Sessions.SetState`: the setter's assertion fails exactly when the state is final and the value differs, and then nothing changes; an accepted assignment sets the state and keeps the reason, buffer and counter |
| SessionProperties.SetStateEffects | underworld.py:59-71 | `Sessions.SetState`: cleanup runs once when a final state is entered from a different one; `onReady` is called exactly when the state changes to something other than THINKING; the event is set iff the new state is THINKING; re-assigning the same value changes nothing |
| SessionProperties.SetStateKeepsConsistent | underworld.py:65-71 | an assignment keeps "event set iff THINKING" and "cleanup ran once iff final" |
| SessionProperties.KickEffects | underworld.py:165-170 | `Sessions.Kick`: kick leaves the player KICKED unless it holds an outcome (then the assertion fails); the reason becomes the new one only if the player was not already KICKED; kicking a KICKED player changes nothing |
| SessionProperties.HandshakeEffects | underworld.py:121-131 | `Sessions.Handshake`: the state changes only from NOT_INITIATED: to READY iff the stripped answer is the acknowledgement, else to KICKED; a wrong answer sets "Handshake failed" in any state |
| SessionProperties.EndLineEndsTurn | underworld.py:144-145 | `Sessions.ReceiveLine`: a line that strips to "end" keeps the buffer and counter, moves a non-final player to READY, and leaves the loop exactly when the setter rejects it |
| SessionProperties.OtherLineAppendedIffSecure | underworld.py:146-152 | `Sessions.ReceiveLine` and `Sessions.IsMessageSecure`: any other line is appended, with the counter raised by one, iff it passes the security check; otherwise nothing changes and the loop is left |
| SessionProperties.ReceiveLineKeepsLimits | underworld.py:156-159 | `Sessions.IsMessageSecure` and `Sessions.ReceiveLine`: a received line keeps the counter at or below the line ceiling and a non-empty buffer below the size ceiling |
| SessionProperties.RejectedLineAsWritten | underworld.py:147-155 | `Sessions.ReceiveLine` followed by `Sessions.Disconnect`: as written, a rejected line is never appended and the player ends KICKED with reason "Disconnected" |
| SessionProperties.RejectedLineIntended | underworld.py:147-150 | `Sessions.ReceiveLineIntended` followed by `Sessions.Disconnect`: with the intended handling, the player ends KICKED with reason "Spam protection", which the later "Disconnected" kick keeps |
| SessionProperties.SpamReasonDiffers | underworld.py:148 | a concrete session and line for which the two reasons differ |
| SessionProperties.PromoteEffects | underworld.py:203-208 | `Sessions.Promote`: the initial round makes a READY player THINKING and kicks any other player with "Handshake timeout", keeping an earlier kick's reason |
| SessionProperties.CollectEffects | underworld.py:216-222 | `Sessions.Collect`: the move is absent iff the player was THINKING, and that player becomes KICKED with "Timeout"; any other player hands over its buffer, which is reset with its counter; nobody is THINKING afterwards |
| SessionProperties.ApplyStateEffects | underworld.py:231-232 | `Sessions.ApplyState`: a player in a final state is left unchanged; any other player takes the engine's state |
| SessionProperties.ApplyKeepsConsistent | underworld.py:58-72 | every kind of event keeps a session consistent |
| SessionProperties.LineKeepsConsistent | underworld.py:143-152 | a received line keeps a session consistent, as written and as intended |
| SessionProperties.RunKeepsConsistent | underworld.py:65-71 | "event set iff THINKING" and "cleanup ran once iff final" hold after any sequence of events from a consistent session |
| SessionProperties.NewSessionConsistent | underworld.py:86-87 | a new session is consistent, so the two invariants hold throughout a player's life |
| SessionProperties.ApplyKeepsLimits | underworld.py:151-159 | every kind of event keeps the per-turn input within its ceilings |
| SessionProperties.RunKeepsLimits | underworld.py:151-159 | the per-turn input stays within its ceilings after any sequence of events |
| SessionProperties.FinalLineChangesNothing | underworld.py:143-153 | as written, a line received in a final state changes neither the state nor the reason; with the intended handling it keeps the state, and a KICKED player's reason |
| SessionProperties.ApplyKeepsFinal | underworld.py:58 | no event changes a final state |
| SessionProperties.FinalIsAbsorbing | underworld.py:58 | once final, the state stays the same after any sequence of events |
| SessionProperties.ApplyKeepsKickedReason | underworld.py:168-170 | no event other than a handshake answer changes a KICKED player's state or reason |
| SessionProperties.KickedReasonStable | underworld.py:165-170 | once KICKED, the first kick's reason survives any later events except a handshake answer |
| SessionProperties.LateHandshakeOverwritesReason | underworld.py:121-131 | a player kicked with "Handshake timeout" in the initial round whose wrong answer then arrives stays KICKED, with reason "Handshake failed" |
| SessionProperties.Acknowledged | underworld.py:121-131 | a player that acknowledges the handshake is THINKING after the initial round, with an empty buffer and counter |
| SessionProperties.PlayerZero | underworld.py:121-152 | acknowledging, being promoted, sending one acceptable line and then "end" leaves the player READY with exactly that line buffered |
| SessionProperties.TwoPlayerTurn | underworld.py:199-222 | in a two-player match, player 0 hands over its line and player 1, kicked with "Handshake timeout", hands over an empty buffer rather than no move |
| Underworld.Client.constructor | underworld.py:85-91 | a new client is NOT_INITIATED with empty reason and buffer, a zero counter, the event clear and nothing written |
| Underworld.Client.Write | underworld.py:17-22 | a write to the player is appended to its log and changes nothing else |
| Underworld.Client.SetState | underworld.py:55-72 | the fields become `Sessions.SetState`'s result, `ok` is false exactly when the assertion fails, and the coordinator is notified exactly when `onReady` is called |
| Underworld.Client.Kick | underworld.py:165-170 | the fields become `Sessions.Kick`'s result, and the coordinator is notified as the setter does |
| Underworld.Client.Handshake | underworld.py:121-131 | the fields become `Sessions.Handshake`'s result for the answered line; the coordinator is notified iff the player was NOT_INITIATED |
| Underworld.Client.ReceiveLine | underworld.py:143-153 | the fields and the loop exit follow `Sessions.ReceiveLine`; the coordinator is notified only by an "end" line that makes the player READY |
| Underworld.Client.Disconnect | underworld.py:155 | the kick after the loop, as `Sessions.Disconnect` |
| Underworld.Coordinator.constructor | underworld.py:181-191 | the thinking set starts as the set of all players and the event is clear |
| Underworld.Coordinator.OnClientStopThinking | underworld.py:184-189 | the client leaves the thinking set, and the event is set if the set is then empty |
| Underworld.Coordinator.Start | underworld.py:192-194 | every player reports to this coordinator and is sent the handshake token plus a newline; no session field changes |
| Underworld.Coordinator.InitialRound | underworld.py:199-209 | each paired player is promoted as `Sessions.Promote` says, and only READY players are sent their message; unpaired players are untouched; the thinking set is exactly the players that were READY; the event is clear |
| Underworld.Coordinator.PromoteAll | underworld.py:200-208 | the loop of the initial round, with the same per-player effect and thinking set |
| Underworld.Coordinator.PromoteStep | underworld.py:202-208 | one pass of that loop changes player `i` and the thinking set and leaves every other player as it was |
| Underworld.Coordinator.PromotePlayer | underworld.py:202-208 | one player's promotion, its message and its entry in the thinking set |
| Underworld.Coordinator.CollectMove | underworld.py:215-222 | one player's collected move and new fields are `Sessions.Collect`'s |
| Underworld.Coordinator.CollectMoves | underworld.py:213-222 | one move per player in index order, each as `Sessions.Collect` says; nobody is THINKING afterwards; the players that were THINKING leave the thinking set; the event is set iff it already was, or some player was THINKING and the set is now empty |
| Underworld.Coordinator.ApplyToPlayer | underworld.py:230-236 | one player's new fields are `Sessions.ApplyState`'s; it is sent the message and joins the thinking set iff it was not final and the engine says THINKING; the result says whether it is still in play |
| Underworld.Coordinator.ApplyReply | underworld.py:226-237 | each paired player takes the engine's state unless final; only those now THINKING are sent their message; the thinking set is exactly those players; `somebodyStillPlays` iff some updated player is in play; the event is clear |
| Underworld.Coordinator.ApplyAll | underworld.py:228-235 | the loop of reply application, with the same per-player effect, thinking set and result |
| Underworld.Coordinator.ApplyStep | underworld.py:230-235 | one pass of that loop changes player `i`, the thinking set and the result, and leaves every other player as it was |
| Underworld.Coordinator.Turn | underworld.py:211-241 | one turn after the wait: moves are collected, the engine's reply is applied, the game is over iff no updated player is in play, and then nobody paired is in play; each player is sent the engine's message exactly when it was not final after collection and the engine says THINKING, and nothing else is written; the thinking set is exactly the THINKING players |
| Underworld.Coordinator.Paired | underworld.py:201 | `zip` pairs as many players as the shorter of the two lists |
| CellDefs.ReprDict | gameengine/celldefs.py:61 | the dict comprehension: every kind's character is a key, and every key maps to a listed kind with that character |
| CellDefs.NewCell | gameengine/celldefs.py:3-5 | a new cell has no move candidates |
| CellDefs.NewObject | gameengine/celldefs.py:11-17 | a new object has no move candidates, no new position, no move decision and no spawn request; it has hitpoints iff it takes damage, and then they are its maximum; only a Wall has an owner, -1 |
| CellDefs.ObjTypesEnumeratesKinds | gameengine/celldefs.py:60 | `CellDefs.ObjTypes` lists every kind exactly once |
| CellDefs.CharReprInjective | gameengine/celldefs.py:23-58 | `CellDefs.CharRepr`: no two kinds share a character |
| CellDefs.ObjTypeDictAt | gameengine/celldefs.py:61 | each kind's character maps back to that kind |
| CellDefs.ObjTypeDictRoundTrip | gameengine/celldefs.py:60-61 | `CellDefs.ObjTypeDict`: the keys are exactly "C", "F", "B", "W" and "#", and the map is a bijection with the five kinds |
| CellDefs.OnlyUnitsMoveAndAttack | gameengine/celldefs.py:19-54 | `CellDefs.CanMove`, `CellDefs.CanAttack`: buildings can neither move nor attack; the Warrior can do both |
| CellDefs.BuildableKindsHaveCosts | gameengine/celldefs.py:8-52 | `CellDefs.CanBeBuilt`, `CellDefs.Cost`, `CellDefs.VisionRange`: exactly Farm, Barracks and Warrior can be built, exactly they have a cost (1000, 1500, 500), and every kind sees 3 cells |
| CellDefs.AttackersHaveCombatAttributes | gameengine/celldefs.py:38-53 | `CellDefs.DamageToBuilding`, `CellDefs.DamageToUnits`, `CellDefs.AttackRange`: exactly the kinds that can attack define all three; the Warrior deals 100 to buildings and to units at range 2 |
| CellDefs.DamageableKindsHaveMaxHitpoints | gameengine/celldefs.py:8-51 | `CellDefs.TakesDamage`, `CellDefs.MaxHitpoints`: every kind but the Wall takes damage, and exactly those kinds define a hitpoint maximum, so the constructor always finds one |
| CellDefs.NewObjectHitpoints | gameengine/celldefs.py:11-57 | new objects start at 10000, 1000, 1500 and 500 hitpoints; a Wall has none and belongs to -1 |

## Left out

- Threads, locks and events: each locked block is one atomic step, and the events are plain fields. Timed waits (`everyoneReadyEvent.wait`) are not modelled. Whatever players do during a wait is any sequence of `Client` method calls, which `Turn` and the trace lemmas accept from any starting state.
- The whole `playerLoop` loop is not modelled as one method. Its top-of-loop `inPlay` check and the wait for the start-thinking event are scheduling. Its blocking reads are I/O. Its body is `Client.ReceiveLine`, and `Client.Disconnect` is the kick after it.
- Process and socket I/O (`Unbuffered`, `IO`, `initIO`, `readline`, `run`): a received line is a parameter, and a write is appended to `written`. The per-line read limit `maxRecvLineLen` is carried in `Config.Settings` but is not enforced on the given lines.
- `cleanup` (terminating the process, closing the socket): only its calls are counted (`cleanupCount`). The setter's `print` output is left out.
- `main`, option parsing, JSON loading, plugins and `log_function`: I/O and foreign calls.
- The game engine: `initialMessages` is a parameter of `InitialRound`, and `processTurn` is a function parameter of `Turn`. `saveResults` is external: `Turn` reports `gameOver`, which is when the source saves and returns.
- `turnDurationInSec`: it only bounds the timed waits.
- Python's `str.strip` is modelled for the characters `str.isspace` accepts. No other Unicode behaviour is modelled.
- The player list is a `seq` of clients, fixed at construction, as `runGame` never changes it. The coordinator's methods require that the players are distinct objects, as `main` creates them.
- Underworld.Coordinator.InitialRound: requires that no player holds a game outcome. Outcomes are only assigned by reply application, which runs after the initial round. Otherwise the AssertionError that the kick would raise inside `runGame` is not modelled.
- Underworld.Coordinator.Turn: starts after the wait, so the state changes the players make during the wait come from separate `Client` calls.
- CellDefs: the class hierarchy is flattened into one datatype of kinds. A class attribute a kind does not define is `None`. The types of the movement fields are not given in the source, so `Position` is a stand-in.

## Findings

| source | as written | input that shows it | evidently intended | confidence | as-written member | corrected member |
|---|---|---|---|---|---|---|
| underworld.py:148 | `print(recievedMessage)` names an undefined variable. The NameError skips `kick("Spam protection")`, and the handler and the kick at :155 leave the player KICKED with reason "Disconnected" | a THINKING player with a line ceiling of 0 sends "move\n" | the player is kicked with reason "Spam protection" | high; not executed | SessionProperties.RejectedLineAsWritten | SessionProperties.RejectedLineIntended |

`Sessions.ReceiveLine` and `Underworld.Client.ReceiveLine` model the block as written. `Sessions.ReceiveLineIntended` is the corrected block. The trace semantics (`SessionProperties.Apply`, event `LineReceivedIntended`) include it, so every invariant proved over `Run` also holds with the corrected handling. `SessionProperties.SpamReasonDiffers` exhibits the input on which the two differ.
