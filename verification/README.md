# Arena, verified

A Dafny model of an arena for two-seat games, and proofs about it. The project follows the
program's layers:

- **Draws** (`Chance.dfy`, `MatchDraws.dfy`): rejection-sampled values from a hash of (seed, counter),
  and the words a whole match draws.
- **Matches and transcripts** (`Game.dfy`, `LocalMatch.dfy`, `Transcript*.dfy`, `Replay.dfy`): a
  pure game engine and serializer as a record of functions, live stepping with sampled chance
  nodes, dumping, loading, and validation by replay.
- **Views** (`Runtime.dfy`, `Redaction.dfy`, `RuntimeViews.dfy`): what each viewer may receive, live
  or redacted from an archive.
- **Games** (`LiarsDice*.dfy`, `Connect4*.dfy`): two rules engines, with Liar's Dice discharging
  every assumption the match layer makes.
- **The server** (`Driver*.dfy`, `Broadcast.dfy`, `ViewCache.dfy`, `Retry.dfy`): the match driver as
  a step machine over nondeterministic frames, deadlines, disconnects, resumes, spectators and
  failures; its broadcast loops; its caches; and the retry protocol with the client's half.
  `HostedLiarsDice.dfy` puts a game's own bound under the driver.
- **Edge cases** (`EdgeCases.dfy`): for results that hold under a condition, an input outside it on
  which they fail.
- **Housekeeping** (`RateLimits.dfy`, `TranscriptStore*.dfy`, `Registry.dfy`): the sliding-window
  limits, the retention store and the match registry, as classes.

How to read the driver: `Drivers.Next` is one step, `Drivers.Run` a whole run from creation. A
step is a stretch of the server's code with no suspension, or finer: every turn of a commit is
broadcast in its own step, so a spectator may attach between any two. The driver's own
exceptions, views that cannot be built and full outboxes are part of the events. A game enters
as `Drivers.Rules`; `DriverGames` instantiates it with the match layer itself.

Time is a parameter of each call and does not go back between serialised calls, except in the
transcript store, whose clock may step back. The hash behind the draws is a parameter
(`Chance.Block`), with the assumption that some later word is accepted, so that drawing ends.
Connect 4's winning length is a parameter.

## What the code does that its documentation does not say

- Replay completeness holds exactly when every event is visible to somebody. An event visible to
  no seat and not to the public dumps with an empty audience, which the shape check
  (`src/arena/match/transcript.py:299-360`) refuses
  (`EdgeGames.EventForNobodyIsRefused`). Liar's Dice has no such event.
- Redacting a saved status of a perfect-information game keeps the saved snapshot as it is
  (`src/arena/runtime/payloads.py:386-418`), so it agrees with a live dump exactly when the viewer's
  snapshot is the full one (`EdgeGames.SeatHookBreaksStatusRedaction` is a game where it does not).
- The cached transcript of a perfect-information match is built in the public's view and labelled
  full, so it is the full transcript exactly when every event of the match is public
  (`EdgeGames.PrivateEventIsLostInCache`).
- The Connect 4 check around the last disc needs neither gravity nor alternation: it agrees with
  the whole scan on any undecided board.
- The crash handler promises the seats a terminal frame when a failure strikes after the end
  (`src/arena/server/runtime_bridge.py:2021-2044`). A failing view inside the abort task, met while a
  round has already been left, is swallowed by the wait for that task
  (`src/arena/server/runtime_bridge.py:1839-1844`), and nobody is told
  (`EdgeCases.SeatsAreLeftUntold` is such a run; `DriverEnds.SeatsAreToldExactlyWhen` says when a seat
  is told).
- A resumed seat gets every turn once only because the swap never falls between a commit and its
  broadcasts; nothing in the seat's connection would notice, as a spectator's watermark does.

## Model

| member | source | states |
|---|---|---|
| `Chance.DrawIsUniform` | src/arena/core/chance.py:104-125 | For every bound in 1..2^64, every value in [0, bound) is drawn from exactly limit/bound accepted words; the limit is the largest multiple of the bound that fits a word, so more than half of all words are accepted. |
| `Chance.Draw` | src/arena/core/chance.py:104-125 | The rejection loop takes the first word at or after the counter that is below the limit, returns what that word leaves on division by the bound, and the counter just past it; it refuses exactly the bounds outside 1..2^64. |
| `Chance.DrawMany` | src/arena/core/chance.py:127-137 | The batching loop gives one value per word, each the word's remainder, each word the first accepted one after the word before it; a negative count is refused and a zero count draws nothing. |
| `Chance.DrawsNeverReuseABlock` | src/arena/core/chance.py:96-137 | The counters behind successive draws strictly rise, from the generator's counter before the draws to below the one after them. |
| `Chance.DrawManySplits` | src/arena/core/chance.py:127-137 | A batch split anywhere is two batches, the second from where the first left the generator. |
| `Chance.DrawsInRange` | src/arena/core/chance.py:104-137 | Every drawn value lies in [0, bound). |
| `MatchDraws.NoWordIsDrawnTwice` | src/arena/match/local_match.py:289-325 | Along a whole live match every chance node draws from counters of its own, rising from 0 to the match's generator, all under the match's one seed. |
| `MatchDraws.LiarsDiceAdvances` | src/arena/games/liarsdice/rules.py:168-174 | Sampling a Liar's Dice roll keeps the seed and takes at least one counter, so the result above holds of its matches. |
| `Games.ActingSeats` | src/arena/core/simultaneous.py:61-83 | Nobody acts exactly at terminal and chance states; elsewhere the engine's list is taken as it is, and refused exactly when it is empty, out of order, repeats a seat or names no table seat. |
| `Games.FirstRefusal` | src/arena/core/simultaneous.py:92-118 | A joint action is refused on its own merits exactly if some acting seat's action is, with the first such seat's error. |
| `Games.ApplyJointAction` | src/arena/core/simultaneous.py:92-118 | A joint action is accepted exactly at a joint node, with exactly the acting seats' actions, each valid on its own, that the engine takes together. |
| `LocalMatches.DrainChanceNodes` | src/arena/match/local_match.py:289-325 | The draining loop gives the recursive drain, and a match with a generator never comes to rest at a chance node. |
| `LocalMatches.DrainsWithinTheCap` | src/arena/match/local_match.py:289-325 | A drain ends well exactly if sampling comes to rest within 128 outcomes, and takes one turn for each. |
| `LocalMatches.StepsWithinTheCap` | src/arena/match/local_match.py:158-325 | A move is taken exactly if its transition is accepted and what it leads to comes to rest within 128 outcomes. |
| `LocalMatches.StartsWithinTheCap` | src/arena/match/local_match.py:94-157 | And a match starts on the same terms. |
| `LocalMatches.OneKindOfMove` | src/arena/match/local_match.py:158-285 | A state takes moves of one kind only, whatever the engine would accept: chance at chance nodes, rounds where both seats act, one seat's actions elsewhere. |
| `LocalMatches.StepExtends` | src/arena/match/local_match.py:158-285 | A step appends at least one turn, changes no earlier one, and keeps config, first snapshot and whether the match can sample. |
| `LocalMatches.RunExtends` | src/arena/match/local_match.py:158-285 | A run appends at least one turn for each move and keeps what the match started with. |
| `Transcripts.EnsureTurnShapes` | src/arena/match/transcript.py:299-360 | The checking loops accept exactly the payloads whose turns and events have the shapes their kinds demand. |
| `Transcripts.CompareTurns` | src/arena/match/transcript.py:444-507 | The comparing loop accepts exactly when every loaded turn says what the replay generated. |
| `Transcripts.ReplayRecorded` | src/arena/match/transcript.py:411-443 | The replaying loop is the run of the recorded actions, joint actions and outcomes. |
| `Transcripts.ValidateByReplay` | src/arena/match/transcript.py:411-507 | The imperative validator and the function every theorem below speaks of agree on every payload, errors included. |
| `Replay.LiveIsReplay` | src/arena/match/local_match.py:94-325 | Any live match, whatever its seed sampled, is the seedless replay of the turns it recorded, and never rests at a chance node. |
| `Replay.TurnRoundTrip` | src/arena/match/transcript.py:183-296 | Loading a dumped turn gives back its move, events, result and states. |
| `Replay.DumpLoads` | src/arena/match/transcript.py:183-296 | A dump loads back to its own match exactly when no event is visible to nobody; otherwise the shape check refuses it. |
| `Replay.DumpValidates` | src/arena/match/transcript.py:411-507 | A dump of a replayable match at rest validates, rebuilding that match, exactly when no event is visible to nobody. |
| `Replay.ReplayCompleteness` | src/arena/match/transcript.py:183-218 | Every live match dumps to a transcript that validates without the seed and rebuilds the same turns, first snapshot and final state, if and only if every event is visible to somebody. |
| `EdgeGames.EventForNobodyIsRefused` | src/arena/match/transcript.py:299-360 | Outside that condition it fails: a one-move game whose event nobody may see is played live, and its own dump is refused. |
| `Replay.ReplaySoundness` | src/arena/match/transcript.py:411-507 | A payload is accepted only if every recorded state, snapshot, event and result is that of the one run its config and recorded moves determine, and that run does not end at a pending chance node. |
| `Replay.AcceptedTranscriptsAgree` | src/arena/match/transcript.py:411-507 | Two accepted payloads with the same config and moves record the same snapshots, results and events: nothing recorded can be altered alone. |
| `TranscriptShapes.AcceptedTranscriptsAreShapely` | src/arena/match/transcript.py:299-360 | An accepted transcript is full, of the game, of a known schema version and says nothing that version had no words for; each turn carries exactly its kind's fields and each event exactly the audience it needs. |
| `TranscriptShapes.VersionsOnlyLimitWords` | src/arena/match/transcript.py:299-360 | The version matters to nothing else: an accepted transcript is accepted under another version, as the same match, exactly if it says nothing that version had no words for. |
| `Redaction.MarkersAgree` | src/arena/core/events.py:40-61 | An event's serialized markers decide visibility as visible_to does, for a viewer, exactly when the viewer is refused nothing the public sees. |
| `Redaction.FilterIsVisible` | src/arena/match/transcript.py:549-554 | Filtering dumped events by their markers is dumping the visible events. |
| `Redaction.RedactionCommutes` | src/arena/match/transcript.py:636-694 | Redacting the full dump of any live match for a viewer is dumping it live for that viewer, and is refused exactly when the full dump does not validate. |
| `Redaction.ViewShowsOnlyVisibleEvents` | src/arena/match/transcript.py:557-665 | A viewer's transcript of a live match is labelled with its view, and is turn by turn the full one with exactly the events the game shows the viewer, the outcome and state cut down by the serializer, and nothing else changed. |
| `Redaction.RuntimeRedactionCommutes` | src/arena/runtime/payloads.py:283-383 | The same at runtime level: redacting a saved full envelope is dumping the session for the viewer, events, abort, labels and match transcript together; what that shows whom is the next three rows. |
| `RuntimeViews.ReasoningStaysWithItsSeat` | src/arena/runtime/payloads.py:283-340 | A hidden-information session's envelope for a viewer tells, in order, of every runtime event but other seats' agents' decisions and retries, of which the public gets none; no abort in it carries its cause; its label and match are the viewer's. |
| `RuntimeViews.FullViewHoldsNothingBack` | src/arena/runtime/payloads.py:283-340 | The full view, and every view of a perfect-information game, tells of every event as it was, the whole abort and the full match transcript. |
| `RuntimeViews.OthersReasoningIsInvisible` | src/arena/runtime/payloads.py:335-340 | Two sessions alike but for their events give a viewer the same envelope if and only if they entitle it to the same events: what other seats' agents thought changes nothing. |
| `Redaction.StatusRedactionCommutes` | src/arena/runtime/payloads.py:231-280 | Redacting a full status is dumping it for the viewer if and only if the game hides information, or there is no match yet, or the viewer's snapshot is the full one. |
| `RuntimeViews.StatusIsTheEndOfTheTranscript` | src/arena/runtime/payloads.py:231-280 | A session's status and transcript for one viewer agree: turn count, last snapshot, label, abort, lifecycle and players; the status names a seat exactly when the match goes on and waits for that seat alone. |
| `EdgeGames.SeatHookBreaksStatusRedaction` | src/arena/runtime/payloads.py:386-418 | Outside that condition it fails: a perfect-information game whose serializer has a seat hook, and a session whose redacted status is not the seat's. |
| `LiarsDice.LegalIffValid` | src/arena/games/liarsdice/rules.py:60-112 | legal_actions lists exactly the actions validate_action accepts, for any seat and any state the constructor admits. |
| `LiarsDice.SomebodyCanMove` | src/arena/games/liarsdice/rules.py:60-73 | While the match goes on the seat to move has a legal action, and where it may call, calling is listed first. |
| `LiarsDice.SampledRollFits` | src/arena/games/liarsdice/rules.py:168-206 | A sampled roll is always one apply_chance accepts, and uses at least one counter per die. |
| `LiarsDice.DiceAreDrawnInTurn` | src/arena/games/liarsdice/rules.py:168-174 | Each die of a sampled roll is one more than its own word's remainder by the faces, seat 0's hand drawn first, seat 1's from where that ends, each word the next accepted one. |
| `LiarsDiceGame.StateRoundTrip` | src/arena/games/liarsdice/serializer.py:128-145 | Loading undoes dumping for every state the constructor admits. |
| `LiarsDiceGame.ConfigLoads` | src/arena/games/liarsdice/config.py:12-27 | A config loads exactly with one to six dice a seat and two to nine faces, and dumps as it was. |
| `LiarsDiceGame.DefinitionIsWellFormed` | src/arena/games/liarsdice/serializer.py:114-233 | Liar's Dice meets everything the match layer assumes of a game, and none of its events is visible to nobody, so every replay and redaction result holds of it outright. |
| `LiarsDiceEnds.EveryMoveLeavesFewerTurns` | src/arena/games/liarsdice/rules.py:114-206 | Every accepted action and every valid roll lowers one natural number, the turns a match can still have. |
| `LiarsDiceEnds.StartWithinBound` | src/arena/games/liarsdice/config.py:12-27 | That number is f(n(2n+1)-1)+2(2n-1) at the start, at most 715 for any config. |
| `LiarsDiceEnds.EveryMatchStarts` | src/arena/games/liarsdice/rules.py:47-55 | A live match of any config and seed starts with its first round dealt, all dice in hand and seat 0 to open. |
| `LiarsDiceEnds.LiarsDiceAlwaysEnds` | src/arena/games/liarsdice/rules.py:60-215 | No live match, however played and rolled, has more turns than the bound; one that used them all is over; and while it is not over the seat to move has a legal action. Who has won it is LiarsDiceTells.WinnerIsTheSeatWithDice. |
| `LiarsDiceEnds.LegalActionsAreTaken` | src/arena/games/liarsdice/rules.py:60-206 | A live match accepts every legal action, rolling the next round if one begins. |
| `LiarsDiceEnds.StandingBidIsAlwaysTheOthers` | src/arena/games/liarsdice/rules.py:114-163 | Every step of a run keeps the standing bid the last move, made by the seat not to move. |
| `LiarsDiceEnds.LiveStandingBid` | src/arena/games/liarsdice/state.py:117-121 | So in every live match the standing bid is the other seat's. |
| `LiarsDiceTells.OutranksIsRank` | src/arena/games/liarsdice/actions.py:29-32 | One bid outranks another exactly when it is later in the round's order of bids, by quantity and then face. |
| `LiarsDiceTells.LegalMeans` | src/arena/games/liarsdice/rules.py:75-112 | An action is accepted exactly while both seats hold dice and they are rolled, from the seat to move, if it calls a bid there is or bids on the dice in play above the last bid; each refusal has its own condition. |
| `LiarsDiceTells.EveryTurnTells` | src/arena/games/liarsdice/rules.py:114-206 | In every live match each turn did to the state before it what its move means, by a reference reading of the rules: the caller loses a die exactly if the dice on the table showing the face reach the bid; and its events and result say so. |
| `LiarsDiceTells.WinnerIsTheSeatWithDice` | src/arena/games/liarsdice/rules.py:148-215 | In every live match a seat has won exactly when it holds dice and the other none; it is then shown to hold the table, did not lose the last call, and is named by the last turn's result and event; no other turn names a winner. |
| `LiarsDiceTells.DiceAreAccountedFor` | src/arena/games/liarsdice/rules.py:114-206 | In every live match a seat holds what it began with less one per die_lost event that names it, and the round number counts the rolls. |
| `LiarsDiceViews.AlikeStatesLookAlike` | src/arena/games/liarsdice/rules.py:217-243 | States alike for a viewer give it the same dump, the same observation and public view, and the same legal and valid actions. |
| `LiarsDiceViews.ViewsShowOwnDice` | src/arena/games/liarsdice/rules.py:217-243 | Against the full dump of the same state: every view carries the same public fields, a seat's view and observation its own dice alone, the public's none; the observation lists exactly the actions accepted. |
| `LiarsDiceViews.RollShowsOwnDice` | src/arena/games/liarsdice/serializer.py:216-233 | Against the full dump of the same roll: a seat is shown its own hand, the public how many dice fell. |
| `LiarsDiceViews.SameEntitlementSameViews` | src/arena/games/liarsdice/serializer.py:147-175 | Two runs that entitle a viewer to the same knowledge give it the same turn views, event by event and roll by roll. |
| `LiarsDiceViews.SameViewsSameEntitlement` | src/arena/games/liarsdice/serializer.py:216-233 | And the views let the viewer know no less: the same views mean the same knowledge. |
| `LiarsDiceViews.ViewsAreEntitlements` | src/arena/games/liarsdice/rules.py:114-243 | Over whole live matches of one config, two matches give a viewer the same transcript if and only if they share the actions, the viewer's own hand of every round and both hands of every called round. |
| `Connect4.CountDirection` | src/arena/games/connect4/rules.py:199-221 | The counting loop counts the unbroken run of a disc in one direction. |
| `Connect4.FindWinner` | src/arena/games/connect4/rules.py:157-164 | The scanning loops find what the recursive scan finds. |
| `Connect4.DropRow` | src/arena/games/connect4/rules.py:136-140 | The dropping loop finds the lowest empty row of a column, or none. |
| `Connect4.LegalIffValid` | src/arena/games/connect4/rules.py:35-74 | legal_actions lists exactly what validate_action accepts. |
| `Connect4.LegalMeans` | src/arena/games/connect4/rules.py:48-74 | A drop is accepted exactly while neither seat has a line and some cell is empty, from the seat to move, into a column of the board whose top cell is empty; each refusal has its own condition. |
| `Connect4.ScanDecidesLines` | src/arena/games/connect4/rules.py:157-164 | The scan finds nobody exactly when no seat has a line of the winning length anywhere, and whom it finds has one. |
| `Connect4.FastCheckRefinesScan` | src/arena/games/connect4/rules.py:166-197 | On any board the scan finds undecided, after any disc on any empty cell, the check around that cell finds whom the whole scan finds. |
| `Connect4.TransitionTellsTheResult` | src/arena/games/connect4/rules.py:76-117 | Every accepted drop puts the seat's disc in the lowest empty cell of its column and changes no other, reports the result the next state gives in its result and its events, passes the turn exactly when there is none, and a win is the mover's. |
| `Connect4.OnlyTheMoverLinesUp` | src/arena/games/connect4/rules.py:92-105 | After an accepted drop a seat has a line of the winning length exactly if it is the mover and has won. |
| `Connect4Runs.EveryGameAlternates` | src/arena/games/connect4/rules.py:76-155 | In every game columns stay gravity-filled, the seats' disc counts alternate, the turn follows them until the game is decided, and there are no more drops than cells. |
| `Connect4Runs.EveryGameIsDecidedRightly` | src/arena/games/connect4/rules.py:92-117 | Over every game: a seat has won exactly if it has a line, and it moved last; the game is drawn exactly if there were as many drops as cells and neither seat has a line; else the seat to move has a column to drop in. |
| `RateLimits.Prune` | src/arena/server/rate_limits.py:121-126 | The pruning loop drops exactly the timestamps out of the span. |
| `RateLimits.ActionThrottle.ReserveAction` | src/arena/server/rate_limits.py:372-395 | The delay is the one the whole history of slots gives, though the window has forgotten most of it; it is never negative; and one slot is added. |
| `RateLimits.ActionThrottle.CheckAction` | src/arena/server/rate_limits.py:357-370 | Accepts exactly when fewer than cap slots ever reserved lie after the trailing window's start. |
| `RateLimits.CallKeepsThrottle` | src/arena/server/rate_limits.py:357-395 | Every call keeps the throttle's invariant: the window is the recent tail of a history whose every slot is a window after the cap-th before it. |
| `RateLimits.NoEarlierSlot` | src/arena/server/rate_limits.py:372-395 | The slot given is the earliest from now on that keeps the actions spaced. |
| `RateLimits.AtMostCapPerWindow` | src/arena/server/rate_limits.py:372-395 | In such a history no half-open interval of one window holds more than cap slots. |
| `RateLimits.ThrottleHolds` | src/arena/server/rate_limits.py:357-395 | So whatever was called and pruned, no match ever gets more than cap slots in one window. |
| `RateLimits.BurstWaits` | src/arena/server/rate_limits.py:372-395 | Whatever was reserved before, once a match's window has emptied the calls of a burst at one instant wait exactly floor(i / cap) windows. |
| `RateLimits.ActionThrottle.ForgetMatch` | src/arena/server/rate_limits.py:397-403 | A forgotten match's slots are gone and every other match's are kept. |
| `RateLimits.KeyedWindows.ScanIfDue` | src/arena/server/rate_limits.py:309-327 | A scan runs exactly for a new key when the keys are many or a window has passed since the last; it drops exactly the empty and wholly stale windows and sets when the next is due. |
| `RateLimits.KeyedWindows.Check` | src/arena/server/rate_limits.py:309-355 | Whatever the cleanup dropped, the decision is that of a limiter that keeps every timestamp for ever; and there are never more keys than 4096 or twice what the last scan left. |
| `TranscriptStores.OldestFirstSorts` | src/arena/server/transcript_store.py:224-243 | The eviction order lists exactly the index's records, by the time they ended, ids still distinct. |
| `TranscriptStores.OldestFirstIsStable` | src/arena/server/transcript_store.py:224-243 | Records that ended together keep the index's order. |
| `TranscriptStores.RoomFor` | src/arena/server/transcript_store.py:224-243 | The records dropped for room are the shortest oldest-first prefix, skipping the id being replaced, that makes the new one fit. |
| `TranscriptStores.LiveIsFresh` | src/arena/server/transcript_store.py:194-222 | What a call keeps: every record, re-dated if from the future, that has not expired, and no other. |
| `TranscriptStores.FoundDecides` | src/arena/server/transcript_store.py:291-303 | A record is found exactly when it has not expired. |
| `TranscriptStores.AddingKeeps` | src/arena/server/transcript_store.py:184-192 | Adding a record after making its room keeps index, bodies, total and both caps. |
| `TranscriptStoreKeeps.PutKeepsTheRest` | src/arena/server/transcript_store.py:194-243 | Of the records a put finds it keeps exactly those of other ids that have not expired, re-dated if more than five minutes ahead, and were not dropped for room. |
| `TranscriptStoreKeeps.OldestGoFirst` | src/arena/server/transcript_store.py:224-243 | What is dropped for room ended no later than anything that stays. |
| `TranscriptStoreKeeps.RoomIsNoMoreThanNeeded` | src/arena/server/transcript_store.py:224-243 | The new record fits beside what stays within both caps, and would not with the last dropped record kept. |
| `TranscriptStores.ClampEntries` | src/arena/server/transcript_store.py:194-202 | The loop re-dates to now exactly the records more than the slack in the future. |
| `TranscriptStores.CountAndTotal` | src/arena/server/transcript_store.py:232-234 | The count and bytes a new record would bring, the record it replaces not counted. |
| `TranscriptStores.MemoryTranscriptStore.Discard` | src/arena/server/transcript_store.py:189-192 | One id's record, if any, goes from index and bodies and its bytes from the total. |
| `TranscriptStores.MemoryTranscriptStore.Drop` | src/arena/server/transcript_store.py:319-322 | The loop removes exactly the ids named, from index and bodies alike. |
| `TranscriptStores.MemoryTranscriptStore.AddRecord` | src/arena/server/transcript_store.py:284-289 | Room is made fairly and the record put last in place of its id's earlier one. |
| `TranscriptStores.MemoryTranscriptStore.Put` | src/arena/server/transcript_store.py:278-289 | Refused exactly for a non-public audience, an invalid id or a body over either byte limit, or when closed, and then nothing changes; otherwise future records are re-dated, expired ones dropped, room made fairly and the record added last, total and bodies agreeing with the index. |
| `TranscriptStores.MemoryTranscriptStore.Get` | src/arena/server/transcript_store.py:291-303 | Returns the stored body of a valid id that has not expired, and nothing else; one found expired is dropped. |
| `TranscriptStores.MemoryTranscriptStore.Sweep` | src/arena/server/transcript_store.py:305-311 | Leaves exactly the live records and says how many went. |
| `TranscriptStores.MemoryTranscriptStore.Close` | src/arena/server/transcript_store.py:313-317 | Afterwards the store is empty and refuses to put. |
| `Broadcasts.MatchConnections.BroadcastPerViewer` | src/arena/server/runtime_bridge.py:812-873 | The recipient, rendering, queueing and shedding loops do to every connection what the driver's one-step broadcast says, or nothing at all when a seat view cannot be built. |
| `Broadcasts.MatchConnections.Render` | src/arena/server/runtime_bridge.py:846-861 | Every distinct view is built once before anything is queued; a seat's failure raises, the public one marks every spectator. |
| `Broadcasts.MatchConnections.Recipients` | src/arena/server/runtime_bridge.py:841-845 | Both seats in order, then exactly the spectators whose watermark the turn is not below. |
| `Broadcasts.MatchConnections.QueueAll` | src/arena/server/runtime_bridge.py:863-872 | Each recipient whose view was built is queued it once, and a spectator's watermark moves past the turn. |
| `Broadcasts.MatchConnections.ShedOverflowed` | src/arena/server/runtime_bridge.py:727-752 | Exactly the spectators that fell behind are dropped. |
| `Broadcasts.BroadcastsShareViews` | src/arena/server/runtime_bridge.py:812-873 | With perfect information the driver's broadcasts build one frame for every viewer. |
| `DriverControl.RunControl` | src/arena/server/runtime_bridge.py:1316-2060 | In every run: one abort at most, none once the end has begun, none beside a round with every action in, and no terminal broadcast after one. |
| `DriverEnds.AtMostOneTerminalFrame` | src/arena/server/runtime_bridge.py:1387-1457 | In every run, with failing views, exceptions, full outboxes, aborts and resumes anywhere: no connection is queued two terminal frames, no seat gets two over all its connections, and the one it gets is its ended session's with the viewer's whole transcript. |
| `DriverEnds.SeatsAreToldExactlyWhen` | src/arena/server/runtime_bridge.py:1316-2060 | In every run, whatever fails and wherever: a seat still listening on its connection has been told its session's end if and only if some step reached a terminal broadcast of the ended session with both seats' views built. |
| `DriverEnds.ExactlyOneTerminalFrame` | src/arena/server/runtime_bridge.py:1995-2044 | However the driver's own code fails, failing turn views included: if the end itself can be shown to the seats whenever it is broadcast and the abort's match_state goes out, each seat still listening when the driver exits has been told exactly once. |
| `DriverEnds.FailedAbortTellsNobody` | src/arena/server/runtime_bridge.py:1814-1844 | From any state where the driver only waits for an abort about to notify: if a seat's view of it cannot be built, the driver exits and nobody has been told. |
| `EdgeCases.SeatsAreLeftUntold` | src/arena/server/runtime_bridge.py:1814-1844 | Such a state is reached: a run of twelve steps, from the start through a timed-out joint round, after which the driver has exited, the match is aborted, and both seats, connected and keeping up, were told nothing. |
| `DriverSessions.RunMovesOn` | src/arena/server/runtime_bridge.py:1924-1936 | Along every run the session only moves on: histories grow, no turn a viewer saw is shown otherwise, and every change raises turns or stage. |
| `DriverSessions.WelcomeKeyDecides` | src/arena/server/runtime_bridge.py:321-329 | At any two points of a run with the same turn count and lifecycle the session is the same, so a welcome cached under the pair is the one that would be built now. |
| `DriverDelivery.SpectatorsGetEveryTurnOnce` | src/arena/server/runtime_bridge.py:310-355 | For every interleaving of attaches, commits and per-turn broadcasts, a spectator's welcome and turn_committed frames are the first turns of the public transcript, each once and in order, and all of it whenever the driver waits for the seats or is about to send the terminal frame. |
| `DriverDelivery.SeatsGetEveryTurnOnce` | src/arena/server/routes_ws.py:514-594 | A seat, through its resumes, is sent every turn of its own transcript once and in order, and all of them when the driver waits or is about to send the terminal frame, as long as no resume falls between a commit and its last broadcast and its connection keeps up. |
| `DriverDelivery.ResumeMidBroadcastRepeats` | src/arena/server/routes_ws.py:563-594 | That condition is needed: a resume in between sends the pending turn in the welcome and again live. |
| `DriverRounds.EarlyActionIsHidden` | src/arena/server/runtime_bridge.py:1805-1844 | Until every acting seat has an accepted action, whatever happens, an abort included, the session and every frame to anyone are the same whichever legal action an early seat submitted. |
| `DriverRounds.CommitsExactlyTheRound` | src/arena/server/runtime_bridge.py:1896-1933 | The match changes only by applying exactly the acting seats' held actions, each judged good at that point, and exactly their turn ids are marked committed. That good actions are held and applied is DriverAnswers. |
| `DriverRounds.NoActionIsJudgedTwice` | src/arena/server/runtime_bridge.py:1267-1274 | No (seat, turn id) pair is evaluated twice in a match. |
| `DriverAnswers.ActionsAreJudgedByTheGame` | src/arena/server/runtime_bridge.py:1707-1803 | In every run an action a running match waits for, under a fresh turn id, is held exactly if the game takes it, applied for a lone seat, validated in a joint round; otherwise one rejection with the attempts left is queued and one attempt, at the last the match, is lost. |
| `DriverAnswers.ResentActionsAreDropped` | src/arena/server/runtime_bridge.py:1267-1274 | An action whose turn id was committed or rejected before changes nothing. |
| `DriverAnswers.ActingSeatsAreAsked` | src/arena/server/runtime_bridge.py:1459-1493 | An undisturbed driver about to ask a running match asks exactly the seats the game waits for, each on its connection, once and with the whole budget. |
| `DriverAnswers.RoundsAreApplied` | src/arena/server/runtime_bridge.py:1884-1936 | The undisturbed next step applies a round with every action in: the match is then the game's own next one, finished exactly if over; two actions the game refuses together stop it as the engine's fault. |
| `DriverAnswers.LegalActionsArePlayed` | src/arena/server/runtime_bridge.py:1884-1936 | End to end: a lone acting seat that is asked and answers with an action the game takes has it applied. |
| `DriverAnswers.LegalRoundsArePlayed` | src/arena/server/runtime_bridge.py:1805-1844 | End to end: two good actions of a joint round are applied together, whichever came first. |
| `DriverTruth.EveryFrameIsTrue` | src/arena/server/runtime_bridge.py:875-1040 | In every run every frame on every connection was true of the match, in its viewer's rendering, when it was queued: welcomes, turns, states, requests and the end. |
| `DriverLimits.SessionsStandRightly` | src/arena/server/runtime_bridge.py:1924-1936 | In every run a session is running only while its game goes on, finished only once it is over, and aborted for a reason. |
| `DriverLimits.NoRoundPastTheLimit` | src/arena/server/runtime_bridge.py:1948-1970 | In every run no round but the first is asked for at or past the turn limit. |
| `DriverLimits.TurnsAreFollowedByTheState` | src/arena/server/runtime_bridge.py:1944-1970 | After a round's last turn each listening seat is queued how the match stands; a running match at the limit is then stopped for it, any other goes on. |
| `DriverLimits.StopsNameTheirReason` | src/arena/server/runtime_bridge.py:1517-1659 | An expired deadline and an outlasted grace stop the match, each under its own reason. |
| `DriverLimits.BreakdownsStopTheMatch` | src/arena/server/runtime_bridge.py:1994-2020 | A driver that breaks down in a match that has not ended stops it as broken. |
| `DriverLimits.FirstReasonStands` | src/arena/server/runtime_bridge.py:1394-1457 | In every run the first reason a match is stopped for is the one it ends with. |
| `DriverLimits.MalformedFramesAreCounted` | src/arena/server/runtime_bridge.py:1680-1701 | A malformed frame gets one error frame and costs no attempt; the sixteenth on a connection closes it. |
| `DriverLimits.SixteenErrorsClose` | src/arena/server/runtime_bridge.py:1680-1701 | In every run no loop reads on from an open connection that sent it sixteen. |
| `DriverLimits.ResumedSeatsAreAskedAgain` | src/arena/server/runtime_bridge.py:1639-1678 | A seat that resumed is asked again on its new connection, with the attempts it has left and a fresh count of errors. |
| `DriverLimits.FinishedMatchesAreTold` | src/arena/server/runtime_bridge.py:1972-1992 | A finished match, undisturbed, is stored and its end told to each listening seat; the driver then exits. |
| `DriverLimits.StoppedMatchesAreTold` | src/arena/server/runtime_bridge.py:1434-1457 | A stopped match, undisturbed, is aborted for its reason and stored; each listening seat is told that it is aborted, then the end. |
| `DriverLimits.StoppedDriversLeave` | src/arena/server/runtime_bridge.py:1428-1433 | Once the abort is done the driver exits at its next step, or the one after if a seat's loop noticed the end by itself; if it failed, a driver that asks breaks down. |
| `DriverLimits.RefusedStartsAreTold` | src/arena/server/runtime_bridge.py:1848-1858 | A match that could not be started, undisturbed, is stored; each listening seat is told that it is aborted, then the end; the driver exits. |
| `DriverHandlers.ResumesSwapTheConnection` | src/arena/server/routes_ws.py:514-594 | A resume the server can serve gives the seat a new connection with its welcome and the match's state, closes the one it had and touches no other; any other resume changes nothing. |
| `DriverHandlers.SpectatorsAreWelcomed` | src/arena/server/runtime_bridge.py:310-355 | A spectator may attach at any time, is welcomed with every turn so far in the public rendering, and stays only while more can come. |
| `DriverHandlers.EndedMatchesAreNoticed` | src/arena/server/runtime_bridge.py:1534-1561 | A seat's loop that waits in a match no longer running sends nothing more, whatever it reads and however it times out. |
| `DriverRetries.RefusalsCountDown` | src/arena/server/runtime_bridge.py:1713-1794 | In every run, for each seat over all its connections, whatever was malformed or resumed in between: the rejections of a turn report the budget and count down by one, an open loop has left what they have not reported, every open connection holds exactly what was said on it, and after a report of 0 only match_state and the terminal frame come. |
| `DriverGames.MatchesAreWellBehaved` | src/arena/match/local_match.py:158-236 | The match layer's own steps meet what the driver results assume of a game. |
| `DriverGames.CommittedTurnCarriesTheRound` | src/arena/match/local_match.py:199-236 | The first turn a commit adds to the match records exactly the acting seats' held actions: both, by seat, of a joint round, or the one seat's. |
| `DriverGames.LegalActionsAreCommitted` | src/arena/server/runtime_bridge.py:1884-1936 | A match of any game waiting for one seat plays the legal action that seat answers with: the match layer's result, rolls included, is the match from then on. |
| `DriverGames.LegalRoundsAreCommitted` | src/arena/server/runtime_bridge.py:1884-1936 | And a joint round plays both seats' actions together, whichever came first. |
| `DriverGames.SeatsAreHeldToTheRules` | src/arena/server/runtime_bridge.py:1707-1812 | In every run of any game an action waited for is held exactly if the match can be stepped by it, for a lone seat, or the engine finds it valid, in a joint round. |
| `DriverGames.MatchesEndWhenTheyAreOver` | src/arena/server/runtime_bridge.py:1924-1936 | A hosted match is running only while its engine says it goes on and finished only once it says it is over. |
| `DriverGames.ToldIsTheDump` | src/arena/match/transcript.py:636-665 | For a hidden-information game what the driver tells a viewer over a match is, turn for turn, the transcript dumped for that viewer. |
| `DriverGames.SpectatorsHoldTheDump` | src/arena/server/runtime_bridge.py:310-355 | A spectator still listening when the driver waits, or is about to send the terminal frame, holds the match's turns in the public rendering; for a hidden-information game, or whenever the rendering is the full transcript, those of the public dump. |
| `HostedLiarsDice.NeverStoppedForLength` | src/arena/server/config.py:24 | Under any cap above 715, as the server's 5000 is, a hosted Liar's Dice match never has more than 715 turns and is never aborted for exceeding the cap. |
| `ViewCaches.ViewTranscripts.TranscriptFor` | src/arena/server/runtime_bridge.py:465-502 | Whatever was cached, grown, evicted or forgotten before, the transcript returned is the one rendered from nothing, and for a hidden-information game the viewer's dump; the LRU order is kept. |
| `ViewCaches.ViewTranscripts.Forget` | src/arena/server/runtime_bridge.py:460-461 | Forgetting a match drops its transcripts and no others. |
| `ViewCaches.SpectatorWelcomes.Forget` | src/arena/server/runtime_bridge.py:462-462 | Forgetting a match drops its welcome and no other. |
| `ViewCaches.ForgetMatchTranscripts` | src/arena/server/runtime_bridge.py:457-462 | An evicted match leaves nothing in either cache, and every other match keeps its entries. |
| `ViewCaches.CachedIsFull` | src/arena/server/runtime_bridge.py:465-502 | For a live perfect-information match the cached transcript is the full one, for every viewer, if and only if every event is public. |
| `EdgeGames.PrivateEventIsLostInCache` | src/arena/server/runtime_bridge.py:465-502 | Outside that condition it fails: a perfect-information game with a private event, and a live match whose cached transcript is not the full one. |
| `ViewCaches.SpectatorWelcomes.Welcome` | src/arena/server/runtime_bridge.py:321-355 | A welcome, cached or rebuilt, is the session's own, for a session that only moved on since the cached one was built. |
| `Retries.PlayMatch` | sdk-ts/src/seat.ts:149-195 | The receive loop answers exactly the messages named below and ends with the first terminal frame there is, or with none. |
| `Retries.AnswersThePrompts` | sdk-ts/src/seat.ts:161-183 | playMatch answers every request, and every rejection of a request that leaves retries, up to the terminal frame, and nothing else. |
| `Retries.EndsWithTheFirst` | sdk-ts/src/seat.ts:149-195 | playMatch ends with the first terminal frame received. |
| `Retries.NeverBothWaiting` | src/arena/server/runtime_bridge.py:1713-1794 | Client and server composed: while a turn is open, a client that reads all that is on its way leaves an answer on its way back, never more than one; the rejections of a turn report budget, budget-1 and so on, 0 only when exhausted; a report of 0 in flight has match_aborted right behind it and nothing after; no answer was judged before. |
| `Retries.ServerAsksAndEnds` | src/arena/server/runtime_bridge.py:1459-1493 | In every run the server asks between turns only, with the whole budget, and says one end, last. |
| `Retries.ServerJudgesEveryAnswer` | src/arena/server/runtime_bridge.py:1713-1803 | In every run an answer to an open turn closes it if good; if bad it is reported the attempts left, the budget less the rejections so far, and after a report of 0 the match is aborted. |
| `Retries.TheClientIsPlayMatch` | sdk-ts/src/seat.ts:149-195 | In every composed run the client stands where playMatch would after what it has read, and has sent one answer, with an id of its own, for each message playMatch answers. |
| `Retries.RunSound` | src/arena/server/runtime_bridge.py:1713-1794 | Every step of the composed protocol keeps exactly one prompt or answer in flight per open turn, terminal frames last, and match_aborted right behind a report of 0. |
| `Registries.MatchRegistry.EvictExpired` | src/arena/server/registry.py:194-255 | The sweeping loop and the shedding leave exactly what the sweep function leaves, and the ids returned are the ones removed. |
| `Registries.MatchRegistry.Create` | src/arena/server/registry.py:143-168 | The tracked count never exceeds the maximum; a match is refused only when nothing that may be shed is left. |
| `Registries.EvictionKeepsTheLive` | src/arena/server/registry.py:194-255 | A sweep never removes a match its driver holds; any other is lost only once unchanged for the retention if it has ended, the unstarted age if never started, the maximum age if running, or, at capacity, if it is not running. |
| `Registries.IdleMatchesGo` | src/arena/server/registry.py:194-255 | A match nobody drives, seen by an earlier sweep as it still stands, is evicted once the age its lifecycle allows has passed since. |
| `Registries.EndedAreShedFirst` | src/arena/server/registry.py:234-252 | What is shed for room: a never-started match only once no free ended one is left, and of two alike in that the one unchanged for longer, by id where they tie. |
| `Registries.SweepMakesJustRoom` | src/arena/server/registry.py:234-252 | Nothing is shed below capacity, no more than makes room for one, and room is made unless nothing free is left. |

## Left out

- Pydantic models, JSON text and the WebSocket codec: payloads are datatypes. A joint turn's action keys are the integers `_seat_key` reads, -1 for anything but a canonical seat.
- The hash itself, seed minting, and the generator counter's upper limit of 2^128.
- HTTP routes, asyncio tasks, locks, sockets and backlog probing: only their effects are steps. A socket that closes takes no more frames; an outbox that is full loses the frame and marks its connection.
- Heartbeats and anything else that may follow a terminal frame on a seat's socket: only terminal frames are counted.
- Fresh turn ids for answers that carry none, and the client's random ids, are taken to be unique.
- The close codes, log records, deadlines in milliseconds and resume tokens of the driver.
- DriverEnds.ExactlyOneTerminalFrame: says nothing of a seat whose connection closed or fell behind, which the server does not tell either.
- DriverDelivery.SeatsGetEveryTurnOnce: speaks of connections that have not fallen behind; a seat that did is closed and must resume.
- Retries.NeverBothWaiting: takes the connection to stay up; playMatch itself does not resume.
- ViewCaches.CachedIsFull: takes a serializer with nothing to redact, as a perfect-information game's is when it declares no redaction hooks.
- The hello and welcome of a seat before the match starts, and the placeholder the server validates a cached transcript's envelope with.
- Games.ActingSeats: takes the one seat an engine without the acting-seats hook names to be a seat of the table, which the program does not check there.
- A single frame for a full seat outbox is taken as its socket closing, which is what the server then does.
- Chance.Draw: takes a hash under which some later word is accepted for every bound, so that the loop ends.
- The transcript store's file and SQLite forms, disk errors and tightened caps on reopening.
- The per-address and per-match connection gauges, address parsing and bucketing.
- Registry ids are integers, standing for the order in which ties of age are broken; the eviction hook and `delete` are not modelled, and `create` is one step.
- The other games (Nim, Pig, Tic-Tac-Toe, Rock-Paper-Scissors), which exercise less than these two, and the game and adapter registries.
- Replay of a finished session through a shared engine whose config is not the match's.
- Agents, prompts, command line, user interface, the MCP server and HTTP clients.
