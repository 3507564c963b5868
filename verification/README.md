# Verified models of the ArcEmu world server's stateful cores

This project models seven stateful cores of the ArcEmu game server in Dafny and proves what each of
them is for, over every input and every run:

* **Timed events** (`TimedEvents`, `TimedEventSafety`, `TimedEventRuns`, `TimedEventPlacement`,
  `TimedEventSweep`, `TimedEventTiming`, `TimedEventRepeats`, `TimedEventRate`, `TimedEventEffects`,
  `EventSystem`, `RefTotals`). Objects own events; holders run them; an event is shared by the object's
  multimap, holders' lists and holders' insert pools, is reference counted and lazily deleted. Every
  lock-protected operation is one step and a callback is whatever steps happen between its start and its
  return, so all interleavings of callbacks, other holders and other objects are covered.
* **Dungeon finder** (`LfgEntries`, `LfgQueues`, `LfgMatchmaking`, `LfgSafety`, `LfgRuns`,
  `LfgConsent`, `LfgManager`). Greedy role allocation, one queue per dungeon, the index of who queued for
  what, and the life of a proposal.
* **Achievements** (`Achievements`, `AchievementFixpoint`, `AchievementManager`, `WireFormat`,
  `AchievementPackets`). The recursive cascade of achievements that ask for other achievements, and the
  splitting of a player's whole record into packets the client can read.
* **Groups** (`Groups`, `GroupSafety`, `GroupTable`). Parties and raids, subgroups, and the pointers
  back from the players.
* **Guilds** (`GuildRanks`, `GuildSafety`, `GuildHall`, `GuildBank`). The rank table, membership, the
  guild master, and the bank with its per-day withdrawal limit.
* **Loot** (`LootFill`) and **reputation** (`Reputation`).

`Basics` holds what several of them share.

The layout is the same throughout. A module of datatypes and functions says what each operation does
to the state. Lemmas about those functions prove the invariants, the theorems over whole runs and,
where the code does not keep a promise, exactly when it does. A class then carries out the operations
step by step, as the server's own objects do, with loops and field updates; each of its methods is
proved to produce exactly the state the functions describe, so the theorems hold of the class as well.

Automatic induction is switched off on every lemma, so each inductive proof is spelled out.

`dafny verify dfyconfig.toml` checks the whole project.

## Where the code falls short of what one would expect

* An event with repeat count 1 can fire twice when a callback relocates its object to a second holder
  and that holder runs before the callback returns (`OverlapFiresTwice`). The bound holds exactly if each
  start finds fewer callbacks of the event running than repeats left (`FiresAtMost`), so it holds for every
  event that one holder alone has and whose object stays there (`OneHolderFiresAtMost`).
* Relocating an object to an instance that has no holder takes its live events out of every holder
  (`PlacedExactlyUnlessStranded` says this is the only way), and a later add does not bring them back
  (`OldEventsStayDormant`).
* A dungeon-finder request that names only the leader role leaves an empty group in the queue
  (`JoinSeatsIff`), and one that names a dungeon twice gives the player two seats there
  (`JoinSeatsPerMention`, `JoinKeepsIndexIff`); a request made while a proposal is pending puts the player in both places
  (`JoinKeepsApartIff`); an entry is stuck exactly with five players and no leader
  (`LeaderlessFullIsStuck`); the players of a proposal are lost exactly by the last consent to a group
  for which no instance can be created (`NoInstanceLosesPlayers`).
* A player refused by a full group loses the pointers to the old group but stays in its subgroup, and a
  member added to the own group again is counted twice (`AddKeepsIff`); expanding a raid again drops
  everyone outside the first subgroup (`ExpandKeepsIff`); the cached count and the subgroups disagree on
  being full exactly for a dungeon-finder group of five (`FinderGroupFailsQuietly`).
* A holder destroyed while objects are attached leaves them with pointers to it
  (`DestroyHolderKeepsIff`).
* An officer can promote members who outrank the officer, because the unsigned difference of ranks wraps
  (`PromotesIff`); a guild master who transfers the guild to himself leaves it without a master
  (`TransferKeepsIff`).
* Money is lost when a withdrawal takes a player's gold to 2^31 or beyond (`WithdrawConservesIff`,
  `ModGoldExactIff`), and a lowered daily limit makes the available amount wrap
  (`AvailableWithinLimitIff`).
* A stack of loot that overflows 32 bits loses items (`FillAddsIff`).
* Setting a standing outright can send the wrong exalted notification (`SetNoticeRightIff`).

## Model

| member | source | states |
|---|---|---|
| TimedEventSafety.StepSound | src/world/EventableObject.cpp:24-534 | every operation of an object or holder, from any sound state and in any interleaving, reads only allocated events and live list nodes and leads to a sound state: exact reference counts, one owner per event, multimap order, holders and registry in agreement |
| TimedEventSafety.DestroyHolderKeepsIff | src/world/EventableObject.cpp:311-327 | destroying a holder between passes keeps all that exactly when no object is attached to it |
| TimedEventRuns.RefCountsExact | src/world/EventMgr.h:270-280 | in every reachable state an allocated event's count equals its entries in multimaps, lists and pools plus the one a DELETES_OBJECT callback keeps, and whatever is referred to is allocated |
| TimedEventRuns.FreedForever | src/world/EventMgr.h:270-277 | an event once freed stays freed whatever runs: it is freed at most once |
| TimedEventRuns.DeletedForever | src/world/EventableObject.cpp:125-164 | the deleted flag is never cleared while the event exists |
| TimedEventRuns.NothingLeaks | src/world/EventableObject.cpp:24-36 | once every object and every holder is destroyed, no event is allocated |
| TimedEventRuns.CallbackKeepsEvent | src/world/EventableObject.cpp:349-418 | over any steps taken by or during a callback, the running event is the same and still allocated and the saved iterator denotes the same node or the end; the list has only grown |
| TimedEventRuns.CallbackOwnerAlive | src/world/EventableObject.cpp:359-385 | a callback starts only for an event that is due, not deleted, of this holder's instance, and whose object exists and lists it |
| TimedEventRuns.OthersAppend | src/world/EventableObject.cpp:471-534 | what other objects and holders do to a holder in mid-pass is append to its list or pool; they never erase and never move its iterator |
| TimedEventPlacement.PlacedExactlyUnlessStranded | src/world/EventableObject.cpp:423-457 | from a state where every live event carries its object's instance and is in its object's holder, a step keeps that so if and only if it is not the relocation of live events to an instance without a holder |
| TimedEventPlacement.RunPlaced | src/world/EventableObject.cpp:49-97 | over any run whose relocations find a holder, every live event is in its object's current holder under its instance id |
| TimedEventPlacement.OldEventsStayDormant | src/world/EventableObject.cpp:53-69 | adding an event to an object without a holder attaches the object again but moves none of its old events into any holder |
| TimedEventPlacement.StepDropsOnlyDead | src/world/EventableObject.cpp:329-421 | a holder drops an entry only if it is deleted, belongs to another instance, or has just fired for the last time |
| TimedEventSweep.UpdateSweeps | src/world/EventableObject.cpp:329-367 | an entry that is stale or deleted throughout a holder's pass is no longer held when the pass ends |
| TimedEventSweep.UpdateSweepsDeleted | src/world/EventableObject.cpp:359-367 | every event deleted before a pass begins has left that holder when the pass ends, whatever callbacks did meanwhile |
| TimedEventRate.FiringRate | src/world/EventableObject.cpp:369-417 | an undisturbed event of period P and any repeat count n, whose holder was given S time units in deltas of at most D, has fired F times with F * P <= S <= F * (P - 1 + D) + (P - 1) until F reaches a count n > 0, and never more often; then it is deleted or freed |
| TimedEventRate.FiringTime | src/world/EventableObject.cpp:369-417 | the k-th firing, for every k up to the repeat count, comes when at least k * P and at most k * (P - 1 + D) time units have been given |
| TimedEventRepeats.StepTally | src/world/EventableObject.cpp:387-411 | however callbacks overlap, after every step the repeat count of an event not deleted is what is left of its n firings plus one per callback still running; a start stays within n exactly when fewer callbacks run than repeats are left |
| TimedEventRepeats.FiresAtMost | src/world/EventableObject.cpp:387-411 | over any run an event with repeat count n fires at most n times if and only if each start finds fewer of its callbacks running than its count; after the n-th firing, with no callback running, it is deleted or freed |
| TimedEventRepeats.OneHolderFiresAtMost | src/world/EventableObject.cpp:349-418 | an event that one holder alone has and whose object is not relocated fires at most n times; held once, it is in no list after the n-th callback has returned, and deleted or freed |
| TimedEventRepeats.LastFiringLeaves | src/world/EventableObject.cpp:386-402 | on the last firing the event is marked deleted and its node leaves the list |
| TimedEventRepeats.OverlapFiresTwice | src/world/EventableObject.cpp:369-411 | a concrete run from the empty world in which an event with repeat count 1 fires twice |
| TimedEventEffects.AddEventFindsHolder | src/world/EventableObject.cpp:53-72 | an attached object keeps its holder; otherwise the one registered for its instance is taken, and only without one the world's |
| TimedEventEffects.AddEventSchedules | src/world/EventableObject.cpp:74-96 | a new event has its whole period to go, is filed by type and entered at the end of the holder's list or pool, unless it may not run in the world's context and the holder is the world's; nothing else changes |
| TimedEventEffects.RemovalEnds | src/world/EventableObject.cpp:99-164 | removal by pointer, by type or with the object marks exactly the events meant as deleted and takes one reference, which frees those without another; every other event is as before |
| TimedEventEffects.RemovalKeepsOthers | src/world/EventableObject.cpp:99-164 | and takes exactly those out of the multimap, the rest keeping their order |
| TimedEventEffects.ModifyRetimes | src/world/EventableObject.cpp:171-273 | each of the three changes assigns period and time left as it should, the conditional one no more than the period, and reaches exactly the object's events of the type |
| TimedEventEffects.RelocateHandsOver | src/world/EventableObject.cpp:423-534 | an object that moves to another holder hands over exactly its live events, in order, each with one more reference and the new instance id, and nothing else changes |
| TimedEventEffects.StrandedStartsNowhere | src/world/EventableObject.cpp:434-447 | events of an object moved to an instance without a holder start in no holder but one with instance id 0 |
| TimedEventEffects.NewHolderRegisters | src/world/EventMgr.h:388-393 | a new holder is empty and idle, and is found under its instance id unless another one already is |
| TimedEventEffects.VisitStartsIff | src/world/EventableObject.cpp:349-385 | a visit starts a callback exactly for the event at the iterator if it is due, not deleted and of the holder's instance |
| TimedEventEffects.SelfDeletingFiresOnce | src/world/EventableObject.cpp:372-385 | an event flagged to delete its object fires at most once over any run |
| EventSystem.EventWorld.Update | src/world/EventableObject.cpp:329-421 | the loop, with callbacks free to call every operation, is a run of the modelled steps, keeps soundness, and leaves nothing held that was deleted when it began |
| EventSystem.EventWorld.DrainPool | src/world/EventableObject.cpp:332-347 | pending entries are appended to the list unless dead, in which case their reference is dropped |
| EventSystem.EventWorld.VisitNode | src/world/EventableObject.cpp:349-395 | one turn up to the callback: dead entries leave, due events start, others lose the elapsed time |
| EventSystem.EventWorld.FinishNode | src/world/EventableObject.cpp:387-417 | the rest of the turn after the callback: repeats are counted down, the event leaves the list or is rearmed |
| EventSystem.EventWorld.RemoveEventsOf | src/world/EventableObject.cpp:125-164 | exactly the events of one type, or all of them, are marked deleted, lose one reference and leave the multimap |
| EventSystem.EventWorld.RemoveEventByPointer | src/world/EventableObject.cpp:99-123 | exactly the given event leaves the multimap, marked deleted and released once |
| EventSystem.EventWorld.ModifyEvents | src/world/EventableObject.cpp:171-273 | period and time left change for exactly the events of the type, with the conditions of the three variants |
| EventSystem.EventWorld.HasEvent | src/world/EventableObject.cpp:275-303 | true exactly when the object has an event of the type that is not deleted |
| EventSystem.EventWorld.GetTimeLeft | src/world/EventableObject.cpp:196-226 | the time left, as a 32-bit word, of the first event of the type that is not deleted, if there is one |
| EventSystem.TimeLeftOfFirst | src/world/EventableObject.cpp:196-226 | the time left is that of the first event of the type, in map order, that is not deleted, and there is none exactly without such an event |
| EventSystem.EventWorld.AddObject | src/world/EventableObject.cpp:488-534 | exactly the live events get one more reference and the holder's instance id and go, in order, to its list or pool |
| EventSystem.EventWorld.RelocateObject | src/world/EventableObject.cpp:423-457 | the object leaves its holder and joins the one registered for the instance, or none |
| EventSystem.EventWorld.AddEventTo | src/world/EventableObject.cpp:49-97 | the new event is placed in type order in the multimap and in the object's holder, found by instance or else the world holder |
| EventSystem.EventWorld.DestroyObject | src/world/EventableObject.cpp:24-36 | every event of the object is deleted and released and the object is gone |
| EventSystem.EventWorld.DestroyHolder | src/world/EventableObject.cpp:311-327 | every reference of list and pool is released, and the holder and its registration are gone |
| EventSystem.EventWorld.DecRef | src/world/EventMgr.h:270-277 | the count falls by one and the event is freed exactly when it reaches zero |
| LfgEntries.AddKeepsOk | src/world/LfgMgr.cpp:169-221 | giving a new player a seat keeps the entry balanced: what is needed plus what is there is always one tank, one healer, three damage dealers and one leader |
| LfgEntries.SeatGiven | src/world/LfgMgr.cpp:169-221 | an entry takes a player exactly when some offered combat role is needed; the seat is the first such role in the order tank, healer, damage, it leads exactly when a leader is needed and offered, and nobody else changes |
| LfgEntries.RemoveKeepsOk | src/world/LfgMgr.cpp:223-270 | so does taking a player out |
| LfgEntries.RemoveTakesSeat | src/world/LfgMgr.cpp:223-270 | exactly the player's seat goes, and everybody else keeps seat and roles |
| LfgEntries.AddThenRemove | src/world/LfgMgr.cpp:169-270 | adding a new player and removing that player restores players and requirements exactly |
| LfgEntries.MetIffComplete | src/world/LfgMgr.h:128-151 | an entry is ready exactly when it has five players of whom one leads |
| LfgEntries.LeaderlessFullIsStuck | src/world/LfgMgr.cpp:169-221 | an entry is neither ready nor open to anyone exactly when it has five players none of whom leads |
| LfgEntries.FreshAccepts | src/world/LfgMgr.cpp:287-294 | a new entry takes a player exactly when some combat role is offered |
| LfgEntries.RebuildExact | src/world/LfgMgr.cpp:297-312 | re-adding players who fit together gives exactly those players, in order, each with exactly the roles held before |
| LfgEntries.ProposeDropReadd | src/world/LfgMgr.cpp:297-382 | proposing an entry, dropping any of its players and re-adding the rest rebuilds a balanced entry of exactly the rest |
| LfgQueues.AddPlayerSeats | src/world/LfgMgr.cpp:272-295 | a joining player ends up in exactly one entry, nobody else moves, and every entry stays balanced and non-empty |
| LfgQueues.FirstFit | src/world/LfgMgr.cpp:272-295 | the player joins the first entry of the faction that can use them and only that entry changes, or a new entry at the end |
| LfgQueues.JoinSeatsIff | src/world/LfgMgr.cpp:287-294 | the player is seated and the queue stays valid exactly when a combat role is offered |
| LfgQueues.RemovePlayerUnseats | src/world/LfgMgr.cpp:314-336 | a leaving player is in no entry, nobody else moves, and no empty entry stays |
| LfgQueues.RemovePlayerInPlace | src/world/LfgMgr.cpp:314-336 | the groups keep their places: only the leaver's changes, and it goes only if it is empty |
| LfgQueues.MatchProposable | src/world/LfgMgr.cpp:338-382 | the players proposed are queued, of one faction, unanswered, and fit into one group |
| LfgQueues.MatchIsFull | src/world/LfgMgr.cpp:358-373 | without force a proposal is exactly one full group with one leader |
| LfgQueues.MatchTakesFront | src/world/LfgMgr.cpp:338-382 | only the first entry of the faction is proposed, all of it, and exactly when it is full and led or matching is forced |
| LfgQueues.ReaddSeats | src/world/LfgMgr.cpp:297-312 | a failed proposal returns as one entry at the front with exactly its players and roles |
| LfgSafety.StepSound | src/world/LfgMgr.cpp:449-657 | every allowed call and every step of the update is defined and keeps queues, index and proposals consistent |
| LfgSafety.JoinSound | src/world/LfgMgr.cpp:449-600 | so does joining, with all its refusals |
| LfgSafety.LeaveSound | src/world/LfgMgr.cpp:602-616 | so does leaving, which fails a pending proposal |
| LfgSafety.AnswerSound | src/world/LfgMgr.cpp:618-657 | so does an answer, whatever it brings about |
| LfgSafety.RefusalDefinedIff | src/world/LfgMgr.cpp:910-963 | leaving or declining a proposal is defined exactly when it has another player, whose faction and roles the server then reads |
| LfgSafety.MatchSound | src/world/LfgMgr.cpp:872-908 | so does proposing a match, which takes its players out of every queue |
| LfgSafety.FailSound | src/world/LfgMgr.cpp:910-963 | so does failing a proposal |
| LfgRuns.WhereEveryoneIs | src/world/LfgMgr.cpp:722-756 | at every moment of every run a player is in a queue exactly once if the index lists it and never otherwise, never both queued and proposed, never in two proposals |
| LfgRuns.GroupsConsented | src/world/LfgMgr.cpp:618-657 | every group that forms consists of players each of whom said yes to that very proposal while it was pending and the player was in it |
| LfgRuns.GroupsAreFull | src/world/LfgMgr.cpp:758-796 | on runs without force every pending proposal and every group has exactly one tank, one healer, three damage dealers and one leader |
| LfgRuns.ProposalLifetime | src/world/LfgMgr.cpp:880-884 | a new proposal times out from twenty seconds after it was made and not before |
| LfgRuns.ExpiryRequeuesAll | src/world/LfgMgr.cpp:762-774 | a proposal that times out puts all its players back at the front of its queue, in order and with their roles |
| LfgRuns.DecliningRequeuesOthers | src/world/LfgMgr.cpp:910-963 | a decline puts back exactly the others and leaves the decliner in no queue and no proposal |
| LfgRuns.LeavingRequeuesOthers | src/world/LfgMgr.cpp:602-616 | leaving puts back exactly the others and leaves the leaver in no queue and no proposal |
| LfgRuns.NoInstanceLosesPlayers | src/world/LfgMgr.cpp:618-657 | after any answer to a proposal, a player of it who does not decline is queued, still proposed, or in the group that forms, if and only if this is not the last consent to a group without an instance |
| LfgRuns.ConcludeKeepsIff | src/world/LfgMgr.cpp:965-1010 | once everyone has accepted, nobody is lost exactly when an instance can be made or the group goes back to the queue |
| LfgRuns.JoinKeepsApartIff | src/world/LfgMgr.cpp:449-473 | a join that takes effect keeps queued and proposed players apart exactly when the player is in no pending proposal |
| LfgRuns.JoinKeepsIndexIff | src/world/LfgMgr.cpp:508-575 | a join that takes effect keeps queues and index valid exactly when a combat role is offered and no dungeon is named twice |
| LfgRuns.JoinSeatsPerMention | src/world/LfgMgr.cpp:508-575 | a join that takes effect gives the player one seat in a dungeon's queue for each time the request names the dungeon, and none if no combat role is offered |
| LfgRuns.JoinSoundIff | src/world/LfgMgr.cpp:449-600 | a join that takes effect keeps the whole finder sound exactly when a combat role is offered, no dungeon is named twice and the player is in no pending proposal |
| LfgConsent.YesIsRecorded | src/world/LfgMgr.cpp:45-63 | after a yes while others are awaited the proposal is still pending with the same players, dungeon and expiry, the answer is on record, and nobody else's record and nothing else has changed |
| LfgConsent.ConsentRemembered | src/world/LfgMgr.cpp:618-657 | over any run a pending proposal has on record as accepting exactly the players who said yes to it while it was pending, and at least one has not |
| LfgConsent.CompletionForms | src/world/LfgMgr.cpp:618-657 | in any run a step appends one group, of exactly the proposal's players, if it is the yes that all the others have given before and an instance can be made, and no other step forms a group |
| LfgConsent.UnanimityFormsOneGroup | src/world/LfgMgr.cpp:618-657 | once every player of a pending proposal has said yes and an instance could be made, ever after there is exactly one group of that number, with those players and roles, and the proposal is gone |
| LfgConsent.NoDungeonRequeuesAll | src/world/LfgMgr.cpp:965-983 | if no dungeon is left to go to, the last yes puts all players back at the front of their queue, in order and with their roles |
| LfgConsent.JoinTakesEffectIff | src/world/LfgMgr.cpp:449-600 | a request changes anything exactly if the player is not queued and in no group, and names roles and only eligible dungeons, at least one; the index then lists them |
| LfgConsent.LeavingUnqueues | src/world/LfgMgr.cpp:602-616 | a player who leaves without a pending proposal is in no queue, and nobody else is affected |
| LfgConsent.MatchProposes | src/world/LfgMgr.cpp:872-908 | a match becomes the next proposal, for that dungeon and of exactly the matched players, who leave every queue while everyone else stays |
| LfgManager.TryAddPlayer | src/world/LfgMgr.cpp:169-221 | the in-place allocation computes the modelled seat or leaves the entry as it was |
| LfgManager.TryRemovePlayer | src/world/LfgMgr.cpp:223-270 | the search and erase give back exactly the modelled seat |
| LfgManager.DungeonQueue.AddPlayer | src/world/LfgMgr.cpp:272-295 | the loop over the queue is the first-fit join |
| LfgManager.DungeonQueue.RemovePlayer | src/world/LfgMgr.cpp:314-336 | the loop over the queue is the modelled leave |
| LfgManager.DungeonQueue.ReaddGroup | src/world/LfgMgr.cpp:297-312 | the loop over the proposal is the modelled return |
| LfgManager.DungeonQueue.FindMatch | src/world/LfgMgr.cpp:338-382 | the search and copy propose the faction's first entry if ready or forced |
| LfgManager.Manager.AddPlayer | src/world/LfgMgr.cpp:449-600 | joining, with every check in order, is the modelled join |
| LfgManager.Manager.RemovePlayer | src/world/LfgMgr.cpp:602-616 | leaving queues and any pending proposal is the modelled leave |
| LfgManager.Manager.UpdateProposal | src/world/LfgMgr.cpp:618-657 | an answer is recorded and, if it decides the proposal, carried out as modelled |
| LfgManager.Manager.OnProposalFailed | src/world/LfgMgr.cpp:910-963 | the proposal leaves the store and everyone but the decliner is queued and indexed again |
| LfgManager.Manager.OnGroupFound | src/world/LfgMgr.cpp:872-908 | the players leave every queue and the proposal is stored under the next id |
| LfgManager.Manager.Update | src/world/LfgMgr.cpp:758-796 | the periodic update is a legal run of timeouts followed by one match per dungeon and faction in order; nothing pending has run out afterwards |
| AchievementFixpoint.CascadeIsLeastFixpoint | src/world/AchievementMgr.cpp:1234-1358 | the recursion ends with the smallest set of achievements that holds the old ones and the completed one and is closed under the achievements' rules: nothing earned is missing, nothing else was added |
| AchievementFixpoint.LoginCloses | src/world/AchievementMgr.cpp:1234-1270 | after one pass over the link criteria, as made at login, nothing earned is missing, and nothing else was added |
| AchievementFixpoint.CascadeOpenOnly | src/world/AchievementMgr.cpp:1244-1251 | besides the achievement completed itself, the cascade adds no counter and none of the other faction |
| AchievementFixpoint.PassOpenOnly | src/world/AchievementMgr.cpp:1244-1251 | nor does the pass at login |
| AchievementFixpoint.CascadeProgress | src/world/AchievementMgr.cpp:1234-1270 | afterwards every criterion that asks for a completed achievement, where the player may earn its own, has progress, and no other criterion has changed |
| AchievementFixpoint.CascadeRealm | src/world/AchievementMgr.cpp:1627-1645 | the realm's completed achievements grow by exactly the player's new ones |
| AchievementFixpoint.RuleMeans | src/world/AchievementMgr.cpp:1520-1561 | the rule is met exactly when one completed criterion suffices alone, or all are completed, or as many as the achievement asks for if that is more than one |
| AchievementFixpoint.CompleteRewards | src/world/AchievementMgr.cpp:1627-1645 | every newly completed achievement is rewarded exactly once and nothing else is; while the character is loading nothing is |
| AchievementFixpoint.RuleGrows | src/world/AchievementMgr.cpp:1520-1561 | an achievement whose criteria are met stays met when more criteria are completed |
| AchievementManager.AchievementMgr.CompletedNotStored | src/world/AchievementMgr.cpp:1520-1561 | the loop with its early exit answers exactly whether the rule holds for an achievement not yet stored |
| AchievementFixpoint.ProgressDecides | src/world/AchievementMgr.cpp:1567-1594 | storing a progress value adds that one criterion to the completed ones if the value is at least one and reaches the goal, removes it if not, and affects no other |
| AchievementManager.AchievementMgr.CompletedAchievement | src/world/AchievementMgr.cpp:1627-1645 | the mutually recursive methods end and compute the cascade |
| AchievementManager.AchievementMgr.UpdateLinkCriteria | src/world/AchievementMgr.cpp:1234-1270 | the loop over link criteria, with recursive completions inside it, is the modelled pass |
| AchievementManager.AchievementMgr.CompletedCriteria | src/world/AchievementMgr.cpp:1500-1512 | a completed criterion completes its achievement when it suffices alone or the rule holds |
| WireFormat.GuidRoundTrip | src/shared/Container/ByteBuffer.h:343-358 | unpacking a packed 64-bit value gives it back together with the bytes that follow |
| WireFormat.MaskBit | src/shared/Container/ByteBuffer.h:343-358 | bit k of the mask says whether byte k of the value, from the lowest, is not zero |
| WireFormat.AppendPackGuid | src/shared/Container/ByteBuffer.h:343-358 | the loop that sets mask bits while appending bytes writes the packed form |
| AchievementPackets.EveryPacketFits | src/world/AchievementMgr.cpp:1652-1664 | no packet is larger than 0x7fff bytes, for any sizes of the two maps |
| AchievementPackets.PageTakes | src/world/AchievementMgr.cpp:1673-1756 | every packet takes at least one entry of what is left, so sending ends |
| AchievementPackets.PageStopsWhenFull | src/world/AchievementMgr.cpp:1691-1748 | a packet leaves entries for another one only when it has grown past 0x7f00 bytes |
| AchievementPackets.AllArrives | src/world/AchievementMgr.cpp:1650-1764 | reading all packets by their separators gives every showable achievement and every eligible progress record once, in map order |
| AchievementPackets.SendAllAchievementData | src/world/AchievementMgr.cpp:1650-1764 | the nested loops send exactly those packets, each within the limit and together complete |
| Groups.FindFree | src/world/Group.cpp:102-109 | the first subgroup with a free place |
| GroupSafety.RosterAlwaysConsistent | src/world/Group.cpp:111-174 | over any run subgroups are disjoint and of at most five, the count is their total size, the role table has exactly the members, and a player's pointers name a subgroup exactly when it holds the player |
| GroupSafety.StepKeeps | src/world/Group.cpp:446-587 | every allowed operation is defined and keeps all that; for adding and removing, allowed means exactly what AddKeepsIff and RemoveKeepsIff ask |
| GroupSafety.AddKeepsIff | src/world/Group.cpp:111-174 | adding a player keeps it exactly when the player was in no group, or was in another and not refused, or no subgroup was free |
| GroupSafety.RemoveKeepsIff | src/world/Group.cpp:446-489 | removing a player from a group keeps it exactly when the player is a member or in no group at all |
| GroupSafety.AddSeats | src/world/Group.cpp:129-154 | after a successful add the player sits in the new group and in no other |
| GroupSafety.SuccessSeats | src/world/Group.cpp:122-154 | after a successful add the player sits in the subgroup asked for, or else the first with room, with the given role, in a group otherwise as it was; only leaving the old group changes anything else |
| GroupSafety.FailureSeats | src/world/Group.cpp:122-173 | an add that fails changes no group, and only a player refused for want of room loses the pointers |
| GroupSafety.LeavingKeepsRest | src/world/Group.cpp:446-535 | when a member leaves, the group is gone exactly if fewer than two stay and it is of the kind that disbands; otherwise it keeps its kind and every subgroup is as before without that player |
| GroupSafety.LeavingKeepsSeats | src/world/Group.cpp:446-535 | everybody else keeps group and subgroup unless the group goes, and then exactly its members are in no group |
| GroupSafety.DisbandKeepsRest | src/world/Group.cpp:347-417 | disbanding takes away the group and exactly its members' seats |
| GroupSafety.FullIffNoFreeSubgroup | src/world/Group.h:196 | for parties and raids the cached count says full exactly when no subgroup has room |
| GroupSafety.NotFullAccepts | src/world/Group.cpp:122-129 | adding to a party or raid succeeds exactly when it is not full |
| GroupSafety.FinderGroupFailsQuietly | src/world/Group.cpp:102-129 | the cached count says full exactly when no subgroup has room, unless the group is a dungeon-finder group of five; exactly there a default add fails without being refused, and it changes nothing |
| GroupSafety.MoveAlwaysFits | src/world/Group.cpp:684-734 | the subgroup moved to still has room when the player has left the old one, so the fallback removal is unreachable |
| GroupSafety.MoveKeeps | src/world/Group.cpp:684-734 | moving between subgroups keeps the roster consistent |
| GroupSafety.MoveSeats | src/world/Group.cpp:684-734 | a member is moved exactly if the subgroup asked for exists and has room, sits there afterwards and nowhere else, and everybody else sits where they sat |
| GroupSafety.ExpandKeepsIff | src/world/Group.cpp:564-587 | expanding keeps the roster consistent exactly when nobody sits outside the first subgroup |
| GroupSafety.ExpandMakesRaid | src/world/Group.cpp:564-587 | a party becomes a raid of eight subgroups with everybody where they sat |
| GroupTable.Table.AddMember | src/world/Group.cpp:111-174 | taking a place, leaving the old group and pointing to the new one come to the modelled add, and the result tells whether it succeeded |
| GroupTable.Table.RemovePlayer | src/world/Group.cpp:446-562 | the player is found by pointer or search and removed; a group left too small is disbanded; a player found nowhere only loses the pointers |
| GroupTable.Table.Disband | src/world/Group.cpp:347-417 | the members' pointers are cleared subgroup by subgroup and the group is gone |
| GroupTable.Table.MovePlayer | src/world/Group.cpp:684-734 | the move changes one subgroup each way and the pointer; its fallback branch is dead |
| GroupTable.Table.ExpandToRaid | src/world/Group.cpp:564-587 | the loop replaces subgroups one to seven by empty ones |
| GuildSafety.GuildAlwaysOrderly | src/world/Guild.cpp:266-305 | over any run from a charter ranks occupy a prefix and carry their slot numbers, members hold live ranks, the players' pointers agree with the member table, and exactly one member, the leader, holds rank 0 |
| GuildSafety.CharterOrderly | src/world/Guild.cpp:266-305 | a guild made from a charter by a leader without a guild starts so, whoever signed |
| GuildSafety.CharterMembers | src/world/Guild.cpp:266-305 | its members are exactly the leader, as master, and the signers who have no guild, with the lowest rank |
| GuildSafety.CharterRights | src/world/Guild.cpp:281-285 | it has five ranks, the first two with every right and the rest with the default ones |
| GuildSafety.StepSpares | src/world/Guild.cpp:307-1032 | no operation touches a player it does not concern, only those on ranks touch the rank table, and only a transfer changes the master |
| GuildSafety.EntryRankExact | src/world/Guild.cpp:728-744 | a newcomer gets the forced rank if it exists, the rank below the master on request, else the lowest |
| GuildSafety.NewcomerJoins | src/world/Guild.cpp:720-773 | a player without a guild becomes a member with that rank and pointers to it; anybody else is turned away |
| GuildSafety.RemovesIff | src/world/Guild.cpp:777-803 | a member is removed exactly if not the master and the server, the member, or an officer with the right and a higher rank asks |
| GuildSafety.LeaverHasNoGuild | src/world/Guild.cpp:805-846 | who leaves is no member and has no pointers any more |
| GuildSafety.RemoveRankKeeps | src/world/Guild.cpp:928-956 | only the last rank is deleted, never a default one and never one in use |
| GuildSafety.DropsIff | src/world/Guild.cpp:928-956 | the last rank goes exactly if it is beyond the first five and nobody holds it, and no other does |
| GuildSafety.CreateAppends | src/world/Guild.cpp:218-263 | a new rank comes last with the given rights, and with ten ranks none is added |
| GuildSafety.PromoteByOne | src/world/Guild.cpp:307-368 | a promotion raises the member by exactly one rank |
| GuildSafety.DemoteByOne | src/world/Guild.cpp:370-425 | a demotion lowers the member by exactly one rank and does nothing at the last |
| GuildSafety.RankMovesByOne | src/world/Guild.cpp:307-425 | after a promotion or demotion that takes effect the member's rank number is exactly one lower or higher |
| GuildSafety.DemotesIff | src/world/Guild.cpp:372-404 | a demotion takes effect exactly if the officer has the right and outranks a member who is not at the lowest rank |
| GuildSafety.PromotesIff | src/world/Guild.cpp:312-317 | whom a promotion by an officer with the right reaches: members more than one rank below the officer and, because the difference wraps, every member above the officer except the master and the first rank |
| GuildSafety.TransferKeepsIff | src/world/Guild.cpp:986-1026 | the master's transfer to a member keeps order exactly when that member is somebody else |
| GuildSafety.TransferExact | src/world/Guild.cpp:986-1026 | only the master's transfer to a member takes effect: that member becomes master with the first rank, and the old master gets the rank below |
| GuildSafety.DisbandClears | src/world/Guild.cpp:958-984 | afterwards nobody points to the guild and everyone else's pointers are as before |
| GuildHall.GuildObject.CreateFromCharter | src/world/Guild.cpp:266-305 | the five ranks, the leader and the signers are added in order |
| GuildHall.GuildObject.CreateGuildRank | src/world/Guild.cpp:218-263 | the first free slot gets a new record, if there is one |
| GuildHall.GuildObject.RemoveGuildRank | src/world/Guild.cpp:928-956 | the search over ranks and members deletes the last rank or nothing |
| GuildHall.GuildObject.AddGuildMember | src/world/Guild.cpp:720-773 | the new member gets the forced, highest or lowest rank as asked |
| GuildHall.GuildObject.RemoveGuildMember | src/world/Guild.cpp:775-846 | the member leaves if the actor may remove them, never the master |
| GuildHall.GuildObject.PromoteGuildMember | src/world/Guild.cpp:307-368 | the checks and the search upward are the modelled promotion |
| GuildHall.GuildObject.DemoteGuildMember | src/world/Guild.cpp:370-425 | the checks and the search downward are the modelled demotion |
| GuildHall.GuildObject.ChangeGuildMaster | src/world/Guild.cpp:986-1032 | both ranks and the leader change as modelled |
| GuildHall.GuildObject.Disband | src/world/Guild.cpp:958-984 | the loop clears the pointers of every member and of nobody else |
| GuildHall.GuildObject.LowestBelow | src/world/Guild.cpp:109-118 | the last occupied slot at or below a number, slot 0 excepted |
| GuildHall.GuildObject.HighestAbove | src/world/Guild.cpp:120-129 | the first occupied slot at or above a number |
| GuildBank.DailyLimit | src/world/Guild.cpp:1353-1494 | over any run with a fixed limit, money taken by withdrawals and repairs is at most the limit in the current day of the ledger and at most twice the limit in any stretch of a day |
| GuildBank.TakesIff | src/world/Guild.cpp:1367-1480 | for every limit, a withdrawal or repair takes its amount from the bank exactly if the bank holds it, the day's allowance covers it, and the cap or the repair right permits it; otherwise ledger, bank and gold are as before |
| GuildBank.NoLimitTakesNothing | src/world/Guild.cpp:1450-1455 | a rank with limit 0 takes nothing over any run |
| GuildBank.TwiceTheLimit | src/world/Guild.cpp:1388-1408 | for every limit there is a run that takes exactly twice the limit within a day |
| GuildBank.AvailableExact | src/world/Guild.cpp:1353-1365 | within the limit the unsigned subtraction never wraps |
| GuildBank.AvailableWithinLimitIff | src/world/Guild.cpp:1361-1364 | inside a day the available amount stays within the limit exactly when no more than the limit was withdrawn before |
| GuildBank.DepositConserves | src/world/Guild.cpp:1410-1433 | deposits keep bank plus gold |
| GuildBank.DepositMoves | src/world/Guild.cpp:1410-1433 | a deposit of gold the player has goes into the bank in full, and any other does nothing |
| GuildBank.WithdrawConservesIff | src/world/Guild.cpp:1434-1480 | a withdrawal keeps bank plus gold exactly when the player's gold stays below 2^31, and never creates money |
| GuildBank.CappedWithdrawConserves | src/world/Guild.cpp:1461-1469 | with a gold cap below 2^31 it always does |
| GuildBank.WithdrawalUsesUp | src/world/Guild.cpp:1388-1408 | recording a withdrawal lowers what is available that day by exactly the amount and keeps the ledger within the limit |
| GuildBank.Guild.DepositMoney | src/world/Guild.cpp:1410-1433 | gold moves into the bank if the player has it |
| GuildBank.Guild.WithdrawMoney | src/world/Guild.cpp:1434-1480 | the checks in order, then ledger, gold and balance change together |
| GuildBank.Guild.RepairItem | src/world/Guild.cpp:1367-1386 | a repair is paid from the bank under the same limit |
| GuildBank.ModGoldExactIff | src/world/Game/Entities/Object.cpp:441-449 | a change of gold is carried out exactly when the result is neither negative nor 2^31 or more |
| LootFill.FillAddsIff | src/world/LootMgr.cpp:354-441 | before trimming an item's total rises by at most the sum of its rolled counts, and by exactly that if and only if no stack it joins overflows 32 bits |
| LootFill.FillAdds | src/world/LootMgr.cpp:354-441 | with counts and limits below 2^31 it rises by exactly the sum |
| LootFill.PlaceAddsIff | src/world/LootMgr.cpp:399-440 | one drop raises its item's total by its count, and no other's, exactly when the stack it joins does not overflow |
| LootFill.PlaceJoinsFirst | src/world/LootMgr.cpp:399-440 | a drop goes onto the first stack of its item that stays below the limits with it, and becomes a stack of its own only if there is none |
| LootFill.FillInOrder | src/world/LootMgr.cpp:354-441 | filling with a table in two parts is filling with one after the other |
| LootFill.MergedStaysBelow | src/world/LootMgr.cpp:399-414 | a stack that takes a drop in stays strictly below MaxCount and, if set, Unique |
| LootFill.FillStaysBelow | src/world/LootMgr.cpp:354-441 | after all drops every stack is one from before, or one drop alone, or strictly below both limits |
| LootFill.RolledBetween | src/world/LootMgr.cpp:394-397 | a rolled count lies between least and greatest |
| LootFill.TrimKeepsBest | src/world/LootMgr.cpp:444-466 | trimming leaves sixteen items in their order; each item that goes is worth no more than any item then left that is not for a quest; a quest item goes only after everything before it has gone |
| LootFill.VictimIsLeast | src/world/LootMgr.cpp:451-463 | the item removed is the first one or the least valuable item that is not for a quest |
| LootFill.Loot.PushLoot | src/world/LootMgr.cpp:354-468 | the loops merge, append and trim as modelled |
| LootFill.Loot.TrimItems | src/world/LootMgr.cpp:444-466 | the nested trim loops end and are the modelled trim |
| Reputation.NoticesMatchRecount | src/world/ReputationHandler.cpp:227-297 | over any run of changes, with any bonus at each, the +1 and -1 notifications add up to the change in the recount of exalted factions, and standings stay within -42000 and 42999 |
| Reputation.StandingMoves | src/world/ReputationHandler.cpp:227-297 | a standing moves by the value and a bonus of the percentage, rounded toward zero, stops at the bounds, and no other standing moves |
| Reputation.FirstStanding | src/world/ReputationHandler.cpp:227-297 | a first standing is the value itself within the bounds, if race and class can have one |
| Reputation.SetNoticeRightIff | src/world/ReputationHandler.cpp:150-203 | setting a known faction's standing notifies rightly exactly when exalted status is lost if and only if the standing falls by at least 42000 |
| Reputation.PlayerReputation.ModifyStanding | src/world/ReputationHandler.cpp:227-297 | the branches with their clamps and notifications are the modelled change |
| Reputation.PlayerReputation.GetExaltedCount | src/world/ReputationHandler.cpp:475-487 | the loop counts exactly the exalted factions |

## Left out

- SQL text, result-set loading, logging, chat and UI messages, and packet layouts other than those of the achievement packets: plumbing that carries no state of its own.
- The timed-event objects, holders and events are records in the maps of one class, not separate Dafny objects, because `delete` has to be observable; addresses are never reused.
- Data races on event fields that are read without the lock, and an update of a holder started by one of its own callbacks, are not modelled; AddEvent's two lock regions form one step; whether the holder's lock could be taken is a free parameter.
- AddEvent finds at least the world holder, as the server asserts. A holder is destroyed between passes and, in a run, only when no object is attached to it; the destructor checks neither.
- EventSystem.EventWorld.DestroyHolder: the holder is not in the middle of a pass.
- TimedEventRate.FiringRate: assumes that nothing touches the event, that it is held once and that it does not delete its object; an event held twice by one holder can fire twice in a pass.
- EventSystem.EventWorld.Update: a pass is given by finite scripts of its callbacks; that callbacks which append for ever keep a pass running for ever is not excluded.
- Player look-ups of the dungeon finder (faction, group, dungeon eligibility, the random dungeon chosen, whether an instance could be created) are parameters; the proposal's state byte, which is only sent to clients, is left out.
- LfgSafety.StepSound: covers the calls described in the three lines below; those left out are shown to break the queues or to be undefined.
- LfgSafety.JoinSound: callers offer a combat role, name no dungeon twice and are in no pending proposal, which LfgRuns.JoinSoundIff shows to be exactly what is needed.
- LfgSafety.LeaveSound: the last player of a forced proposal must not leave it, since the server then reads the first of no players (LfgSafety.RefusalDefinedIff).
- LfgSafety.AnswerSound: nor decline it.
- LfgManager.Manager.Update: the order in which expired proposals are found in the hash map is arbitrary.
- Teleports, the forming of the group object and the table from groups to instances, one side of which is left behind on removal.
- Achievement criteria other than links to achievements are a threshold and a gate; the per-type updates, realm-first queries and the choice of rewards are long tables. Completion times are left out of the cascade.
- AchievementPackets.AllArrives: no record is numbered 0xffffffff, the separator. The reader is written from the layout; the repository's own unpackGUID is not used, because its shift of a promoted byte by 32 and more is undefined. Which records a reader may see is a parameter of each entry.
- Battleground groups, and subgroup numbers of eight or more, for which the server reads past its array.
- Leader, looter and assistants of a group, group updates, ready checks and the database copy of a group, whose save and load disagree by a column.
- GroupSafety.StepKeeps: a player is moved only by the own group.
- GroupTable.Table.RemovePlayer: a player whom no subgroup holds must not carry the number of one of the group's subgroups, since the server then erases the end of the role table.
- Guild bank tabs and items, notes, logs, rank names and rights editing; the pointer to the member record, which comes and goes with membership; overflow of the 64-bit balance.
- GuildSafety.GuildAlwaysOrderly: forced ranks name one of the ten slots and the guild is transferred to another member; disbanding ends the guild and is no step of its run (GuildSafety.DisbandClears).
- GuildBank.DailyLimit: the limit is fixed and time does not run backwards.
- Drop chances are floating point; an entry says whether it dropped. Random properties of items and the rolls between players are left out.
- Reputation gains are assumed not to overflow 32 bits; at-war flags and the sets of hostile creatures in range are left out.
- Identifiers handed out by counters are unbounded.
