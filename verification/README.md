# A model of the game server

The server runs sessions of a game in which dogs run along roads, pick up lost things and bring them to offices. This
project models the part of it that decides what happens, and proves what it keeps and what it gives back.

- `Roads`, `Loader`: the cell-to-roads index that the map loader builds, and the maps it loads.
- `Movement`, `Displacement`, `Strips`: the four clamping loops that move a dog, where a tick takes it in coordinates, and when it
  keeps within the nominal width of the roads.
- `Geometry`, `Collision`, `Providers`: which gatherers pass close enough to which items, and the event list.
- `LootGenerator`, `Tokens`: how much loot appears, and the authorization tokens.
- `World`: the whole game as a state machine on values, with joins, actions and ticks as its events.
- `Activity`, `Appearing`, `Prices`, `Steering`, `Vicinity`: single steps in plain numbers, without the helper functions of
  `World`: clocks, new dogs and loot, what a bag is worth, how an action turns a dog, and how near is near enough.
- `Invariants`, `Greedy`, `Timing`, `Preservation`, `Runs`, `Travel`, `Idle`, `Ledger`, `Offices`, `CrossMap`: what holds in every
  reachable state, and over whole runs.
- `Witnesses`, `Failures`: runs from the start of the game that show what the code does not keep.
- `Objects`, `Games`, `PlayerLists`, `Applications`, `Serving`: the server's classes, updated in place. Every method is
  proved to change the values of its objects exactly as `World` says, so what is proved of runs holds of the objects.
  A loot object is shared between the game and one session; bags hold copies; a player holds a copy of its session.
- `Snapshot`, `RoundTrip`, `Restoring`: saving the game and restoring it, on values and into the objects of a fresh server.
- `Restarts`: what survives any alternation of runs and restarts.
- `ConnectionPool`: the blocking pool, as interleaved steps of threads with the condition-variable semantics of
  ISO C++20 [thread.condition.condvar], and the two critical sections on the slots.

Numbers: coordinates and times are `real`, epsilon is the constant 2^-52, `std::round` is half away from zero
(section 7.12.9.6 of C11), conversions to `int` truncate, and unsigned comparisons and differences are written out.
Random draws, UUIDs, iteration orders of unordered containers and the order of road pointers are parameters or unknown;
nothing that is proved depends on a choice of them.

Where the code and its own descriptions differ, the model follows the code: the index has one cell past the end of a
road given in increasing order, and dogs do leave the nominal width of the roads (`Strips`); the session told of a
retirement is a local copy, so live sessions never hear of it; the office loop serves one event per tick and matches
sessions by number of dogs; a gatherer may take loot of another map (`CrossMap`); restoring makes every session read
the first saved entry, recomputes speed from the direction, truncates the timer and places session loot anew.
`UpdateGameState` of the request handler, whose caller generates the loot first, does what `Application::Tick` does
after generating loot, and one model stands for both. A reference that the office provider binds to a by-value
parameter is modelled as the live game.

## Model

| member | source | states |
|---|---|---|
| `Roads.RoadMap.LoadRoad` | src/json_loader.cpp:21-57 | both loop pairs end; an entry with only x1 adds exactly the horizontal road from its start to x1, one with only y1 exactly the vertical one, and the index again holds, at every cell, exactly the counted pointers of all loaded roads |
| `Roads.RoadMap.LoadHorizontal` | src/json_loader.cpp:22-38 | the same for one horizontal road, whichever end comes first |
| `Roads.RoadMap.LoadVertical` | src/json_loader.cpp:39-56 | the same for one vertical road |
| `Roads.RoadMap.AddRoadMap` | src/model.h:193-195 | one more pointer at one cell and nothing else |
| `Loader.LoadMap` | src/json_loader.cpp:80-108 | the map has the roads of all entries and exactly their index, its offices and loot values, and the defaults for speed and bag capacity |
| `Loader.LoadMaps` | src/model.cpp:23-35 | loading fails if and only if two maps have the same id; otherwise every entry has its map, with the roads, offices, loot values and defaults of the entry and exactly the index of its roads |
| `Roads.IndexExact` | src/json_loader.cpp:21-57 | a road is indexed at a cell if and only if the cell is an integer point of the road, or the one cell past its end when start <= end |
| `Roads.GetRoadMapExact` | src/model.h:197-199 | what a lookup returns for a cell is exactly the loaded roads indexed there |
| `Movement.VisitAllClosedForm` | src/application.h:67-118 | a clamping loop, in any order, yields the closed form: no move within epsilon, the whole displacement if some road allows it, else the farthest edge and a stop, never backwards |
| `Movement.OrderIsIrrelevant` | src/application.h:67-118 | two visiting orders of the same set of road pointers give the same coordinate and the same stop flag |
| `Movement.ClosedFormIsUnique` | src/application.h:67-118 | the closed form determines the outcome of a loop |
| `Movement.Clamp` | src/application.h:67-118 | each of the four loops, over a set of pointers in unknown order, reaches the closed form |
| `Movement.ReachStaysIndexed` | src/application.h:61-118 | going along an indexed road no further than it allows ends in a cell of that road or in the cell left, and that road is still indexed there |
| `Movement.MoveStaysOnRoads` | src/application.h:52-118 | one move takes a dog whose rounded cell is a point of a road to such a cell, the overshoot cells notwithstanding |
| `Strips.OnRoadIsInStrip` | src/application.h:52-58 | a dog whose rounded cell is on a road is within half a cell of that road in both coordinates |
| `Strips.MoveLands` | src/application.h:61-118 | where a move ends, from the roads of the cell and the free displacement alone: no move within epsilon, the whole displacement up to the furthest edge, else that edge |
| `Strips.StripsAreKeptIff` | src/application.h:61-118 | for every move of a dog in some strip of the nominal half width: it ends in a strip if and only if, on the grid line, it does not land in the gap before the next cell that only an overshooting road leads into, and, off the grid line, it lands on a road across the heading |
| `Strips.TickKeepsToStripsIff` | src/application.h:66-118 | the same for the move of a tick with any velocity |
| `Strips.GridLineWithoutOvershootIsSafe` | src/application.h:61-118 | on the grid line, with no road indexed at the cell by its overshoot only, every move ends in a strip |
| `Strips.OffLineSafeAtOwnCrossing` | src/application.h:61-118 | off the grid line the dog is on a crossing road, and every move that lands no further than that road ends in a strip |
| `Witnesses.OvershootLeavesNominalWidth` | src/json_loader.cpp:22-38 | a run from the start, of one join, one turn and one tick, after which a dog is in no strip because of the overshoot cell |
| `Witnesses.TurnLeavesNominalWidth` | src/application.h:66-118 | a run from the start after which a dog is in no strip because it turned off beside the axis of a road |
| `Movement.MoveIsBounded` | src/application.h:61-118 | a move never goes backwards and never beyond the free displacement |
| `Movement.SplitMoveGoesAsFar` | src/application.h:61-118 | doing part of a displacement first stops where the whole one stops, or ends up at least as far |
| `Movement.ClampedIsMove` | src/application.h:67-118 | the outcome of a loop over the pointers of the dog's cell is the move of the state machine |
| `Displacement.FoundIsIndexed` | src/json_loader.cpp:21-57 | in coordinates: a road is indexed at its integer points and, if given in increasing order, at the one cell past its end |
| `Displacement.MoveDisplaces` | src/application.h:52-118 | in coordinates, for each of the four directions: the way is speed times milliseconds by 1000; it is covered in full if some road found at the rounded position reaches that far, counting 0.4 beyond its last cell, and otherwise the dog ends at the furthest such limit, or stays where it is beyond it |
| `Displacement.TickRuns` | src/application.h:43-136 | a tick does exactly that to the dog of every online player, which starts from where it was and stops where its way ends; the dog of a retired player stays |
| `Basics.RoundIsNearest` | src/application.h:52-54 | a coordinate is rounded to the nearest integer, halves away from zero |
| `Basics.TruncTowardsZero` | src/model.cpp:95 | a conversion to int drops the fraction, on either side of zero |
| `Geometry.DistanceIsMinimal` | src/collision_detector.cpp:6-19 | for a != b the returned squared distance is non-negative, is attained at the returned ratio, and is the minimum over the whole line |
| `Geometry.DistanceOnLine` | src/collision_detector.cpp:6-19 | the squared distance to any point of the line exceeds the returned one by the squared length times the squared difference of the ratios |
| `Geometry.CollectedIff` | src/collision_detector.h:12-19 | for a != b a point is collected with a radius if and only if some point of the segment from a to b is abreast of it, the difference being perpendicular to the segment, and no further than the radius |
| `Geometry.FirstPart` | src/collision_detector.cpp:6-19 | the part of a segment up to an interior point sees the same distance, at a stretched ratio |
| `Geometry.SecondPart` | src/collision_detector.cpp:6-19 | the part of a segment from an interior point on sees the same distance, at a shifted and stretched ratio |
| `Geometry.SplitSegmentLeavesNoGap` | src/collision_detector.h:12-19 | a segment collects an item if and only if one of its two parts does, so consecutive ticks leave no gap |
| `Collision.FindGatherEvents` | src/collision_detector.cpp:21-45 | an (item, gatherer) pair is in the list if and only if the gatherer moves and its way passes the item within the sum of both widths; each pair appears once, with the time and the squared distance of the moment of passing; the list is ordered for the comparator where that is a strict weak order, and by time when distinct times are more than 1e-5 apart |
| `Collision.SortByTime` | src/collision_detector.cpp:39-42 | a permutation, ordered for the comparator whenever the comparator is a strict weak order on the list |
| `Collision.StrictWeakOrderIff` | src/collision_detector.cpp:40-42 | the comparator is a strict weak order on a list if and only if nearness of times is transitive on it; separated times are enough |
| `Collision.ComparatorIsNoOrderInGeneral` | src/collision_detector.cpp:39-42 | three concrete times on which the comparator is no strict weak order |
| `Providers.GetItem` | src/collision_detector.h:112-122 | the index is counted down to the office of that number in the list of all offices, or to the default item past the end |
| `Providers.ItemsCount` | src/collision_detector.h:105-111 | the number of offices of all maps |
| `Providers.AllOffices` | src/collision_detector.h:105-122 | asking for every index up to the count lists all offices in map order |
| `LootGenerator.Generated` | src/loot_generator.cpp:16-28 | for a weight from 0 to 1, the integer nearest to the weighted shortage, halves counting up; never more than the shortage, nothing for weight 0 or less or without a shortage, the whole shortage for weight 1 or more |
| `LootGenerator.LootGenerator.Generate` | src/loot_generator.cpp:16-28 | that nearest integer, and the time without loot accumulated, or reset if anything is generated |
| `LootGenerator.MoreWeightMoreLoot` | src/loot_generator.cpp:19-27 | a greater weight never gives less loot |
| `Appearing.SessionGetsShare` | src/model.cpp:134-148 | in a session with dogs and loot lying about, the number of new objects is the integer nearest to the weighted difference; each object has the next id, the drawn type, the drawn place, and is visible and held by the session; the clock of the generator starts again exactly if something appears |
| `Appearing.TickSharesOut` | src/model.cpp:134-148 | in a tick every session, wherever it comes in the iteration order, gains the integer nearest to its weighted difference of dogs and loot, and keeps the loot it had |
| `Appearing.LootKindIs` | src/model.cpp:141-142 | with a value table, types are in range of it and every draw in range is the type that results |
| `Appearing.LocationIsPlaced` | src/model.cpp:82-91 | without random placement the start of the first road, with it the drawn point of the drawn road, counted from its smaller end |
| `Tokens.HexOfWord` | src/player.cpp:46-52 | a 64-bit number has at most 16 hexadecimal digits |
| `Tokens.TokenIsValid` | src/player.cpp:46-52 | two 64-bit draws give 32 hexadecimal digits, and "Bearer " followed by them passes the header check (section 2.1 of RFC 6750) |
| `Tokens.TokenSpellsDraws` | src/player.cpp:46-52 | read back as hexadecimal, a token is the first draw, then the second, without leading zeros, then zeros up to 32 digits |
| `Tokens.FirstFreeIsIssued` | src/player.cpp:37-44 | the token issued is that of the first draw whose token is not taken |
| `Tokens.CheckToken` | src/request_handler.cpp:530-538 | the answer is true exactly for "Bearer " followed by 32 hexadecimal digits |
| `Tokens.GenerateToken` | src/player.cpp:46-52 | the padding loop produces the two numbers followed by the missing zeros |
| `Tokens.PlayerTokens.AddPlayer` | src/player.cpp:37-44 | the token issued is the first of the stream not yet taken, and list and table both gain it |
| `Tokens.IssueKeepsSound` | src/player.h:60-71 | issuing a new token keeps: no token twice, the list is the key set, and the k-th token belongs to player k |
| `Tokens.AuthenticatesKthPlayer` | src/request_handler.cpp:318-334 | the k-th token, presented in a header, is extracted again and finds the k-th player |
| `Steering.TokenOfIff` | src/request_handler.cpp:530-538 | a header yields a token if and only if it is "Bearer " followed by that token, and the token is 32 hexadecimal digits |
| `Steering.ActTurns` | src/request_handler.cpp:328-341 | the player whose token the header presents, if online, gets the direction given and the velocity (-n, 0), (n, 0), (0, -n), (0, n) or (0, 0) of it, n being the nominal speed, and nothing else changes; without such a player nothing changes |
| `Steering.KthTokenSteers` | src/request_handler.cpp:318-344 | in every state with the invariant the k-th token turns the k-th player and nobody else |
| `Greedy.SearchIsGreedy` | src/application.h:140-153 | one event takes its object if and only if the object is visible and the bag has room, whatever the iteration order of the sessions |
| `Greedy.FirstWithRoomTakes` | src/application.h:138-154 | an object is still visible after k events if and only if none of them was for it by a gatherer with room: the first such event takes it |
| `Greedy.WinnerHasIt` | src/application.h:138-154 | the gatherer of the first event with room has the object when the loop is over, and nobody else has |
| `Timing.EarliestTakes` | src/collision_detector.cpp:39-44 | with separated times, that gatherer is one of least time among those for whom the object came with room in the bag |
| `Timing.EarliestVisitorIsServed` | src/application.h:156-173 | with separated times, the player the office loop serves passed an office no later than any other, and all others keep bag and score |
| `Vicinity.LootEventIff` | src/application.h:138-139 | a tick has an event for a player and an object if and only if the dog moved and its way passed the object within 0.6 |
| `Vicinity.OfficeEventIff` | src/application.h:156-157 | a tick has an office event for a player if and only if the dog moved and its way passed an office of some map within 1.1 |
| `Vicinity.TakenInPassing` | src/application.h:138-154 | an object gets into a bag only if the dog passed it within 0.6 in that tick |
| `Vicinity.PassedOnlyWithFullBag` | src/application.h:138-154 | whoever passed within 0.6 an object that still lies about after the tick has a bag filled exactly to its capacity |
| `CrossMap.TakesFromElsewhereIff` | src/application.h:140-153 | the object is taken from a session of another map if and only if the gatherer's own session does not hold it |
| `CrossMap.OneSessionTakesItsOwn` | src/application.h:140-153 | with one active session every gatherer takes loot of its own map only |
| `Failures.DogTakesLootOfAnotherMap` | src/application.h:140-153 | a reachable tick in which a dog on one map takes what lies on another |
| `Greedy.GatheringIsMaximal` | src/application.h:138-154 | afterwards every event has its object collected or its gatherer's bag full |
| `Greedy.GatherKeeps` | src/application.h:138-154 | the loop keeps the loot partition, and only bags grow |
| `Preservation.JoinKeeps` | src/request_handler.cpp:144-163 | a join keeps the whole invariant |
| `Appearing.JoinAdmitsIff` | src/request_handler.cpp:144-163 | somebody joins if and only if the name is not empty and some loaded map has the id asked for; otherwise nothing changes |
| `Appearing.JoinerIs` | src/model.cpp:93-99 | the joiner's dog field by field: numbered among those of the map, the map's speed without its fraction, facing up, at rest, an empty bag of the map's capacity or else the game's, clocks at zero, at the start of the first road or the drawn point |
| `Preservation.ActKeeps` | src/request_handler.cpp:318-344 | an action keeps the whole invariant |
| `Preservation.GenerateLootKeeps` | src/model.cpp:134-148 | loot generation keeps the partition and never lets a session hold more loot than dogs |
| `Preservation.LocationIsOnRoad` | src/model.cpp:82-99 | dogs and loot are placed on integer points of roads |
| `Preservation.RunningDogRetiresIff` | src/model.h:325-331 | a running dog retires if and only if the retirement time is below epsilon |
| `Activity.StandingStep` | src/model.h:325-331 | a standing dog is online after a step if and only if clock plus step minus last activity is at most the retirement time minus epsilon, and the step leaves the last activity alone |
| `Activity.RunningStep` | src/model.h:325-331 | a running dog has the new clock as its last activity, and is online after the step if and only if the retirement time is at least epsilon |
| `Activity.RetiredStep` | src/application.h:43-50 | for a retired player only the clock goes on |
| `Idle.IdleRun` | src/application.h:120-135 | over any run in which a standing player is never steered: online at the end if and only if no tick ended with an idle time within epsilon of the retirement time or beyond |
| `Idle.IdleJoinerRetiresInTime` | src/application.h:120-135 | a player who joins and is never steered is online if and only if at no tick since has the time since the join come within epsilon of the retirement time, and has one record if and only if not |
| `Idle.TickAddsToTimer` | src/application.h:32-35 | a tick adds its milliseconds by 1000 to the timer of the game, and changes neither configuration nor tokens |
| `Preservation.RetiringDogStands` | src/application.h:120-135 | a dog that retires, with a retirement time of at least epsilon or standing, does not move in that tick, and its start and end positions coincide |
| `Preservation.StandingDog` | src/model.h:325-328 | a dog whose velocity does not count as activity takes none of the four branches |
| `Preservation.NewRecordsExact` | src/application.h:120-131 | a tick inserts exactly one row for each player who retires in it and none for the others |
| `Runs.StepKeeps` | src/application.h:30-175 | every join, action and tick keeps the whole invariant |
| `Runs.RunKeeps` | src/application.h:30-175 | every run, of any events in any order, keeps the whole invariant |
| `Runs.DogsStayOnRoads` | src/application.h:52-118 | in every reachable state the rounded cell of every dog is an integer point of a road, so the next tick consults at least one road |
| `Runs.LootIsPartitioned` | src/application.h:138-154 | in every reachable state ids are indices, an object is visible if and only if exactly one session holds it, an invisible one is in at most one bag at most once, bags respect their capacity, and sessions hold no more loot than dogs |
| `Runs.KthTokenIsKthPlayer` | src/player.cpp:37-58 | in every reachable state there are as many tokens as players and the k-th token authenticates the k-th player |
| `Runs.RetirementIsFinal` | src/application.h:49-50 | once a player is offline, with a retirement time of at least epsilon or a dog at rest, position, start position, bag and score never change again over any run |
| `Runs.RetiringTickFreezes` | src/application.h:120-135 | the retiring tick itself, with a retirement time of at least epsilon or a standing dog, leaves position, bag and score as they were |
| `Runs.RetirementIsRecordedOnce` | src/application.h:120-131 | in every reachable state a retired player has exactly one record and an online one none |
| `Runs.RecordShowsPlayTime` | src/application.h:124-129 | the play time recorded is the sum of all tick lengths since the join |
| `Runs.RestingPlayerIsLeftAlone` | src/collision_detector.cpp:26-27 | a player at rest after the movement half of a tick comes out of the two event loops unchanged |
| `Runs.TickMovesLikeStep` | src/application.h:43-136 | as far as motion goes, a tick of the whole game is a step of each player alone |
| `Travel.FinerTicksGoAsFar` | src/application.h:61-118 | splitting a tick into any number of significant parts moves a dog at least as far, and never beyond position plus speed times total time |
| `Travel.FinerRunsGoAsFar` | src/application.h:30-175 | the same between a run of several ticks of the whole game, in which others may join and turn, and one tick of the same total length |
| `Ledger.PointsAreBankedLoot` | src/application.h:156-173 | with one value table, on every run the total score is the sum, over all loot neither visible nor in a bag, of the table entry at its type, and every type is in range of the table |
| `Ledger.CashInConserves` | src/application.h:160-170 | cashing in turns the value of the bag into points once, however many sessions match |
| `Offices.FirstMatchPays` | src/application.h:160-170 | whatever the value tables are, the bag is paid for once, by the table of the first session that matches |
| `Offices.FirstMatchPaysPrice` | src/application.h:160-170 | the player whose dog count the n-th session in order is the first to match gets, for each object of the bag, the entry of that session's value table at its type, and the bag is empty |
| `Vicinity.OnlyVisitorIsPaid` | src/application.h:156-173 | the only player to pass an office within 1.1 gets the sum of the table entries of the bag, and the bag is empty |
| `Vicinity.NoVisitNoPay` | src/application.h:156-173 | a player who passed no office within 1.1 keeps score and bag |
| `Failures.OfficeDoesNotPay` | src/application.h:156-173 | a reachable tick in which a player with a full bag has the only office event and is not paid |
| `Offices.OfficeEmptiesBagIff` | src/application.h:159-173 | a tick empties a non-empty bag at an office if and only if the first office event is that player's and some session has the number of dogs of the player's own copy |
| `Offices.CashInEmptiesIff` | src/application.h:160-170 | the session loop empties the bag if and only if some session matches by number of dogs |
| `RoundTrip.PlayersSurvive` | src/serialization.cpp:53-93 | for any number of sessions, players, scores, online flags, dogs, bags in order, clocks, the token table and the records come back; speed is the one set by direction and nominal speed |
| `RoundTrip.DogRestored` | src/serialization.cpp:13-27 | one dog restored from its snapshot: everything but the velocity, and the bag holds the same ids and types in the same order |
| `RoundTrip.AllTokensRestored` | src/serialization.cpp:64-69 | the restored token table is the saved one |
| `RoundTrip.GameRestored` | src/serialization.cpp:75-93 | what becomes of the game for any number of sessions: only visible loot may lie elsewhere, and every session holds what the first one held |
| `RoundTrip.LootSurvives` | src/serialization.cpp:30-47 | with at most one session and no random placement the whole game comes back, but for the fraction of a second on the timer and the generator clock |
| `RoundTrip.RestoreKeepsInvariantIff` | src/serialization.cpp:81-86 | a restored server satisfies the invariant if and only if at most one session was active or no loot was lying about |
| `Failures.RestartBreaksPartition` | src/serialization.cpp:81-86 | a reachable state, with two sessions and one object lying about, that no restart leads back to the invariant |
| `Restarts.RestartKeeps` | src/serialization.cpp:75-93 | in any state, loot included, a restart keeps place, score and online flag of every player, all tokens and records, and the invariant but for loot |
| `Restarts.LifeKeepsCore` | src/application.h:30-175 | every alternation of events and restarts keeps the invariant but for loot |
| `Restarts.EveryLifeKeepsPlayers` | src/application.h:52-118 | after any alternation of events and restarts dogs are on roads, the k-th token belongs to the k-th player, and the records are those of the retired players |
| `Restarts.RetirementIsForLife` | src/application.h:49-50 | over any alternation of events and restarts a retired player's place and score never change |
| `RoundTrip.RestoreKeepsTimer` | src/model.h:652-654 | the restored timer is the saved one truncated to whole seconds |
| `ConnectionPool.PoolLosesNoWakeup` | src/db_connection.h:72-89 | in every interleaving, with barging and spurious wakeups, while a thread sleeps there are no more free connections than pending notifies and woken waiters |
| `ConnectionPool.SleepersAreServed` | src/db_connection.h:72-89 | while a thread sleeps next to a free connection, a thread on its way or the owner of the mutex can take a step |
| `ConnectionPool.ConnectionIsHandedOut` | src/db_connection.h:72-89 | while a thread sleeps next to a free connection, at most four steps of threads under way hand a connection out |
| `ConnectionPool.PoolConservesConnections` | src/db_connection.h:72-94 | in every interleaving slots below the used count are empty and the others full, pool and holders have exactly the original connections once each, and the assertion on returning never fails |
| `ConnectionPool.MoveAssignConservesIff` | src/db_connection.h:29-30 | move assignment of wrappers conserves connections if and only if the target is the source or holds none |
| `ConnectionPool.Slots.TryGet` | src/db_connection.h:73-78 | the critical section of an acquire: a connection leaves the slots exactly if one is free, and the slots keep their order |
| `ConnectionPool.Slots.Put` | src/db_connection.h:83-87 | the critical section of a return: the connection is in the slots again, in the one last emptied |
| `Objects.Dog.SetDirection` | src/model.cpp:52-74 | the dog's fields become those of the state machine for any direction string |
| `Objects.Dog.TakeLoot` | src/model.cpp:44-50 | a copy of the object enters the bag exactly if there is room, the comparison being unsigned |
| `Objects.Dog.ReturnLoot` | src/model.cpp:76-80 | the bag is handed over and emptied |
| `Objects.Dog.GetRetirementTime` | src/model.h:325-331 | the idle time, after a running dog, and no dog with equal speed components, has got the clock as its last activity |
| `Objects.GameSession.AddDog` | src/model.cpp:93-99 | a new dog, numbered per session, at the location drawn, with truncated speed and the capacity of the session |
| `Objects.GameSession.AddNewLoot` | src/model.cpp:101-104 | the object is placed and shared with the session under its id |
| `Objects.GameSession.DeleteLootObject` | src/model.cpp:106-109 | the id leaves the session and nothing else changes |
| `Objects.Player.Travel` | src/application.h:52-118 | the four branches compute the move of the state machine |
| `Objects.Player.Retire` | src/application.h:120-131 | the player goes offline exactly if idle too long, and exactly then there is a row with identity, score and clock less start |
| `Objects.Player.Step` | src/application.h:43-136 | one iteration of the player loop changes player and dog as the state machine says; a standing dog is online afterwards if and only if its idle time is at most the retirement time minus epsilon; a row is inserted exactly on retirement |
| `Objects.Player.CashIn` | src/application.h:164-169 | the bag is emptied, and the score grows by the sum of the table entries at the types of its objects |
| `Games.Game.StartGameSession` | src/model.cpp:127-132 | a new session filed under its map, in place of any other, with the map's bag capacity or else the game's |
| `Games.Game.GetGameSession` | src/model.h:582-584 | the session of a map, started if there is none |
| `Games.Game.AddLoot` | src/model.cpp:139-145 | a new object listed by the game and shared with the session, under the next id |
| `Games.Game.GenerateLoot` | src/model.cpp:134-148 | all sessions, in iteration order, get their loot as the state machine says |
| `Games.Game.Withdraw` | src/application.h:148-149 | the object becomes invisible and leaves the session |
| `PlayerLists.Players.Add` | src/player.cpp:54-58 | a new player at the end of the list, with a copy of the session and the next id |
| `Applications.Application.Join` | src/request_handler.cpp:144-163 | the objects change as the state machine says; a token is given if and only if the name is not empty and some map has the id, and otherwise nothing changes |
| `Applications.Application.Act` | src/request_handler.cpp:318-344 | carried out if and only if the header presents a known token of an online player, whose dog then gets direction and velocity, whichever player it is; otherwise nothing changes |
| `Applications.Application.Tick` | src/application.h:30-175 | generation, movement, retirement, loot and office loops on the objects amount to the tick of the state machine, with event lists that are exact and ordered as the collision detector promises |
| `Applications.Application.GatherOne` | src/application.h:140-153 | the search of one event through the sessions, ending at the first holder |
| `Applications.Application.CashOffices` | src/application.h:156-173 | the office loop, which leaves after its first event |
| `Applications.GatheringMovesNobody` | src/application.h:138-157 | both runs of the collision detector in a tick see the same gatherers |
| `Serving.Handle` | src/application.h:30-175 | every request, on the objects, is an event of the state machine and keeps the whole invariant |
| `Restoring.RestoreDog` | src/serialization.cpp:13-27 | a dog object restored from its snapshot equals the restored value |
| `Restoring.RestoreSessions` | src/serialization.cpp:81-86 | the loop over the maps on the objects, each session reading the first entry |
| `Restoring.RestorePlayer` | src/serialization.cpp:53-62 | a saved player joins anew, with score and online flag |
| `Restoring.RestoreTokens` | src/serialization.cpp:64-69 | the saved tokens are issued again to the players of the saved numbers |
| `Restoring.SavedIsReadable` | src/serialization.h:206-252 | every archive saved in a state that satisfies the invariant has ids that are indices and references in range |
| `Restoring.Restore` | src/serialization.cpp:75-93 | restoring into the objects of a fresh server gives the restored value, and session loot is again shared with the game |

## Left out

- HTTP, sessions of the network library, tickers, logging, static files, command-line parsing: input and output.
- JSON parsing and building: roads, offices and value tables are plain inputs; a value lookup is a sequence index, and where
  the original's lookup is out of range (undefined there) the model reads 0. `PointsAreBankedLoot` shows when that never happens.
- `FindMap` failing for a saved player, and saved indices out of range: undefined in the original, skipped by the value model
  and excluded by `Readable` for the objects.
- A map without roads: the original takes the first road unchecked, and the model's maps have at least one. Applications start
  from loaded maps, as `LoadMaps` returns them.
- PostgreSQL: the table of retired players is a sequence that only grows; transactions and failures are not modelled.
- Boost archives and UUID text: the snapshot datatypes are the archive, UUIDs are opaque numbers, and each join is assumed to
  get one not in use.
- Floating-point rounding and `int` overflow: reals and unbounded integers, with the epsilon tests kept.
- `pow` and the generators: the weight of a generation is an arbitrary real, clamped to [0, 1] as in the code; the stream of
  token draws is assumed to contain a fresh token.
- The periodic save inside a tick, the query of the records table, buildings, duplicate offices at load time.
- A session's own timer: it is only passed to the constructor of a dog, which ignores it.
- `std::sort` is modelled by an insertion sort with the same comparator; for lists on which the comparator is no strict weak
  order, the original is undefined and the model promises a permutation only.
- Move assignment over a wrapper that holds a connection is not a step of the pool's runs; `MoveAssignConservesIff` says what
  it loses.
- Travel.FinerTicksGoAsFar: each part must displace the dog by more than epsilon, because the loops ignore shorter ones, and the
  retirement time must be at least epsilon, because below it running dogs retire (`RunningDogRetiresIff`) and stop moving.
- RoundTrip.LootSurvives: at most one session and no random placement, because otherwise the code itself moves or mixes up loot.
- Ledger.PointsAreBankedLoot: one value table for all maps, because a matching session of another map pays by its own table.
- Restoring.Restore: the archive is one whose ids are indices and whose references are in range;
  `SavedIsReadable` shows that every saved one is.
