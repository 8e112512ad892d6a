# Flappy-race, modelled and proved

This project models `images/flappy-race`, a multiplayer race in which one server simulates every
bird and clients rebuild the world from lossy snapshots, and proves what each layer promises.

| layer | modules |
|---|---|
| random numbers | `Rng` |
| simulation | `Track`, `Flight`, `WorldSpec`, `World`, `Race`, `Lives` |
| ranking and statistics | `Sorting`, `Rank`, `StoreSpec`, `Store` |
| hub | `Names`, `HubSpec`, `HubInvariant`, `HubRuns`, `HubTheorems`, `Careers`, `Appearance`, `Themes`, `Flaps`, `Hub` |
| transport | `Subsequences`, `QueueSpec`, `SendQueue`, `Delivery`, `BroadcastLog`, `Broadcasts`, `Schedule`, `Joins` |
| client | `RingSpec`, `Ring`, `Clock`, `GameSpec`, `GameRuns`, `Game` |
| runs that show the limits | `RepeatedTheme`, `Falling`, `StaleFlap`, `LostWelcome`, `LastTick` |
| vocabulary | `Protocol`, `Options` |

Code that updates objects in place is a class (`RNG`, `World`, `Store`, `Hub`, `ClientConn`, `Net`,
`Ring`, `Clock`, `Game`). Each of its methods is proved equal to a function on values in the module
beside it (`WorldSpec`, `StoreSpec`, `HubSpec`, `QueueSpec`, `RingSpec`, `GameSpec`), and the theorems
are about runs of those functions: every sequence of events, every clock reading, every interleaving.

Reading guide:

- Lengths, velocities and offsets are exact reals with the decimals of `const.go`; 64-bit generator
  words are naturals below 2^64 with the wrap-around written out; ticks and ids are unbounded.
- A hub handler takes its own clock reading and that of the broadcast it may make as parameters, in
  any order and with any values. `cleaned` is the outcome of `ValidateName`.
- Queue operations of the hub are listed in `outbox`, in order; the queues themselves, with their
  concurrent consumers, are `SendQueue`, and `Delivery` puts two of them in series.
- Connections join at most once and leave once (`HubRuns.Allowed`); everything else is arbitrary.
- A goroutine that runs beside the modelled one is a step that may happen at any point
  (`Buffer.Interfere`, `Delivery.Step`, `GameSpec.Event`).

Where the code is weaker than one might expect, the exact condition is proved, and a run or input shows the
weak case. The runs of the hub exist for every configuration that admits their one or two players, start at
any time, and are on an ordinary clock: their readings never decrease (`HubRuns.OnClock`).

- A survivor at the tick cap does not always beat the dead: it loses exactly to a bird that died on the
  last tick and has a lower id, because nobody scores on that tick and both have 106 points
  (`Rank.SurvivorAtCap`, `Race.NoPointOnCapTick`). `LastTick.SurvivorCanLose` is such a race, of ticks only,
  over every track whose gaps are all drawn between 525 and 552. The generator's range allows such tracks;
  no seed that yields one is shown.
- The code's comments promise a theme "never the same twice in a row". Two countdowns in a row can share
  one: after a coming or flying race the next theme can be the same exactly if that race was not finished
  (`Themes.ThemeMayRepeatIff`); with a concrete seed below 2^63, join, leave and join do it
  (`RepeatedTheme.ThemeRepeats`). The first race never has theme 0, because `lastTheme` starts at zero.
- A flap applied in a race need not have been sent in it: the first tick of a race is free of older flaps
  exactly if a tick ended the race before, or nobody who had a flap pending when a departure ended it is
  still there (`Flaps.RaceStartsCleanIff`). A dead racer flaps, the last flyer leaves, and the next race
  applies it (`StaleFlap.StaleFlapIsApplied`).
- A numbered session name can exceed sixteen characters: it fits exactly when some free candidate does
  (`Names.NameFitsIff`, `Names.LongNameExample`).
- A welcome can be dropped: it is delivered, or still on its way, exactly if the writer takes a frame before
  a put finds the queue full with nothing taken from it (`Delivery.WelcomeSurvivesIff`). A client that joins
  and reads nothing while others come and go loses it (`LostWelcome.WelcomeIsLost`).
- A client that has caught up need not show the last snapshot sent: it does exactly if that is the first of
  the latest time it received, so not if an earlier one has the same millisecond (`Delivery.NewestArrives`).
- The interpolated distance runs backwards exactly when a stored one does (`RingSpec.DistRisesIff`), as it
  does on a ring that spans two races (`StaleFlap.DistanceFallsBack`).
- A player's flaps are limited per second of the clock, to twenty (`Flaps.FlapsAreLimited`); for a
  second that starts anywhere only forty is promised (`Flaps.FlapsInAnySecond`).

## Model

| member | source | states |
|---|---|---|
| Rng.RNG.Next | images/flappy-race/internal/game/rng.go:12-18 | one draw is the next word of the closed-form stream of the seed |
| Rng.RNG.Float | images/flappy-race/internal/game/rng.go:21 | the draw scaled to the unit interval, in [0, 1) |
| Rng.RNG.Range | images/flappy-race/internal/game/rng.go:24 | the draw scaled to [min, max), never reaching max |
| Rng.ShiftIsDivision | images/flappy-race/internal/game/rng.go:15-17 | the bitwise shift of the model is division by a power of two |
| Rng.UnmixUndoesMix | images/flappy-race/internal/game/rng.go:15-17 | the output map has a left inverse: different states give different words |
| Rng.MixUndoesUnmix | images/flappy-race/internal/game/rng.go:15-17 | and a right inverse: every word is the output of some state |
| Rng.StepsReach | images/flappy-race/internal/game/rng.go:13 | the odd increment leads from any state to any other |
| Rng.NoRepeat | images/flappy-race/internal/game/rng.go:12-18 | fewer than 2^64 draws of one generator are pairwise different |
| Rng.EveryWordOnce | images/flappy-race/internal/game/rng.go:12-18 | in a period of 2^64 draws every word occurs exactly once |
| Track.Window | images/flappy-race/internal/game/world.go:158-179 | after every tick the incremental pipe list is exactly the pipes of the infinite row that are in the window, in order, with consecutive ids, their closed-form positions and gap centres, each as wide open as the ramp had it when it came into the window; at most fourteen |
| Track.SpawnTickUnique | images/flappy-race/internal/game/world.go:170-179 | a pipe comes into the window with one tick only, so its gap height is a function of its id |
| Track.GapReached | images/flappy-race/internal/game/world.go:133-136 | the gap of new pipes is a function of the tick count alone |
| Track.DistAtCap | images/flappy-race/internal/game/world.go:133-162 | how far the longest race scrolls |
| Track.Reached | images/flappy-race/internal/game/world.go:129-179 | distance and speed are functions of the tick count alone, and the track is always settled |
| Track.ScrollBounds | images/flappy-race/internal/game/world.go:133-136 | the ramp keeps the speed between the base speed and the cap |
| Track.FillSettles | images/flappy-race/internal/game/world.go:170-179 | the spawn loop ends with the window full and the row intact |
| Track.KeepDropsPrefix | images/flappy-race/internal/game/world.go:163-169 | the in-place filter drops a prefix of the row and nothing else |
| Track.PipesWellFormed | images/flappy-race/internal/game/world.go:196-199 | in every reachable track both rectangles of a pipe are proper and gaps are 144 to 156 high |
| Track.GapCentreBounds | images/flappy-race/internal/game/world.go:269-278 | gap centres stay in the playfield and neighbours differ by at most 240 |
| Track.GapIsNearest | images/flappy-race/internal/game/world.go:269-278 | each gap centre is the allowed value nearest to its draw: the draw itself, if that is allowed |
| Track.GapNarrows | images/flappy-race/internal/game/world.go:133-136 | every fifteen seconds new gaps are two pixels narrower, down to 144 |
| Flight.CircleRectExact | images/flappy-race/internal/game/world.go:282-288 | the collision test is true exactly when some point of the rectangle is nearer than the radius |
| Flight.XWindowIsSafe | images/flappy-race/internal/game/world.go:193-195 | skipping pipes outside the bird's window never changes the outcome |
| Flight.SurvivorInGap | images/flappy-race/internal/game/world.go:187-203 | a bird over a pipe that hits nothing has its whole circle in the gap |
| Flight.PassedCounts | images/flappy-race/internal/game/world.go:207-214 | the closed-form score counts exactly the pipes behind the bird |
| Flight.PassedAtMostOneMore | images/flappy-race/internal/game/world.go:158-162 | one tick's scroll brings at most one more pipe behind the bird |
| Flight.ScoreIsTally | images/flappy-race/internal/game/world.go:207-214 | the scoring loop keeps a living bird's counters equal to the closed form |
| WorldSpec.FlyThenJudge | images/flappy-race/internal/game/world.go:138-215 | moving all birds and judging them afterwards is the same as ticking each bird by itself |
| WorldSpec.SnapshotShowsAllPipes | images/flappy-race/internal/game/world.go:248-267 | a snapshot shows every pipe of a simulated window |
| WorldSpec.ReachedSnapshot | images/flappy-race/internal/game/world.go:248-267 | so in every reachable track nothing simulated is hidden |
| World.World.constructor | images/flappy-race/internal/game/world.go:53-61 | an empty world with the seed's own gap draws |
| World.World.AddBird | images/flappy-race/internal/game/world.go:65-78 | a new bird at spawn height at the end of the order; a known id changes nothing |
| World.World.RemoveBird | images/flappy-race/internal/game/world.go:82-93 | the bird is gone from map and order and the rest keep their order |
| World.World.KillLeft | images/flappy-race/internal/game/world.go:96-104 | a living bird dies on this tick and is marked as left; nobody else changes |
| World.World.Alive | images/flappy-race/internal/game/world.go:107-115 | the number of living birds, in whatever order the map yields them |
| World.World.Step | images/flappy-race/internal/game/world.go:129-216 | one tick: the loops over pipes and birds compute the tick function |
| World.World.ScrollAll | images/flappy-race/internal/game/world.go:159-169 | pipes move by the speed and those that have left are dropped |
| World.World.SpawnAhead | images/flappy-race/internal/game/world.go:170-179 | the spawn loop terminates and fills the window |
| World.World.JudgeOne | images/flappy-race/internal/game/world.go:182-214 | ground, collision and scoring for one bird |
| World.World.BirdSnaps | images/flappy-race/internal/game/world.go:225-243 | every racer in join order with its flap flag |
| World.World.PipeSnaps | images/flappy-race/internal/game/world.go:248-267 | the pipes worth sending |
| World.World.Results | images/flappy-race/internal/game/rank.go:13-49 | fill, sort and number compute the ranking |
| Race.RunReachable | images/flappy-race/internal/game/world.go:95-216 | any ticks, flaps and departures keep the simulation invariant |
| Race.ScoreIsPipesBehind | images/flappy-race/internal/game/world.go:207-214 | in every race a living bird has scored exactly the pipes behind it and waits for the next |
| Race.LivingBirdsTie | images/flappy-race/internal/game/world.go:207-214 | all living birds have the same score and one tick adds at most one point |
| Race.NoPointOnCapTick | images/flappy-race/internal/protocol/const.go:43-50 | on the last two ticks of the longest race 106 pipes are behind the birds |
| Race.AtMostOnePoint | images/flappy-race/internal/game/world.go:207-214 | in any reachable world a tick adds no point or one to any bird |
| Race.SurvivingTickFliesGap | images/flappy-race/internal/game/world.go:187-203 | surviving the tick that brings a pipe under the bird means being inside its gap |
| Race.NearPipesFlown | images/flappy-race/internal/game/world.go:157-215 | a living bird has flown the gap of every pipe whose edge is near enough |
| Race.NoPointWithoutFlight | images/flappy-race/internal/game/world.go:157-215 | for each point of any bird there is an earlier moment at which it lived, over that pipe, inside its gap |
| Race.BirdsDoNotInterfere | images/flappy-race/internal/game/world.go:95-216 | a bird's whole trajectory and the track are those of its solo race with its own events |
| Lives.TickMoves | images/flappy-race/internal/game/world.go:138-156 | a tick moves a living bird by its new speed; only one that would come strictly above the ceiling is held there, at rest |
| Lives.FallsFromCeiling | images/flappy-race/internal/game/world.go:150-155 | a bird that flew against the ceiling falls from rest, whatever speed it came with: n <= 19 ticks later, alive and without a flap, its speed is 0.42 n and it is 0.21 n (n + 1) below |
| Lives.DiesExactlyIf | images/flappy-race/internal/game/world.go:182-203 | in any reachable world a tick kills a living bird exactly if it brings it onto the ground or nearer to a rectangle of a pipe than its radius, and it dies on that tick |
| Lives.DeathScore | images/flappy-race/internal/game/world.go:157-215 | in every race the dead have the points of the ticks before their crash, or up to their departure |
| Lives.DeathTickIs | images/flappy-race/internal/game/world.go:96-104 | in every race a death is dated with the age of the race at the event that brought it |
| Lives.LeftExactlyIf | images/flappy-race/internal/game/world.go:96-104 | in every race a bird is marked as left exactly if its player departed while it lived |
| Lives.FlapShown | images/flappy-race/internal/game/world.go:225-243 | in every race a bird is shown flapping exactly if it flapped, alive, on one of the last twelve ticks |
| Sorting.SortSorts | images/flappy-race/internal/game/rank.go:29-37 | the sort yields a sorted permutation under any strict order on comparable rows |
| Sorting.SortedUnique | images/flappy-race/internal/game/rank.go:29-37 | and there is only one, whatever the algorithm |
| Rank.OutranksIsStrictOrder | images/flappy-race/internal/game/rank.go:29-37 | the three-key comparison is a strict order |
| Rank.PodiumIsComplete | images/flappy-race/internal/game/rank.go:13-49 | the results list every bird once, with its own data, ranked 1, 2, 3 and so on |
| Rank.PodiumIsOrdered | images/flappy-race/internal/game/rank.go:29-37 | whoever is listed earlier stands above under score, later death, lower id |
| Rank.PodiumIsDetermined | images/flappy-race/internal/game/rank.go:9-12 | any sorted arrangement of the same rows gives the same results |
| Rank.LaterDeathScoresNoLess | images/flappy-race/internal/game/rank.go:22-26 | in every reachable world a bird that died on an earlier tick has no higher score |
| Rank.RankingAgreesWithSurvival | images/flappy-race/internal/game/rank.go:13-49 | in every race nobody is ranked above a bird with a strictly later death |
| Lives.PodiumMarksLeavers | images/flappy-race/internal/game/rank.go:13-49 | in every race the podium marks exactly those who departed in flight |
| Rank.SurvivorAtCap | images/flappy-race/internal/game/rank.go:22-26 | a survivor at the cap stands above a dead bird unless that died on the cap tick with a lower id; their scores are equal then |
| LastTick.BandIsSafe | images/flappy-race/internal/game/world.go:187-203 | on a low track a bird between 491 and 586 never crashes |
| LastTick.NoPipeAtTheEnd | images/flappy-race/internal/game/world.go:191-195 | from tick 7185 on no pipe is in the birds' window, on any track |
| LastTick.BothFlyArcs | images/flappy-race/internal/game/world.go:138-156 | birds that flap in arcs of fitting lengths live and are where the lengths say |
| LastTick.SurvivorCanLose | images/flappy-race/internal/game/rank.go:22-37 | from every starting grid on a low track there is a race in which the lower id dies on the cap tick and is ranked above the survivor |
| StoreSpec.RecordIsPerRacer | images/flappy-race/internal/server/store.go:101-115 | each racer is folded in once from the statistics before the race; nobody else changes |
| StoreSpec.RecordNames | images/flappy-race/internal/server/store.go:101-115 | a race adds its racers and forgets nobody |
| StoreSpec.BestIsMonotone | images/flappy-race/internal/server/store.go:109-113 | no best score ever drops and each is at least the new score |
| StoreSpec.RecordAddsWins | images/flappy-race/internal/server/store.go:106-108 | total wins grow by the number of first ranks |
| StoreSpec.OneWinner | images/flappy-race/internal/server/hub.go:396-401 | a non-empty podium has exactly one first rank |
| StoreSpec.RememberKeepsWins | images/flappy-race/internal/server/store.go:84-89 | remembering a bird changes no win |
| StoreSpec.NameOrder | images/flappy-race/internal/server/store.go:140 | the order on names is strict and total |
| StoreSpec.BetterIsStrictOrder | images/flappy-race/internal/server/store.go:136-141 | the leaderboard comparison is a strict order |
| StoreSpec.TopIsDetermined | images/flappy-race/internal/server/store.go:123-146 | two lists that agree with the same statistics are equal, so the map's iteration order is irrelevant |
| StoreSpec.RememberKeepsTop | images/flappy-race/internal/server/store.go:84-89 | a new appearance leaves the leaderboard in agreement |
| Store.Store.LookupBird | images/flappy-race/internal/server/store.go:78-81 | found exactly when the name is known with a valid appearance |
| Store.Store.RememberBird | images/flappy-race/internal/server/store.go:84-89 | the map entry changes and the leaderboard still agrees |
| Store.Store.RecordRace | images/flappy-race/internal/server/store.go:101-119 | the loop folds the race in and the rebuilt leaderboard agrees |
| Store.Store.RebuildTop | images/flappy-race/internal/server/store.go:123-146 | from any state the list becomes the best fifty scorers, none omitted outranking one listed |
| Store.SortedIsTop | images/flappy-race/internal/server/store.go:136-144 | sorting and cutting the collected scorers gives the agreed list |
| Names.CandidatesCount | images/flappy-race/internal/server/hub.go:426-432 | pigeonhole: as many taken candidates as tries means as many names in use |
| Names.FirstFree | images/flappy-race/internal/server/hub.go:426-432 | the search ends within one try per name in use, at a free candidate with all earlier ones taken |
| Names.UniqueName | images/flappy-race/internal/server/hub.go:426-432 | the name given is free, and is the name asked for if that is free |
| Names.FindUniqueName | images/flappy-race/internal/server/hub.go:426-432 | the program's loop terminates with that name |
| Names.NameFitsIff | images/flappy-race/internal/server/hub.go:206-211 | the numbered name stays within sixteen characters exactly when a free candidate does |
| Names.LongNameExample | images/flappy-race/internal/server/hub.go:206-211 | a taken name of sixteen characters becomes one of eighteen |
| HubSpec.RollBirdIsFirstFree | images/flappy-race/internal/protocol/birddef.go:24-39 | the roll is the first one nobody wears, and a worn one only after thirty-two worn ones |
| HubInvariant.LineUpIsGrid | images/flappy-race/internal/server/hub.go:368-372 | the line-up of a countdown is a starting grid of exactly the listed players, in order |
| HubInvariant.PickThemeAvoids | images/flappy-race/internal/server/hub.go:375-381 | the pick is a theme and never the last finished race's |
| HubInvariant.BeginCountdownInv | images/flappy-race/internal/server/hub.go:360-373 | opening a countdown establishes the hub invariant |
| HubInvariant.FinishRaceInv | images/flappy-race/internal/server/hub.go:392-411 | finishing a race re-establishes the hub invariant, with or without an audience |
| HubInvariant.WaitingMeansEmpty | images/flappy-race/internal/server/hub.go:42-48 | waiting, no players and no world are the same thing |
| HubInvariant.RegisterRegistry | images/flappy-race/internal/server/hub.go:211-225 | registering a newcomer keeps order, names and players in agreement, under a new id and a free name |
| HubInvariant.JoinInv | images/flappy-race/internal/server/hub.go:201-241 | a join keeps the hub invariant |
| HubInvariant.FlapInv | images/flappy-race/internal/server/hub.go:245-261 | a flap keeps the hub invariant |
| HubInvariant.LeaveInv | images/flappy-race/internal/server/hub.go:268-318 | a departure in any phase keeps the hub invariant |
| HubInvariant.TickInv | images/flappy-race/internal/server/hub.go:321-355 | a tick in any phase keeps the hub invariant |
| HubRuns.ToAllOnce | images/flappy-race/internal/server/hub.go:489-494 | a broadcast queues one copy for each listed player's connection and nothing for any other |
| HubRuns.LeaveEffect | images/flappy-race/internal/server/hub.go:276-317 | the leaver is unregistered before any broadcast its departure causes and closed after it |
| HubRuns.RunInv | images/flappy-race/internal/server/client.go:89-120 | every run keeps the invariant, sessions matched with open connections, and each connection's frames in shape |
| HubRuns.NoFrameAfterClose | images/flappy-race/internal/server/hub.go:263-318 | in any run nothing is queued on a closed queue |
| HubRuns.WelcomeComesFirst | images/flappy-race/internal/server/hub.go:236-240 | a connection is queued nothing, one error, or a welcome followed by snapshots only |
| HubTheorems.PhasesAgree | images/flappy-race/internal/server/hub.go:42-48 | in every run the phase, the players, the world and the living birds fit together |
| HubTheorems.RegistryAgrees | images/flappy-race/internal/server/hub.go:206-225 | in every run order, names and players agree, and the race info is that of the birds |
| HubTheorems.Transitions | images/flappy-race/internal/server/hub.go:197-355 | only documented transitions occur, and only the last player's departure leads to waiting |
| HubTheorems.FinishAddsOneWin | images/flappy-race/internal/server/hub.go:392-401 | a finished race adds exactly one win |
| HubTheorems.FinishCountsRacers | images/flappy-race/internal/server/hub.go:392-401 | it counts once for each of its racers, keeps the better score with its theme and time, gives the win to the first of the podium, and leaves others alone |
| HubTheorems.WinsFollowFinishes | images/flappy-race/internal/server/hub.go:392-411 | no event changes total wins except by finishing a race |
| HubTheorems.WinsAreFinishedRaces | images/flappy-race/internal/server/store.go:101-119 | over any run the wins gained are the races finished, and every race that flew is finished or flying |
| HubTheorems.HandleFinished | images/flappy-race/internal/server/hub.go:392-411 | an event finishes at most one race, only a flying one, and only that sets the last theme |
| HubTheorems.StillFlying | images/flappy-race/internal/server/hub.go:331-339 | until something is finished it is the same race, aged by the ticks |
| HubTheorems.RaceEndsInTime | images/flappy-race/internal/server/hub.go:331-339 | a race that flies is finished by the cap, whatever else happens |
| HubTheorems.SeedsNeverRepeat | images/flappy-race/internal/server/hub.go:363 | no two races of one hub share a seed within 2^64 draws |
| HubTheorems.IdsNeverReused | images/flappy-race/internal/server/hub.go:213-214 | in every run an id that was given and is no longer in use never comes back |
| Careers.CareersAreEarned | images/flappy-race/internal/server/store.go:101-115 | in every run everybody's races, wins and best are those before plus one race for each finished race with a bird of that name, one win for each podium it led, and the best of its scores, with the theme and the time of the race that set it |
| Careers.CareersNeverDrop | images/flappy-race/internal/server/store.go:109-113 | in every run nobody's races, wins or best ever drop |
| Careers.HandleCareer | images/flappy-race/internal/server/hub.go:392-401 | an event finishes a race for its birds, or leaves every career alone |
| Careers.FinalWorldNames | images/flappy-race/internal/server/hub.go:331-336 | the event that ends a race changes nobody's part in it |
| Appearance.AppearanceIsForGood | images/flappy-race/internal/server/hub.go:216-220 | in every run a name that has a valid appearance keeps it for good: no join and no race changes it |
| Appearance.EverybodyIsDressed | images/flappy-race/internal/server/hub.go:360-387 | in every run each player, and each bird of the race, wears what is remembered for its name, and a player and its bird wear the same |
| Appearance.RaceFollowsSeed | images/flappy-race/internal/server/hub.go:363-365 | in every run the race is flown through the pipes of the seed that the hub sends |
| Schedule.NextPhase | images/flappy-race/internal/server/hub.go:197-355 | in every run each event leads to exactly this phase: a countdown ends on the first tick at its time, a race when nobody flies any more or at the cap, the results at theirs, and the last player to go takes everything along |
| Schedule.RunTimes | images/flappy-race/internal/server/hub.go:360-410 | in every run take-off is as long after the start of the countdown, and the end of the results after the end of the race, as the hub was set up for |
| Themes.ThemeExclusion | images/flappy-race/internal/server/hub.go:375-381 | a theme is impossible exactly when it is the last finished race's |
| Themes.ThemeUntilNextRace | images/flappy-race/internal/server/hub.go:392-394 | in every run a theme stays until the next countdown, and is the last finished one's exactly once its race is finished |
| Themes.ThemeMayRepeatIff | images/flappy-race/internal/server/hub.go:357-364 | over any run, the next countdown can have the same theme exactly if this race was not finished |
| Themes.RepeatMeansUnfinished | images/flappy-race/internal/server/hub.go:357-364 | two countdowns in a row share a theme only if the first race was never finished |
| RepeatedTheme.DrawsOfSeed | images/flappy-race/internal/game/rng.go:12-18 | two draws of a concrete seed, worked out |
| RepeatedTheme.ThemeRepeats | images/flappy-race/internal/server/hub.go:357-381 | a run of join, leave and join, with a seed a nanosecond clock can show and readings that never decrease, whose two countdowns share a theme |
| Themes.ThemesChange | images/flappy-race/internal/server/hub.go:375-381 | in every run a coming or flying race differs in theme from the last finished one |
| Flaps.PendingFlaps | images/flappy-race/internal/server/hub.go:245-261 | what each event does to the pending flaps |
| Flaps.FirstStepIgnores | images/flappy-race/internal/game/world.go:138-156 | the first tick of a race shows its flaps exactly if one of them is a racer's |
| Flaps.RaceStartsCleanIff | images/flappy-race/internal/server/hub.go:331-334 | over any run from the end of one race to the take-off of the next: exactly when no racer's old flap is pending, and exactly then the first tick is one without flaps |
| Flaps.FlapsAreLimited | images/flappy-race/internal/server/hub.go:249-256 | in every run at most twenty flaps count of all that a player sends while the clock shows one and the same second |
| Flaps.FlapsInAnySecond | images/flappy-race/internal/server/hub.go:249-256 | on an ordinary clock at most forty count within any thousand milliseconds |
| Falling.OneLivesOneDies | images/flappy-race/internal/game/world.go:138-190 | after forty-eight ticks a bird that flapped once flies and one that never did is dead, on any track |
| StaleFlap.DoomedIsReached | images/flappy-race/internal/server/hub.go:201-355 | every hub for two players can come, on an ordinary clock, to a race with one flyer and a dead racer's flap pending |
| StaleFlap.StaleFlapIsApplied | images/flappy-race/internal/server/hub.go:331-334 | a run on an ordinary clock to a race whose first tick shows a flap sent in the race before |
| StaleFlap.DistanceFallsBack | images/flappy-race/internal/client/interp.go:127 | a run on an ordinary clock whose last two broadcasts make the shown distance run backwards |
| Hub.Hub.constructor | images/flappy-race/internal/server/hub.go:84-115 | a new hub waits, empty, and satisfies the invariant |
| Hub.Hub.Broadcast | images/flappy-race/internal/server/hub.go:465-495 | one snapshot of the present state, queued for every player in order |
| Hub.Hub.MaybeSnapshot | images/flappy-race/internal/server/hub.go:458-462 | a broadcast when the cadence asks for one |
| Hub.Hub.CountSpectators | images/flappy-race/internal/server/hub.go:497-505 | the players that do not race |
| Hub.Hub.PickTheme | images/flappy-race/internal/server/hub.go:375-381 | the theme picked from the next draw |
| Hub.Hub.BeginCountdown | images/flappy-race/internal/server/hub.go:360-373 | the new race, its seed and theme, and all players on its line |
| Hub.Hub.FinishRace | images/flappy-race/internal/server/hub.go:392-411 | ranks, records, and opens the results window or goes idle |
| Hub.Hub.RandomBird | images/flappy-race/internal/protocol/birddef.go:24-39 | the loop of thirty-two tries and a last roll |
| Hub.Hub.Register | images/flappy-race/internal/server/hub.go:211-225 | the registered newcomer |
| Hub.Hub.AdmitRacer | images/flappy-race/internal/server/hub.go:384-387 | a late racer on the line |
| Hub.Hub.Reject | images/flappy-race/internal/server/hub.go:434-437 | the error frame, then the close |
| Hub.Hub.SendWelcome | images/flappy-race/internal/server/hub.go:439-455 | the welcome frame |
| Hub.Hub.HandleJoin | images/flappy-race/internal/server/hub.go:201-241 | the program computes the join transition and its queue operations, and keeps the invariant |
| Hub.Hub.HandleFlap | images/flappy-race/internal/server/hub.go:245-261 | likewise for a flap |
| Hub.Hub.HandleLeave | images/flappy-race/internal/server/hub.go:268-318 | likewise for a departure |
| Hub.Hub.Tick | images/flappy-race/internal/server/hub.go:321-355 | likewise for a tick |
| Hub.Hub.Shutdown | images/flappy-race/internal/server/hub.go:138-142 | closes every player's queue once and nothing else |
| SendQueue.ClientConn.Enqueue | images/flappy-race/internal/server/client.go:41-53 | with a consumer acting between any two steps, the loop ends within two tries with the frame queued and at most the oldest dropped |
| SendQueue.ClientConn.Close | images/flappy-race/internal/server/client.go:56-58 | the queue is closed once, however often it is asked |
| SendQueue.Net.PushSnap | images/flappy-race/internal/client/net.go:134-148 | the second try cannot fail: the snapshot is always queued |
| SendQueue.Net.Fail | images/flappy-race/internal/client/net.go:150-156 | only the first failure is reported, and every failure closes the socket |
| QueueSpec.PutOk | images/flappy-race/internal/server/client.go:39-53 | the new frame is last in the queue; at most one frame is lost, none unless the queue was full |
| QueueSpec.DeliveredInOrder | images/flappy-race/internal/server/client.go:39-53 | in every run what is received is a subsequence of what was sent, and the newest frame is never lost |
| QueueSpec.RoomLosesNothing | images/flappy-race/internal/server/client.go:39-53 | while every put finds room nothing is lost |
| QueueSpec.StalledQueue | images/flappy-race/internal/server/client.go:39-53 | with nobody reading, the queue is the newest frames, as many as fit |
| Subsequences.SubseqTrans | images/flappy-race/internal/client/net.go:132-148 | what two lossy queues in series deliver is a subsequence of what was sent |
| Delivery.ReceivedInOrder | images/flappy-race/internal/client/net.go:100-148 | on any schedule the client receives a subsequence of its frames, and its ring is an ordered subsequence of the snapshots among them |
| Delivery.WelcomeArrivesFirst | images/flappy-race/internal/server/hub.go:236-240 | a welcome that arrives is the first frame received |
| QueueSpec.FirstSurvivesIff | images/flappy-race/internal/server/client.go:41-53 | on any schedule the first frame is received or still queued exactly if no put found the queue full with nothing taken |
| Delivery.WelcomeSurvivesIff | images/flappy-race/internal/server/client.go:41-53 | on any schedule a welcome is delivered or on its way exactly if the writer takes a frame before a put needs its place |
| Delivery.UnreadWelcomeSurvivesIff | images/flappy-race/internal/server/client.go:41-53 | a welcome nobody reads is still queued exactly while at most sixty-four frames were sent |
| LostWelcome.WelcomeIsLost | images/flappy-race/internal/server/client.go:41-53 | a run on an ordinary clock after which a client that reads nothing has lost its welcome |
| Delivery.NewestArrives | images/flappy-race/internal/client/net.go:132-148 | a client that has caught up shows the last snapshot sent exactly if that is the first of the latest time it received |
| Delivery.LatestArrives | images/flappy-race/internal/client/net.go:132-148 | in particular if it is the latest sent, whatever was dropped on the way |
| BroadcastLog.BroadcastReachesPlayers | images/flappy-race/internal/server/hub.go:489-494 | an announced snapshot goes exactly once to each player's connection and to no other |
| BroadcastLog.SpectatorsAreOutsiders | images/flappy-race/internal/server/hub.go:497-505 | the count sent is the number of players without a bird in the race, none in a countdown |
| BroadcastLog.QueuedAreBroadcasts | images/flappy-race/internal/server/hub.go:465-495 | in any run a connection's snapshots are a subsequence of the broadcasts |
| BroadcastLog.RingShowsBroadcasts | images/flappy-race/internal/client/interp.go:59-68 | end to end, for any run and schedule, the ring is a strictly time-ordered subsequence of the hub's broadcasts and a welcome comes before everything |
| Broadcasts.SnapshotShowsHub | images/flappy-race/internal/server/hub.go:465-488 | in every phase but waiting a snapshot shows the phase, times, theme and seed, all birds and pipes of the race field by field, and the ranking exactly once the race is over |
| Broadcasts.LogShows | images/flappy-race/internal/server/hub.go:465-495 | in every run each broadcast shows the hub as one of the events left it, in order of the events |
| Broadcasts.WhoIsTold | images/flappy-race/internal/server/hub.go:197-355 | in every run an accepted join, the departure of a racer before the race is over, and a tick that changes the phase or finds the last snapshot as old as the interval send each player one snapshot, which shows the hub after the event; no other event sends any, and nobody else gets one |
| Schedule.NobodyWaits | images/flappy-race/internal/server/hub.go:457-462 | in every run, after every tick, the latest snapshot a player was sent was taken on that tick or is younger than the interval |
| Joins.JoinsWithinLimit | images/flappy-race/internal/server/hub.go:201-210 | in every run who has a place and a name is let in; anybody else changes nothing, is told why, and is closed |
| Joins.PlayersWithinLimit | images/flappy-race/internal/server/hub.go:202-205 | in every run there are at most as many players as the hub was set up for |
| Joins.ListedAsJoined | images/flappy-race/internal/server/hub.go:60 | in every run players are listed, and the birds of a race shown, in the order in which they joined |
| Joins.NewcomersAreWelcomed | images/flappy-race/internal/server/hub.go:227-241 | in every run the first two frames of an accepted connection are the welcome, which tells it its own id, name and bird and says spectator exactly if it has no bird in the race, and the hub's state |
| RingSpec.RingIsNewestRecords | images/flappy-race/internal/client/interp.go:59-68 | the ring is always the last eight snapshots that were newer than everything before them |
| RingSpec.RingIsOrdered | images/flappy-race/internal/client/interp.go:57-68 | it is bounded, strictly increasing in time, a subsequence of what was pushed, and ends with the newest |
| RingSpec.RingEndsWith | images/flappy-race/internal/client/interp.go:59-68 | a ring ends with a snapshot exactly if that is the first of the latest time that was pushed |
| RingSpec.LastEndsRing | images/flappy-race/internal/client/interp.go:60 | a last snapshot that is no copy ends the ring exactly if every earlier one is earlier in time |
| RingSpec.AlphaInUnit | images/flappy-race/internal/client/interp.go:93-117 | the interpolation weight is in [0, 1] |
| RingSpec.BracketSurrounds | images/flappy-race/internal/client/interp.go:91-117 | the two samples are the stored snapshots right around the render time, at most 150 ms apart, and the weight is the share of time passed |
| RingSpec.ShownLiesBetween | images/flappy-race/internal/client/interp.go:119-155 | everything shown lies between its values in the two snapshots around the render time, as far along as the time is, or is the later one's own where the earlier has none; phase, times, theme, seed, ranking and appearance are the later one's |
| RingSpec.ExactAtStored | images/flappy-race/internal/client/interp.go:93-127 | at every stored time the distance shown is the stored one |
| RingSpec.ExactPose | images/flappy-race/internal/client/interp.go:129-155 | and every bird and pipe the snapshot knows is where it says |
| RingSpec.HeldPose | images/flappy-race/internal/client/interp.go:91-117 | outside the ring and in gaps over 150 ms a stored pose is held still |
| RingSpec.DistRisesIff | images/flappy-race/internal/client/interp.go:84-127 | the shown distance never runs backwards exactly when the stored ones do not |
| Ring.Ring.Push | images/flappy-race/internal/client/interp.go:59-68 | ignores stale snapshots and drops the oldest of a full ring |
| Ring.Ring.Reset | images/flappy-race/internal/client/interp.go:74 | empties the ring |
| Ring.Ring.Newest | images/flappy-race/internal/client/interp.go:77-82 | the latest snapshot, if any |
| Ring.Ring.FindBracket | images/flappy-race/internal/client/interp.go:91-117 | the scanning loop finds the bracket of a time |
| Ring.Ring.Interp | images/flappy-race/internal/client/interp.go:86-156 | the loops compute the view of a time |
| Ring.LookUpBird | images/flappy-race/internal/client/interp.go:158-165 | the first bird with the id |
| Ring.LookUpPipe | images/flappy-race/internal/client/interp.go:167-174 | the first pipe with the id |
| RingSpec.LerpBetween | images/flappy-race/internal/client/interp.go:176 | a weight in [0, 1] gives a value between the two ends, rising or falling |
| Clock.Clock.Sample | images/flappy-race/internal/client/clock.go:32-52 | one sample updates offset and reject counter as specified |
| Clock.Clock.ServerNow | images/flappy-race/internal/client/clock.go:55-60 | the local clock moved by the offset to within half a millisecond |
| Clock.CounterStaysBelow | images/flappy-race/internal/client/clock.go:39-49 | the reject counter never stands at thirty between samples |
| Clock.ExactDecay | images/flappy-race/internal/client/clock.go:50-51 | with exact samples an error within 250 ms shrinks to its n-fold four fifths, keeping its sign |
| Clock.ShrunkIsPower | images/flappy-race/internal/client/clock.go:51 | which is 0.8 to the n times the error |
| Clock.ExactResync | images/flappy-race/internal/client/clock.go:39-48 | with exact samples an error over 250 ms stands until the thirtieth rejection and is then zero |
| Clock.NearErrorDecays | images/flappy-race/internal/client/clock.go:50-51 | with noisy samples a small error decays to the noise |
| Clock.SettlesInTime | images/flappy-race/internal/client/clock.go:39-51 | each sample settles the estimate or uses up one rejection |
| Clock.ShrinksInTime | images/flappy-race/internal/client/clock.go:32-52 | with noise of any size, what exceeds it loses a fifth at least once in thirty samples |
| Clock.Stabilises | images/flappy-race/internal/client/clock.go:32-52 | from any state with an estimate and for noise of any size, thirty times n samples take n fifths of what exceeds the noise |
| Clock.StartsNear | images/flappy-race/internal/client/clock.go:34-38 | a clock never sampled is as near as the noise from its first sample on |
| Clock.StabilisesQuickly | images/flappy-race/internal/client/clock.go:32-52 | from any state, samples within 25 ms of the truth bring the error to the noise plus a rest that loses a fifth with each sample after thirty |
| Clock.OutliersAreIgnored | images/flappy-race/internal/client/clock.go:40-45 | fewer than thirty outliers followed by a good sample leave no trace |
| GameSpec.DelayGrows | images/flappy-race/internal/client/backoff.go:14-23 | delays never shrink, from half a second to eight seconds, which the fifth failure reaches |
| GameSpec.ComputeRetryDelay | images/flappy-race/internal/client/backoff.go:14-23 | the doubling loop computes the capped power of two |
| GameSpec.OneDialAtATime | images/flappy-race/internal/client/game.go:217-257 | in every run dials in flight and waiting results are one while dialing and none otherwise, so a send never blocks, and a live connection excludes dialing |
| GameSpec.RingNeverMixes | images/flappy-race/internal/client/game.go:176-189 | in every run the ring is fed by one connection only |
| GameSpec.FatalIsForever | images/flappy-race/internal/client/game.go:134-136 | after a rejection nothing happens any more |
| GameSpec.AttemptsAreSpaced | images/flappy-race/internal/client/game.go:217-221 | in every run the n-th failure in a row is followed by at least the n-th delay |
| GameSpec.EveryFailureIsRetried | images/flappy-race/internal/client/game.go:217-228 | in every run a failed attempt or lost connection is followed by another dial by the first frame eight seconds later |
| GameSpec.EveryResultIsTaken | images/flappy-race/internal/client/game.go:242-257 | in every run the outcome of a dial is acted upon by the next frame |
| GameSpec.DialFollows | images/flappy-race/internal/client/game.go:217-221 | a waiting game has dialed by the first frame at the time of the next attempt, whatever else happens |
| GameSpec.ConnectionsFollow | images/flappy-race/internal/client/game.go:249-254 | in every run connections only follow one another: a ring reset for a newer one is never fed by an older |
| GameRuns.ClockFollows | images/flappy-race/internal/client/game.go:176-189 | in every run the clock has followed the server time minus the local time of the snapshots taken, one after the other |
| GameRuns.ClockIsRight | images/flappy-race/internal/client/clock.go:34-38 | in every run whose snapshots tell the time to within the jitter, the estimate is as near from the first one on |
| GameRuns.ClockRecovers | images/flappy-race/internal/client/clock.go:32-52 | whatever happened before, from then on thirty times n snapshots within the jitter take n fifths of what the error exceeds it by |
| GameRuns.RingHoldsTaken | images/flappy-race/internal/client/game.go:176-189 | in every run the ring is what the snapshots taken since the connection came about make of an empty ring |
| GameRuns.DialsJoinAs | images/flappy-race/internal/client/game.go:217-228 | in every run a dial joins under the name the server confirmed last, or else the player's own |
| Game.Game.ScheduleRetry | images/flappy-race/internal/client/game.go:260-263 | one more failure and the time of the next attempt |
| Game.Game.PumpNet | images/flappy-race/internal/client/game.go:176-202 | snapshots first, in order, then an error ends the connection |
| Game.Game.Reconnect | images/flappy-race/internal/client/game.go:217-257 | starts a due dial or takes the result of the one that runs |
| Game.Game.Update | images/flappy-race/internal/client/game.go:128-144 | one frame computes the transition and keeps the invariant |
| Game.Game.DialEnds | images/flappy-race/internal/client/game.go:228-238 | the dial goroutine's send finds room |

## Left out

- Floating point: all arithmetic is exact, so rounding of float64 and the two-decimal rounding of wire values are not modelled.
- WebSocket, HTTP, JSON, pings and deadlines: the socket is a FIFO that may stop at any point; frames are values.
- Files: saving and loading the statistics; a store starts from statistics and a leaderboard that agree.
- The two-second fallback of `submit`: joins and leaves are always delivered; flaps may be lost, which is the absence of the event.
- `ValidateName`: its outcome is a parameter; Unicode classes are not modelled.
- Overflow of 64-bit ticks, ids and clock readings, which would take longer than any race or server runs.
- Birds as pointers: a bird is a value in a map of the world, so aliasing between the map and callers is not captured.
- The library sort: a specification function, with the proof that the result does not depend on the algorithm.
- The hub's queues inside the hub: handlers list their queue operations; `Delivery` and `BroadcastLog` connect the list to the queues.
- Flap input of the client and its command queue: dropping a flap is the absence of the event.
- Rendering, input, the HUD, name entry beyond its result, and the start screen's leaderboard: nothing there has state of its own worth proving.
- The other images, the cluster configuration and the scripts of the repository.
- LastTick.SurvivorCanLose: over tracks given by their draws; no seed with such a track is given.
