# Tank game: relay, simulation and server loop

This project models the three stateful parts of a multiplayer tank game and proves what they
keep over whole runs.

**The signalling protocol.** A relay accepts websocket connections, keeps a registry of peers
(`PeerRegistry`) and forwards messages between game servers and clients. `Relay` models it as a
concurrent system: one handler per websocket, each a process whose steps are its reads, its
separately locked critical sections, its writes and its deferred cleanup, interleaved with all
other handlers in any way. Several sockets may use one id. `RelayRefinement` shows that the
separate look-up and role question behave like one atomic decision. `RelayHandler` contains the
handler loop in its own imperative form and ties it to the same steps. `Endpoints` holds the
server's and the client's message handling, and `EndToEnd`, `EndToEndSafety` and
`EndToEndGuarantees` compose any number of servers and clients with the relay; `EndToEndOrder` adds
the order of what arrives, and `EndToEndApplied` what the endpoints do with it.

**The simulation.** `TankModel`, `CollisionModel` and `GameModel` say what each system does, on
values; `TankSystems` holds the systems as loops that change the game state in place, each proved
equal to the value it should produce. `Fates` says what a step does to each
entity in distances, ids and ticks alone. `CollisionOrder`, `GameRuns`, `TankRuns`, `DamageRuns` and
`InputIsolation` prove what holds for every order in which the entity views are visited and for
every run of steps, inputs, spawns and destructions. `Vectors` has the plane geometry they need
(Cauchy-Schwarz and the triangle inequality, without square roots).

**The server loop.** `ServerLoop` models the adaptive fixed-timestep loop: a window of twenty
measurements, an interpolated timescale, an accumulator and a sleep. `ServerLoopStability` proves
conservation of time, closed-loop stability and the step rate; `LoopTurns` says what every iteration
of a run does, in arithmetic on the clock readings; `CatchingUp` says exactly when a run
under a constant load catches up.

Coordinates, durations and health are exact reals. Lengths and headings come from a library
contract (`Maths.Valid`): the square of a length is the sum of squares, headings are unit vectors.

## Where the code does not do what it says

- `game/src/common/server_instance.cpp:55` says that going slower than the mean catches up. In a
  run that has come to a constant load, with more than a timestep of backlog, the backlog comes
  down to a timestep exactly when the load is below a timestep and the backlog small enough for it
  (`CatchesUpInRunsIff`), and then within a bounded number of iterations (`RecoversInRuns`).
  All of it holds for readings that respect the sleep the loop asked for.
  From the very start, a load above a timestep makes the backlog grow for ever
  (`OverloadFromTheStart`), and so does a load of 0.99 timesteps (`HeavyLoadFromTheStart`).
- `game/src/common/tank_systems.h:141-143` destroys every bullet on the removal list without
  asking whether it is alive. A shot at two destructibles in one place makes it destroy one bullet
  twice (`StackedStepFails`). For given view orders the loop acts on live entities only exactly when
  every bullet hits at most one thing (`DestroysOnlyLiveIff`); it does so in every order exactly when
  each bullet is in range of one active destructible or tank of others at most
  (`SafeInEveryOrderIff`), which a separated world guarantees (`SeparationIsSafe`).
- `game/src/common/network_server.cpp:214-253` creates the data channels before it stores the
  connection. A client can therefore be connected before the server's map has an entry for it
  (`ConnectedWithoutEntry`); `ConnectionMeansJoin` shows that this is the only way, and `NoFaults`
  that it does no harm.
- `game/src/client/network_client.cpp:112-115` treats a message without a connection as an error,
  but `disconnect` leaves the signalling socket open: a candidate still in flight then reaches that
  branch (`CandidateAfterDisconnect`). `RefusedExactlyWhen` shows that nothing else does.
- `game/src/common/tank_systems.h:35,59` steers by the low 32 bits of a peer id and fires by all
  64. A wide id steers another peer's tank and fires from none (`WideIdSteersAnother`); both agree
  exactly under the condition of `SameTanksIff`, and inputs leave the tanks of others alone exactly
  under the same condition (`OnlyOwnTanksIff`).

## Model

| member | source | states |
|---|---|---|
| PeerRegistry.PeerManager.Register | signalling-server/main.go:78-98 | succeeds exactly when the id is free and the limit, if any, leaves room; then the map gains the entry and, for a server, the list the id at its end; otherwise nothing changes; agreement of map and list is kept |
| PeerRegistry.PeerManager.Unregister | signalling-server/main.go:100-123 | removes the entry and the first occurrence in the list, closes that entry's connection only; with map and list in agreement the "failed to find" branch is unreachable |
| PeerRegistry.PeerManager.GetRole | signalling-server/main.go:138-145 | the role under an id, or none |
| PeerRegistry.PeerManager.GetServerList | signalling-server/main.go:147-153 | a duplicate-free list of exactly the registered servers |
| PeerRegistry.RegisterAgrees | signalling-server/main.go:87-95 | registration keeps list and map in agreement and the connection limit unbroken |
| PeerRegistry.UnregisterAgrees | signalling-server/main.go:104-119 | so does unregistration, and a registered server is always found in the list |
| Relay.OwnershipInRuns | signalling-server/main.go:198-204 | in every reachable state each id is owned by the live handler of that id and connection, and every live registered handler owns its id, with the role it registered |
| Relay.OwnRoleInRuns | signalling-server/main.go:262-265 | in every run the role question answers the role the handler registered with, never the empty one or another connection's |
| Relay.EvictsOnlyItselfInRuns | signalling-server/main.go:199-204 | in every run the deferred cleanup finds its own entry, removes no other and closes no other connection, even when ids are shared |
| Relay.OneOwnerInRuns | signalling-server/main.go:82-85 | in every run, two live registered handlers never share an id |
| Relay.RefusedInRuns | signalling-server/main.go:82-90 | in every run a registration is refused exactly when a handler that has registered and not ended has the name, or as many of them as the limit are there |
| Relay.ShutdownInRuns | signalling-server/main.go:326-331 | a shutdown closes exactly the connections of those handlers |
| Relay.NoClientToClient | signalling-server/main.go:262-272 | in every run nothing was ever forwarded from a client to a client; every forwarded message carries its sender's id and both ends had registered |
| Relay.RegistryInRuns | signalling-server/main.go:87-119 | in every reachable state the server list is duplicate-free, names exactly the registered servers, is in registration order of those still present, and the limit holds |
| Relay.ForwardedIsSubsequence | signalling-server/main.go:252-274 | what a handler has forwarded is a subsequence, in order, of what it read, with the id rewritten to its own |
| RelayRefinement.RelayRefinesAtomicRouter | signalling-server/main.go:252-274 | every interleaved run is, step by step, a run of a router that decides at the look-up; the separately locked role question is silent; registry, written messages and forwarded messages agree |
| RelayHandler.Iterate | signalling-server/main.go:214-275 | one loop iteration, on the registry's fields: what it ignores, when it registers, to whom it forwards and with which id, when a failed write ends it; and it changes everything as the relay's steps do |
| RelayHandler.ServeConnection | signalling-server/main.go:184-276 | the whole life of a connection, with its cleanup, is the undisturbed run of its handler's steps |
| RelayHandler.TurnRoutes | signalling-server/main.go:252-274 | an undisturbed iteration forwards exactly by the atomic router's decision, and a failed write ends the sender's handler |
| RelayHandler.TurnRegisters | signalling-server/main.go:225-250 | registrations take effect exactly when admitted; undecodable, unknown, repeated, roleless and premature messages change nothing |
| Endpoints.NetworkServer.HandleSignallingMessage | game/src/common/network_server.cpp:89-142 | refused are exactly messages for unknown ids that are neither joins nor offers; otherwise only the entry of the id changes: a description or candidate is appended to what was applied to it; whatever the library emits during a creation is sent, addressed to that client |
| Endpoints.NetworkServer.CreateClientConnection | game/src/common/network_server.cpp:144-258 | under the asserted absence of an entry, the data channels are created, what they emit is sent, and only then exactly that entry is added |
| Endpoints.NetworkClient.Connect | game/src/client/network_client.cpp:18-78 | a socket that opens in time sends the registration and then the join, one that opens late a registration alone, one that never opens nothing |
| Endpoints.NetworkClient.HandleSignallingMessage | game/src/client/network_client.cpp:80-125 | joins are ignored; without a connection an offer creates one to its sender and anything else is refused; with one, descriptions and candidates are appended to what was applied, whoever sent them |
| EndToEndGuarantees.InvInRuns | game/src/common/network_server.cpp:89-142 | the protocol invariant holds in every reachable state of any number of clients, servers and relay handlers |
| EndToEndGuarantees.NoFaults | game/src/common/network_server.cpp:129-146 | in every run a server never reaches its "no connection exists" branch and never creates an entry over an existing one, and a client reaches that branch only after it has called `disconnect` |
| EndToEndGuarantees.RefusedExactlyWhen | game/src/client/network_client.cpp:106-115 | a delivery is refused exactly when it hands a candidate to a client that has had its connection and has it no more |
| ConnectionWindow.CandidateAfterDisconnect | game/src/client/network_client.cpp:199-206 | a run in which a candidate in flight finds a client that has disconnected |
| EndToEndGuarantees.ConnectionMeansJoin | game/src/client/network_client.cpp:106-124 | a connected client is connected to the server it asked for, which has already handled its join; an entry exists unless the server is still inside creating it; everything applied came from that server |
| EndToEndGuarantees.EntryMeansJoin | game/src/common/network_server.cpp:111-122 | a server's map names only clients that asked for it and whose join it has handled |
| EndToEndGuarantees.ClientHearsOnlyItsServer | game/src/client/network_client.cpp:80-125 | a client receives only offers and candidates of the server it asked for, an offer first |
| EndToEndGuarantees.ServerHearsOnlyItsClients | game/src/common/network_server.cpp:89-142 | a server receives joins of clients that asked for it, and answers and candidates only of clients it owns |
| EndToEndOrder.HandedInOrder | signalling-server/main.go:252-274 | in every run, what an endpoint has been handed from another, up to any moment, is an ordered subsequence of what that one sent addressed to it, with the id replaced by the sender's |
| EndToEndOrder.ClientHandedInOrder | game/src/client/network_client.cpp:80-125 | all that a client has been handed is an ordered subsequence of what its server sent it |
| EndToEndApplied.ServerAppliesAll | game/src/common/network_server.cpp:111-141 | in every run, to each entry of a server have been applied exactly the descriptions and candidates handed over from its client, in order |
| EndToEndApplied.ClientAppliesAll | game/src/client/network_client.cpp:106-124 | in every run, a client that has not disconnected has applied exactly what it has been handed |
| ConnectionWindow.ConnectedWithoutEntry | game/src/common/network_server.cpp:214-255 | a run ends with a connected client for which the server has no entry yet |
| ConnectionWindow.UndisturbedForward | signalling-server/main.go:252-274 | a permitted message to a registered open peer gets through when nothing interferes |
| TankSystems.Game.DestroyEntity | game/src/common/game.cpp:40-45 | destroying an entity removes it, and only it, from every map; an unknown one changes nothing |
| TankSystems.MovementUpdate | game/src/common/tank_systems.h:11-29 | the in-place loop moves every tank once, whatever the view order |
| TankSystems.InputApply | game/src/common/tank_systems.h:35-49 | the in-place loop steers exactly the tanks of the peer, whatever the view order |
| TankSystems.ShootProcess | game/src/common/tank_systems.h:55-69 | the loop creates the bullets of `FireAll` |
| TankSystems.ShootUpdate | game/src/common/tank_systems.h:71-91 | all bullets advance, exactly the expired ones go, and every removal acts on a live entity |
| TankSystems.CollisionCheck | game/src/common/tank_systems.h:97-144 | the nested loops and the deferred removal produce `Collide`; false exactly when a bullet is destroyed twice |
| TankSystems.Game.Step | game/src/common/game.cpp:11-17 | a step is tick, movement, bullets, collisions, in this order |
| TankSystems.Game.QueueInput | game/src/common/game.cpp:19-27 | an input steers by the truncated id and fires by the whole id |
| TankSystems.Game.SetupInitialGameState | game/src/common/game.cpp:47-55 | adds the three collectibles and the three destructibles to whatever the game holds |
| TankModel.NearIsDistance | game/src/common/tank_systems.h:105-106 | comparing squares is comparing distances |
| TankModel.Truncate32 | game/src/common/tank_systems.h:35 | the truncation of a peer id is below 2^32 and is the identity exactly on such ids |
| CollisionModel.DestructiblesClosedForm | game/src/common/tank_systems.h:101-114 | for any order, n bullets in range cost an active destructible 25 times min(n, ceil(h/25)) health, and it stays active exactly while health is left |
| CollisionModel.CollectiblesClosedForm | game/src/common/tank_systems.h:129-138 | for any order, a collectible stays active exactly when it was and no tank is in range |
| CollisionModel.RemovalMultiplicity | game/src/common/tank_systems.h:98-126 | a bullet is listed once for each destructible it damages and each tank of another owner within 2.0 |
| CollisionModel.RemovalListIsBullets | game/src/common/tank_systems.h:98-126 | only live bullets are listed |
| CollisionModel.DestroysOnlyLiveIff | game/src/common/tank_systems.h:140-143 | the destroy loop acts on live entities only exactly when every multiplicity is at most one, and then exactly the bullets without a hit survive |
| CollisionOrder.DestructiblesAreOrderFree | game/src/common/tank_systems.h:101-114 | two view orders leave the same destructibles |
| CollisionOrder.CollectiblesAreOrderFree | game/src/common/tank_systems.h:129-138 | two view orders leave the same collectibles |
| CollisionOrder.HitTotalIsOrderFree | game/src/common/tank_systems.h:98-126 | two view orders record the same number of hits |
| CollisionOrder.FirstTakesTheLastHit | game/src/common/tank_systems.h:101-114 | which bullet is recorded does depend on the order: of two contending for a last hit, the first |
| CollisionOrder.SafeInEveryOrderIff | game/src/common/tank_systems.h:98-143 | in every view order no bullet is destroyed twice, if and only if each bullet is in range of one active destructible or tank of another owner at most |
| CollisionOrder.SeparationIsSafe | game/src/common/tank_systems.h:98-143 | with all active destructibles and tanks apart by the sum of their hit radii, no bullet is destroyed twice and exactly those without a hit survive |
| Fates.SurvivesCollisionIff | game/src/common/tank_systems.h:101-143 | a bullet survives a pass exactly when every tank within 2.0 has its owner's id and every active destructible within radius + 0.5 has been finished by earlier bullets |
| Fates.YoungBulletsAreSeen | game/src/common/tank_systems.h:76-90 | in every run, the collision pass of a step sees exactly the bullets at most 119 ticks old by then, each a tick further on |
| Fates.BulletFate | game/src/common/game.cpp:11-17 | in every run, a bullet survives a step exactly when it is at most 119 ticks old, clear of other owners' tanks, and finds nothing left to damage |
| Fates.BulletLeaves | game/src/common/game.cpp:11-45 | in every run, a bullet leaves only by age, by a recorded hit, or by being destroyed by name |
| Fates.DestructibleFate | game/src/common/tank_systems.h:101-114 | in every run, a step takes 25 health for each bullet within radius + 0.5, down to none, and leaves active exactly those with some |
| Fates.CollectibleFate | game/src/common/tank_systems.h:129-138 | in every run, a step leaves a collectible active exactly when it was and no tank has come within radius + 1.5 |
| Fates.EntitiesComeAndGo | game/src/common/tank_systems.h:150-178 | what each spawn adds, field by field, and that a destruction takes the entity out of every map and nothing else |
| Fates.ServerStartsWith | game/src/common/game.cpp:47-55 | the six entities a server's game starts with, and where |
| DoubleDestroy.StackedIsReachable | game/src/common/game.cpp:19-38 | a second destructible in the place of one the server starts with, a tank and a shooting input lead to a bullet about to reach both |
| DoubleDestroy.StackedStepFails | game/src/common/tank_systems.h:140-143 | whatever the orders, the next step destroys that bullet twice |
| DoubleDestroy.LoneBulletTwoTargets | game/src/common/tank_systems.h:101-143 | so does any step in which a lone bullet is in range of two active destructibles |
| GameRuns.RunInvariant | game/src/common/game.cpp:11-55 | every reachable world has standard tanks with 32-bit ids, bullets that are not from the future and no older than their lifetime, and destructibles in quarters of health |
| GameRuns.BulletAges | game/src/common/tank_systems.h:82-84 | the unsigned age never wraps, and every bullet that survives a step is younger than 120 ticks |
| GameRuns.BulletTrajectory | game/src/common/tank_systems.h:76-85 | a bullet alive at two moments of a run has flown straight in between, by the ticks between them |
| GameRuns.RangeBound | game/src/common/tank_systems.h:58-85 | the collision pass sees a fired bullet only on its line and at most 119 ticks of flight from its muzzle |
| GameRuns.LiveBulletBound | game/src/common/tank_systems.h:55-91 | with at most s bullets fired per tick value, at most 120 s fired bullets are ever alive |
| TankRuns.MoveTankSpeed | game/src/common/tank_systems.h:13-27 | after a movement update the speed is at most the maximum and at most the slowed speed, along the old direction, and the tank has moved by the new velocity |
| TankRuns.SpeedAfterStep | game/src/common/tank_systems.h:18-22 | after every step of every run every tank is within its maximum speed |
| TankRuns.TankReach | game/src/common/tank_systems.h:11-29 | between two moments of a run a tank moves, in a straight line, at most its maximum speed times the steps taken |
| TankRuns.CoastingBound | game/src/common/tank_systems.h:13-26 | without input the speed after n steps is at most 0.98^n of the first one, and the displacement at most 49 timesteps of it, in spite of the clamp |
| TankRuns.CoastingTurn | game/src/common/tank_systems.h:16-27 | without input the rotation follows the same geometric series exactly |
| TankRuns.CoastingInRuns | game/src/common/game.cpp:11-27 | the coasting bounds hold in every run for every tank nobody steers, whatever else happens |
| DamageRuns.HealthLevels | game/src/common/tank_components.h:48-53 | every destructible ever seen has health 25 k with 0 <= k <= 4 and is active exactly when k is positive |
| DamageRuns.DamageConserved | game/src/common/tank_systems.h:101-114 | between two moments of a run a destructible loses 25 times the hits recorded on it and never reactivates |
| DamageRuns.CollectedForGood | game/src/common/tank_systems.h:129-138 | a collected collectible stays collected |
| DamageRuns.TotalDamageConserved | game/src/common/tank_systems.h:98-114 | in every run, the quarters of health lost by all destructibles, with what the removed ones had lost by then, are the destructible hits recorded since the start |
| InputIsolation.SameTanksIff | game/src/common/tank_systems.h:35-37 | in every run, an input steers and fires from the same tanks exactly when its id fits in 32 bits or its truncation names no tank |
| InputIsolation.SteeringInRuns | game/src/common/tank_systems.h:35-49 | in every run, an input pushes exactly the player tanks with its low 32 id bits, along the heading by 20 times the throttle and not sideways, and turns them by twice the turn |
| InputIsolation.WideIdSteersAnother | game/src/common/tank_systems.h:35-59 | a reachable world in which an id beyond 32 bits steers another peer's tank and fires from none |
| InputIsolation.ShotsPerInput | game/src/common/tank_systems.h:56-68 | a shooting input adds exactly one new bullet for each tank of its peer, any other input none |
| InputIsolation.NewBulletsLeaveMuzzles | game/src/common/tank_systems.h:61-67 | every bullet an input adds starts three units ahead of a tank of its peer and flies along its heading at 400 |
| InputIsolation.InputIsolated | game/src/common/game.cpp:19-27 | an input changes no tank whose id differs from the truncated id, and no existing bullet |
| InputIsolation.OnlyOwnTanksIff | game/src/common/game.cpp:19-27 | in every run, the inputs of a peer leave the tanks of the others alone exactly when its id fits in 32 bits or its truncation names no tank |
| InputIsolation.InputsCommute | game/src/common/game.cpp:19-27 | two inputs fire the same bullets in either order, up to naming, and leave the same tanks exactly when their truncated ids differ, they turn alike, or they steer nothing |
| InputIsolation.NarrowIdsCommute | game/src/common/game.cpp:19-27 | so the inputs of distinct peers with ids below 2^32 commute: the worlds differ only in the identifiers of the same new bullets |
| ServerLoop.ServerInstance.Run | game/src/common/server_instance.cpp:30-81 | the loop's fields and game steps after any clock readings and kill-flag polls are those of the iterations it completed, plus one measurement if the flag stopped it |
| ServerLoop.ServerInstance.MeanDuration | game/src/common/server_instance.cpp:53-54 | the accumulating loop returns what times the size of the window is its sum |
| ServerLoop.Completed | game/src/common/server_instance.cpp:42-45 | the iterations completed are those before the first poll that finds the flag set |
| LoopTurns.MeasuredIs | game/src/common/server_instance.cpp:34-36 | each measurement is the time since the reading before, or two seconds if that is less |
| LoopTurns.TimestepIs | game/src/common/server_instance.cpp:49-69 | every iteration of every run: the timestep is F up to a backlog of F, 0.9 of the mean of the last twenty measurements from 4F on, and on the straight line in between |
| LoopTurns.TurnBalances | game/src/common/server_instance.cpp:71-80 | every iteration of every run: the timestep is taken exactly when the backlog covers it, what is not taken stays, and the sleep is for what is missing, at most a second |
| ServerLoopStability.DequeIsWindow | game/src/common/server_instance.cpp:49-52 | the deque is always exactly the last min(i, 20) measurements |
| ServerLoopStability.TimeIsConserved | game/src/common/server_instance.cpp:34-74 | capped elapsed times add up to the accumulator plus the timesteps consumed |
| ServerLoopStability.StabilityThroughout | game/src/common/server_instance.cpp:32-80 | with every overhead at most F/9, at every iteration the mean is at most 10F/9, the timestep in [26F/27, F], the accumulator in [0, F) and at most 4F/27 after a step, and one of two consecutive iterations steps |
| ServerLoopStability.RateBound | game/src/common/server_instance.cpp:71-74 | under the same hypothesis the n steps in total time T satisfy nF > T - F and n(26/27)F <= T |
| CatchingUp.TimestepVersusLoad | game/src/common/server_instance.cpp:55-69 | exactly when the timestep chosen for a backlog exceeds, or falls short of, a constant load |
| CatchingUp.CatchesUpInRunsIff | game/src/common/server_instance.cpp:32-80 | in every run that has come to a constant load with more than a timestep of backlog, the backlog later comes down to a timestep if and only if the load is below a timestep and the backlog small enough; otherwise it stays above for ever; all readings respect the requested sleeps |
| CatchingUp.TickingSlept | game/src/common/server_instance.cpp:76-80 | while the backlog is above a timestep, readings at the constant load come no earlier than the requested sleep allows |
| CatchingUp.RecoversInRuns | game/src/common/server_instance.cpp:32-80 | in every such run, a backlog that one iteration shrinks is down to a timestep within as many iterations as that gain fits into it |
| CatchingUp.NeverRecoversInRuns | game/src/common/server_instance.cpp:32-80 | in every such run, once a constant load loses, the backlog grows at least in proportion to the iterations |
| CatchingUp.SteadyAfterAWindow | game/src/common/server_instance.cpp:49-54 | whatever came before, a constant load fills the window in twenty iterations |
| CatchingUp.OverloadFromTheStart | game/src/common/server_instance.cpp:32-80 | the run with a constant load above a timestep falls behind from its start, by a fixed amount an iteration |
| CatchingUp.HeavyLoadFromTheStart | game/src/common/server_instance.cpp:32-80 | so does the run with a constant load of 0.99 timesteps |

## Left out

- Floating point: durations, coordinates, angles and health are reals, so rounding and overflow are not modelled; square roots, sines and cosines are a contract.
- The tick counter is unbounded; only the unsigned subtraction of ticks is modelled with its width. Entity identifiers are never recycled.
- A step that destroys a bullet twice has no successor in a run: what the entity library does from there on is undefined, so the results over runs speak of runs without one.
- View orders: a collision pass visits each entity type in one order throughout the pass, as the library does while no entity is created or destroyed; the order itself is arbitrary.
- Thread interleaving around the game object: the spawn calls do not take its lock, and calls are modelled as sequential.
- Connection metadata in messages, HTTP endpoints, websocket upgrade, TLS, origin checks, JSON and logging; a message that cannot be decoded is one case of `Frame`.
- Conversion of ids between decimal text and numbers: ids are the texts that travel in the messages.
- The composed system takes as hypotheses that every endpoint has a fresh id, connects once and, if a server, is never restarted; clients may disconnect at any time. The results about the relay alone need none of this.
- The peer-connection library is a contract: creating data channels yields one offer and then candidates, applying an offer yields one answer and then candidates; connection establishment, data channels and disconnection callbacks are not part of this model.
- A relay write is one atomic append or a failure. Delivery is in order; that every message is eventually delivered is not claimed.
- The subobject counter in game/src/common/game.h:22, which nothing uses.
- The state event manager, the schemes of docs/netcode.md, rendering and the client window loop, the network thread's fixed-period loop, random id generation and the list of ICE servers.
