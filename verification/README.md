# OVLive: a verified model

OVLive is a live transit map. A server ingests realtime vehicle events into an in-memory fleet and
streams each connection the differences of its viewport; map clients rebuild the fleet from those
frames. This project models that system in Dafny and proves what it promises.

- **The live replication protocol.** `LiveState` is the lifecycle of one trip and of the fleet
  (INIT, END, journey changes, schedule anchoring, staleness sweeps), and `Lifecycle` proves what holds
  over every history of events and sweeps. `VehicleIndex` is the per-tick snapshot, `StreamServer` the
  server half of a connection, `VehicleStore` the client replica, `LiveClient` the socket machine.
  `Replication` puts them together as one step system (server, an ordered channel each way per socket,
  client; any interleaving) with an inductive invariant, and `Convergence`, `Currency` and `Watchdog` read the
  guarantees off it; `Wire` spells out what crosses it. `Scenarios` holds concrete runs. `Discards` says when a
  trip is thrown away and when it is kept. `TripFields` says what a life leaves in the fields of a trip.
- **Stops.** `StopGrid` (viewport query and endpoint), `StopLayer` (the client's box cache over it),
  `Departures` and `BoardCalls` (the day-scoped departure board and its endpoint), `StopSearch` (name search and grouping).
- **Feed decoders** as machines over XML tokens: `Kv6`, `NsPositions`, `RitInfo`, with `TrainDelays` (the
  delay curve), `Punctuality` (journey document to fleet) and `Freshness` (the fix-age gate against the
  staleness sweep).
- **Calendar and screen.** `Dates`, `Services` (service calendar), `Gtfs` and `Enrichment` (train numbers,
  enrichment, the schedule anchor), `PlanFetch` (the plan refetch rule as effects over every interleaving).

Where the source mutates an object or a buffer step by step, the model has a class or a method with
loops, proved equal to a specification function; the theorems are about those functions. Where the source
iterates a hash map, the order is arbitrary. Floating point numbers are reals, with NaN where the source
tests for it. Clocks, text parsing, projection, bearing, case folding and local
midnight are parameters.

`dafny verify dfyconfig.toml` checks everything.

## Claims that are false, and what holds instead

- A client is not always current. What the server compares leaves out whether a delay is known, the
  bearing, the current stop, the anchoring flag and everything the schedule adds.
  `Currency.DelayKnownIsCurrentIff` and `Currency.EnteredFieldsAreCurrentIff` say exactly when each is current
  after a tick, silent ones included, and `Scenarios.KnownDelayShownUnknown` is a run that ends stale.
- "Gone" is not always "ended": `Convergence.PrematurelyGone` says exactly when a vehicle still running is
  reported gone, and `Scenarios.GoneWhileRunning` is a run that does it.
- `connect` is not idempotent: `Convergence.ConnectAgain` says exactly when a second call is safe;
  `Scenarios.ConnectTwice` and `Scenarios.ConnectDuringRetry` are runs where it is not.
- An open socket does not always have its watchdog armed: `Watchdog.WatchdogOffIff` says exactly when not, and
  `Scenarios.LateCloseLeavesUnwatched` is a run that gets there.
- The departure board is not complete for a window starting more than six hours before midnight
  (`DepartureBoard.BoardIsCompleteIff`, `DepartureBoard.EarlyWindowFails`), and not the union of both service
  dates (`DepartureBoard.UnionOfDatesIff`, `DepartureBoard.UnionOfDatesFails`).
- Vehicle ids do not always identify vehicles: `Domain.IdsClashIff` says exactly when two clash,
  `Domain.IdClash` gives a pair, and without `:` in owner codes none do (`Domain.IdIdentifies`).
- The train gate and the staleness window are not safe at any setting: `Freshness.GateIsSafeIff` says exactly
  when no decoded train can be swept at once, and `Freshness.LateGateFlickers` decodes one that is.

The comments at `crates/core/src/state.rs:291-294` call a real fix permanent; INIT, END, a journey change and
a sweep discard it like everything else, which is how `Lifecycle.RealFixBeatsAnchor` states it.

## Model

| member | source | states |
|---|---|---|
| `Domain.IdIdentifies` | crates/core/src/model.rs:47-56 | two keys without `:` in their owner code have the same id only if they are the same key |
| `Domain.IdsClashIff` | crates/core/src/model.rs:47-56 | two different keys share an id exactly when the longer owner code continues the shorter one past a `:` and its rest opens the other's vehicle number |
| `Domain.IdClash` | crates/core/src/model.rs:47-56 | two different vehicles that share an id |
| `TripFields.MotionOverLife` | crates/core/src/state.rs:250-295 | in every life a trip is where its last fix or anchor put it, its previous position is the last known one before that, and it heads the way the last feed course said or the last move beyond the jitter threshold went, whichever came later |
| `TripFields.JourneyOverLife` | crates/core/src/state.rs:124-182 | in every life the journey number is the last named; the last block an event said, and the last day an event or a train's curve said, stand against the schedule |
| `TripFields.BusJourneyOverLife` | crates/core/src/state.rs:124-182 | in a life without train events line and day are exactly the last an event named |
| `TripFields.StatusOverLife` | crates/core/src/state.rs:74-182 | in every life speed, delay, stop, kind and time are each what was last said, a train's curve having the last word over the event it answers for; a delay is known exactly when one was ever said |
| `TripFields.DelayIsLastCarried` | crates/core/src/state.rs:124-182 | in a life without train events the delay is the last an event carried, and known exactly when one did |
| `TripFields.ModeOverLife` | crates/core/src/state.rs:308-312 | in every life the mode is the first that was ever known and never changes; an event carrying one while none is known makes it known |
| `TripFields.KeyOverLife` | crates/core/src/state.rs:124-182 | the vehicle of a life is that of its first event |
| `LiveState.Fleet.Apply` | crates/core/src/state.rs:124-182 | one event has exactly the lifecycle effect on its own vehicle's slot and none on any other; the result names the vehicle and whether it was removed |
| `Discards.DiscardedIff` | crates/core/src/state.rs:147-159 | an event other than INIT and END throws away the trip it finds exactly when both journey numbers are known and different |
| `Discards.DiscardedTripIsForgotten` | crates/core/src/state.rs:128-159 | INIT, END and such a journey change leave the outcome of first sight |
| `Discards.KeptTripGoesOn` | crates/core/src/state.rs:147-182 | otherwise first facts, journey, match, schedule fields and a known delay stay |
| `Discards.PlaceStays` | crates/core/src/state.rs:264-296 | and so does the place, unless the event brings coordinates or is about a station and the trip has no place of its own |
| `Discards.FixPlaces` | crates/core/src/state.rs:237-246 | a fix puts the trip at its WGS84 coordinates, else at the projection of x and y in that order |
| `Discards.AnchoringKinds` | crates/core/src/state.rs:275-287 | a trip without a place is anchored by exactly INIT, ARRIVAL, ONSTOP and DEPARTURE, when the schedule names a station |
| `Discards.TrainLineAfterEvent` | crates/core/src/state.rs:74-96 | a kept train's line is the event's, else its own, else its curve's, or that of the candidate the event matches it to |
| `LiveState.Fleet.Anchor` | crates/core/src/state.rs:275-287 | only a station event on a trip without a real position is placed at the station the schedule names |
| `LiveState.Fleet.PruneStale` | crates/core/src/state.rs:186-197 | a sweep removes exactly the trips silent for longer than the window and names each once |
| `LiveState.KeyedKept` | crates/core/src/state.rs:124-197 | events and sweeps keep slot key, trip id and vehicle key equal |
| `Lifecycle.VehiclesAreIndependent` | crates/core/src/state.rs:124-197 | in every history a vehicle's trip is what its own events and the sweeps make it, whatever other vehicles do |
| `Lifecycle.AlwaysKeyed` | crates/core/src/state.rs:124-197 | in every reachable fleet slot key, trip id and key id agree |
| `Lifecycle.ResetForgets` | crates/core/src/state.rs:128-153 | whatever happened before an INIT, END, journey change or removal is forgotten, for every continuation |
| `Lifecycle.LastLife` | crates/core/src/state.rs:124-197 | every history ends in one life, begun by a reset, that alone determines the trip |
| `Lifecycle.AlwaysHonest` | crates/core/src/state.rs:155-164 | in every reachable state a vehicle not at a stop names no stop, and an unknown delay is zero |
| `Lifecycle.JourneyIsStable` | crates/core/src/state.rs:147-177 | within a life a known journey, and a schedule match once made, never change |
| `Lifecycle.RealFixBeatsAnchor` | crates/core/src/state.rs:264-295 | within a life a trip is at its last real fix if there is one, else at the station last named by an anchor, else nowhere; the anchoring flag is set exactly in the second case |
| `Lifecycle.EveryTripIsAccountedFor` | crates/core/src/state.rs:124-197 | over every history of the whole fleet each trip is the outcome of one life of its own vehicle, in the right place and honest |
| `Gtfs.TrainResolution` | crates/gtfs/src/model.rs:185-200 | a train number resolves exactly when a candidate runs on the given date or the day before, to one running on the returned day, preferring the given date |
| `Gtfs.ResolveTrainTrip` | crates/gtfs/src/model.rs:185-196 | the two-day loop finds what the resolution rule says |
| `Gtfs.ResolveFromTables` | crates/gtfs/src/model.rs:185-200 | with service dates parsed from the two calendar tables a number resolves exactly when the calendar schedules one of its trips on the date or the day before, to such a trip and day |
| `Gtfs.EnrichTrip` | crates/gtfs/src/model.rs:237-291 | matching and describing a trip as the enrichment rule says, field by field |
| `Gtfs.EnrichmentOnlyAdds` | crates/gtfs/src/model.rs:237-291 | enrichment never overwrites what a trip already knows, moves nothing, and doing it twice is doing it once |
| `Enrichment.BusIsMatchedByRealtimeId` | crates/gtfs/src/model.rs:161-175 | anything but a train is matched to the trip filed under owner, line and journey in that order, and to none otherwise |
| `Enrichment.TrainIsMatchedByNumber` | crates/gtfs/src/model.rs:339-366 | a train is matched to a candidate running on its day, else on the day before, which gives line, day and public line where unknown |
| `Enrichment.EmptyFieldsAreFilled` | crates/gtfs/src/model.rs:237-291 | each schedule field still empty then holds the named column of the trip, its route or the route's agency |
| `Enrichment.NothingLeftToAdd` | crates/core/src/state.rs:128-178 | after every event that leaves a trip without a public line, and after INIT, the feed has nothing more to add to it |
| `Enrichment.AnchoredAtNearestCall` | crates/gtfs/src/model.rs:304-328 | the anchor is the stop of the first call nearest the fix time less the known delay, exactly when at most 90 s off and in the feed |
| `Enrichment.NoAnchorWithoutSchedule` | crates/gtfs/src/model.rs:304-309 | without match, calls, readable day or midnight there is no anchor |
| `Gtfs.BestCallIsFirstMinimum` | crates/gtfs/src/model.rs:304-328 | the chosen call is the first with the least delay-corrected residual |
| `Gtfs.FindScheduledPosition` | crates/gtfs/src/model.rs:304-328 | the scan for a scheduled position returns what the rule says, including every reason for none |
| `Gtfs.AnchorNamesNearestCall` | crates/gtfs/src/model.rs:304-328 | a trip is anchored at the stop of its first nearest call, at most 90 s off; it is not anchored when that call is further off or its stop unknown |
| `VehicleIndexes.BuildIndex` | crates/core/src/state.rs:200-233 | the snapshot holds exactly the positioned trips, by id |
| `Wire.PublishedIff` | crates/core/src/state.rs:200-207 | published are exactly the trips with both coordinates |
| `VehicleIndexes.VehicleIndex.Get` | crates/core/src/state.rs:352-355 | an id finds its trip or nothing |
| `VehicleIndexes.VehicleIndex.Query` | crates/core/src/state.rs:374-381 | a query returns each trip in the box that passes the filters, once, and no other |
| `Wire.EnvelopeIsTheBox` | crates/core/src/state.rs:374-381 | corners may come in any order and bound what is inside, edges included |
| `Wire.HitIff` | crates/core/src/state.rs:374-381 | a trip is hit exactly when it lies in the box and passes the filters |
| `Wire.FiltersConjoin` | crates/core/src/filter.rs:29-59 | a filter is the conjunction of its three parts, an empty one passing everything |
| `Wire.FiltersPass` | crates/core/src/filter.rs:29-59 | modes when listed, owners when listed in either case, search text when one of five fields contains it in either case |
| `StreamServer.Subscription.BuildUpdate` | crates/api/src/ws.rs:161-237 | a tick sends nothing exactly when nothing visible changed; else a frame that enters, moves and removes each vehicle once, as the record demands, and the record becomes what was sent |
| `Wire.MovedIff` | crates/api/src/ws.rs:52-63 | in every run a frame moves exactly the visible vehicles on record that are more than 0.000001 off on an axis or differ in delay, at-stop or speed rounded to whole km/h |
| `Wire.SilentIff` | crates/api/src/ws.rs:224-226 | in every run a tick says nothing exactly when no snapshot is owed, the visible vehicles are those on record, and none differs so |
| `Wire.RoundIsNearest` | crates/api/src/ws.rs:62 | rounding goes to a nearest integer, halves away from zero |
| `Wire.FramesDescribe` | crates/api/src/convert.rs:29-69 | in every run entered vehicles give every field of their trip and moved ones its position, speed, delay and stop |
| `StreamServer.Subscription.ShowHits` | crates/api/src/ws.rs:169-183 | every hit is entered, moved or left alone by comparison with the value last sent |
| `StreamServer.Subscription.ShowPinned` | crates/api/src/ws.rs:189-208 | pinned ids in the index are shown too, none twice, even when pinned twice |
| `StreamServer.ApplyClientMsg` | crates/api/src/ws.rs:133-159 | subscribe starts afresh with a forced snapshot, an update changes only view and pins, a ping is answered, malformed messages change nothing |
| `Wire.UpdateKeepsRecord` | crates/api/src/ws.rs:147-156 | a view update changes box, filters and pins and leaves the record and an owed snapshot alone |
| `Wire.SubscribeStartsAfresh` | crates/api/src/ws.rs:135-146 | a subscription starts from nothing sent and owes a snapshot; other messages change nothing |
| `VehicleStores.VehicleStore.Apply` | apps/mobile/lib/vehicleStore.ts:26-56 | replays a frame on the vehicles, keeps the drawn features coherent with them, and reports selected vehicles back and gone in order |
| `VehicleStores.BackExactly` | apps/mobile/lib/vehicleStore.ts:31-35 | exactly the selected vehicles a frame enters are reported back, once each |
| `VehicleStores.VehicleStore.ScheduleFlush` | apps/mobile/lib/vehicleStore.ts:68-75 | at most one flush is pending and none is due sooner than the floor after the last |
| `VehicleStores.VehicleStore.Flush` | apps/mobile/lib/vehicleStore.ts:77-81 | draws everything applied so far, at least 250 ms after the previous flush |
| `VehicleStores.SetAllIs` | apps/mobile/lib/vehicleStore.ts:31-35 | entering distinct vehicles states each and leaves the others alone |
| `VehicleStores.MoveAllIs` | apps/mobile/lib/vehicleStore.ts:36-43 | moving distinct vehicles patches those present, adds none and leaves the others alone |
| `LiveClients.LiveClient.Connect` | packages/api-types/src/ws.ts:95-105 | stores the view and opens a socket |
| `LiveClients.LiveClient.OnOpen` | packages/api-types/src/ws.ts:107-118 | an opened socket resets the backoff, arms the watchdog and subscribes with the view at that moment |
| `LiveClients.LiveClient.OnClose` | packages/api-types/src/ws.ts:133-143 | only the current socket's close schedules a retry, doubling the backoff up to its cap |
| `LiveClients.FailuresDoubleTheWait` | packages/api-types/src/ws.ts:133-143 | after n failures in a row the next wait is 500 ms doubled n times, at most 30 s, with a retry pending; an opened socket starts over |
| `LiveClients.LiveClient.Update` | packages/api-types/src/ws.ts:165-187 | stores the view and sends it if the current socket is open |
| `LiveClients.LiveClient.SetPinned` | packages/api-types/src/ws.ts:174-187 | stores the pins and sends them if the current socket is open |
| `LiveClients.LiveClient.Suspend` | packages/api-types/src/ws.ts:194-203 | drops socket, retry and watchdog, keeping view and pins |
| `LiveClients.SuspendedIsIdle` | packages/api-types/src/ws.ts:194-203 | suspending leaves no socket, retry or watchdog that would act later |
| `LiveClients.LiveClient.Resume` | packages/api-types/src/ws.ts:210-215 | reopens only without a socket and with a view |
| `LiveClients.ResumesAsSuspended` | packages/api-types/src/ws.ts:194-215 | suspending and resuming keeps view and pins and starts with the shortest wait and no retry pending |
| `LiveClients.LiveClient.OnIdle` | packages/api-types/src/ws.ts:147-157 | probes an open current socket and waits for it alone |
| `LiveClients.IdleEndsInPing` | packages/api-types/src/ws.ts:147-157 | an idle period ends in a ping on an open current socket and a wait that closes that one only |
| `Watchdog.DisarmedIff` | packages/api-types/src/ws.ts:107-162 | in every reachable state a step that leaves the current socket open disarms an armed watchdog exactly when it is an older socket's close |
| `Watchdog.ArmedIff` | packages/api-types/src/ws.ts:107-162 | one that is off is armed by exactly two steps: a socket opening and a message arriving |
| `Watchdog.NeverArmedUnwatched` | packages/api-types/src/ws.ts:147-150 | a client without a heartbeat period never arms a watchdog, in any run |
| `Watchdog.WatchdogOffIff` | packages/api-types/src/ws.ts:107-162 | over every run in which a socket stays open, a watchdog once armed is off exactly when an older socket has closed since and no message arrived after that |
| `Scenarios.LateCloseLeavesUnwatched` | packages/api-types/src/ws.ts:133-137 | a run (suspend, resume, open, late close) ends with an open current socket nothing watches |
| `Replication.FrameMirrors` | crates/api/src/ws.rs:161-237 | a frame takes a replica of the record it was made from to a replica of the record it leaves |
| `Replication.FrameValues` | apps/mobile/lib/vehicleStore.ts:26-56 | after a frame each visible vehicle is the full state if it entered, the old one patched if it moved, and otherwise untouched |
| `Replication.QuietKeeps` | crates/api/src/ws.rs:224-226 | a tick that sends nothing leaves the record as it was |
| `Replication.KeepsOneConnection` | packages/api-types/src/ws.ts:95-145 | every step keeps at most one live socket, the current one, never beside a pending retry |
| `Replication.KeepsInSync` | packages/api-types/src/ws.ts:107-187 | every step keeps what is in flight to the open connection ending in the client's latest view |
| `Replication.KeepsServerOk` | crates/api/src/ws.rs:161-237 | every step keeps each connection's record equal to what its last tick made visible, within the re-send threshold |
| `Replication.KeepsReplicaOk` | apps/mobile/lib/vehicleStore.ts:26-56 | every step keeps the frames in flight fitting the replica, which ends up mirroring the record |
| `Replication.Inductive` | crates/api/src/ws.rs:87-237 | the whole invariant survives every step of server, socket and client in any interleaving |
| `Convergence.RunsKeepInv` | crates/api/src/ws.rs:87-237 | the invariant holds in every state of every run |
| `Convergence.OneLiveSocket` | packages/api-types/src/ws.ts:95-145 | in every run at most one socket is connecting or open, none beside a pending retry, none while suspended, and the backoff stays in 500..30000 ms |
| `Convergence.ConnectAgain` | packages/api-types/src/ws.ts:95-105 | a second `connect` keeps that property exactly when there is no current socket or it is already closing |
| `Scenarios.ConnectTwice` | packages/api-types/src/ws.ts:95-105 | a run after which `connect` leaves two live sockets |
| `Scenarios.ConnectDuringRetry` | packages/api-types/src/ws.ts:95-143 | a run after which `connect` leaves a live socket beside a pending retry |
| `Convergence.SubscriptionInSync` | crates/api/src/ws.rs:133-159 | in every run, once the channel drains, the server's box, filters and pins are the client's latest |
| `Convergence.ReplicaConverges` | crates/api/src/ws.rs:161-237 | in every run, with all frames delivered after a snapshot, the client's ids are the record's, which are the last tick's visible ones, and every vehicle is within 1e-6 per axis with equal delay, at-stop and rounded speed however many small moves happened |
| `Convergence.DeliveriesFit` | crates/api/src/ws.rs:161-237 | in every run a frame's lists are free of duplicates and disjoint, it moves and removes only vehicles the client has and enters only ones it lacks, and a snapshot only enters |
| `Convergence.OneTickCatchesUp` | crates/api/src/ws.rs:97-129 | from any reachable state one drained round trip and one tick show exactly the indexed vehicles in the latest view or pinned |
| `Convergence.TickIsNeverBlocked` | crates/api/src/ws.rs:161-237 | for every index and subscription some frame, or silence, is what a tick owes |
| `Convergence.CatchingUpIsPossible` | crates/api/src/ws.rs:97-129 | so in every reachable state with an open connection that tick can be taken |
| `Convergence.GoneExactly` | apps/mobile/lib/vehicleStore.ts:44-54 | a frame reports gone exactly the selected vehicles it takes off the map and, for a snapshot, those it lacks; each once |
| `Convergence.EndedMeansEnded` | crates/api/src/ws.rs:189-219 | in every run, with the selection pinned in the subscription behind a frame, a vehicle is reported gone only if the published index lacks it, and every selected vehicle taken off is reported |
| `Convergence.DeliveryShows` | crates/api/src/ws.rs:161-237 | in every run a delivered frame leaves on the map exactly what its tick made visible |
| `Convergence.PrematurelyGone` | crates/api/src/ws.rs:189-219 | in every run and for every frame, snapshots included, a selected vehicle the index still has is reported gone exactly when the subscription neither pins nor hits it and the map had it or the frame is a snapshot |
| `Scenarios.GoneWhileRunning` | apps/mobile/lib/vehicleStore.ts:48-54 | a run in which a snapshot reports a selected, unpinned vehicle gone while the index has it |
| `Currency.TickLeaves` | crates/api/src/ws.rs:161-237 | in every run any tick, silent or not, leaves each vehicle it makes visible entered, patched, or as the client would have shown it anyway, once everything in flight has arrived |
| `Currency.DelayKnownIsCurrentIff` | crates/api/src/ws.rs:52-74 | in every run, after any tick, silent or not, whether a delay is known is shown current exactly when the tick enters or re-sends the vehicle or it was current already |
| `Currency.EnteredFieldsAreCurrentIff` | apps/mobile/lib/vehicleStore.ts:36-43 | likewise bearing, current stop, anchoring flag and schedule data, but only entering renews them |
| `Currency.DelayKnownAfterFrame` | apps/mobile/lib/vehicleStore.ts:36-43 | the same of a delay being known, at the moment a frame is delivered |
| `Currency.RecordedFieldsAfter` | crates/api/src/ws.rs:169-183 | position, delay, at-stop and speed after a frame are the indexed trip's when it enters or re-sends the vehicle, and otherwise unchanged |
| `Currency.UnrecordedChangesAreSilent` | crates/api/src/ws.rs:52-74 | ticks that differ only in what the record does not hold send nothing |
| `Scenarios.KnownDelayShownUnknown` | crates/api/src/ws.rs:52-74 | a run ends with every frame delivered, a delay known to be zero in the index, and the client showing it as unknown |
| `Currency.MovesKeepEntered` | apps/mobile/lib/vehicleStore.ts:31-43 | in every run, from one entry of a vehicle to the next while it stays on the map, its bearing, stop, anchoring flag and schedule data stay as entered |
| `StopGrid.BuildGrid` | crates/gtfs/src/stops.rs:89-103 | the grid lists every quay once and files each positioned one in exactly its cell |
| `StopGrid.CellInWindow` | crates/gtfs/src/stops.rs:35-37 | a stop in a box lies in one of the cells the box spans, saturation included |
| `StopGrid.CellHits` | crates/gtfs/src/stops.rs:141-157 | a cell contributes exactly its quays that lie in the box, once each |
| `StopGrid.InBBox` | crates/gtfs/src/stops.rs:132-161 | the grid query returns, without duplicates and nearest first, the nearest `limit` of exactly the positioned quays in the box; none left out is nearer than one returned |
| `StopGrid.PoolMeans` | crates/gtfs/src/stops.rs:89-103 | the pool is the stops that are neither station nor stop area, positioned, and in the box, edges included |
| `StopGrid.DistanceIsPlanar` | crates/gtfs/src/stops.rs:150-152 | the distance is that of a plane around the box centre with scaled longitudes |
| `StopGrid.AreaIgnoresCorners` | crates/api/src/rest.rs:339 | the area limit does not depend on which corners are given |
| `StopGrid.StopsInViewport` | crates/api/src/rest.rs:330-358 | a missing or oversized box is a bad request, a missing index unavailable, and anything else is answered with the nearest quays, flagged truncated exactly when the box holds at least `limit` of them |
| `StopGrid.UntruncatedIsComplete` | crates/api/src/rest.rs:354-357 | an untruncated answer is the whole box |
| `StopLayers.PanStaysCovered` | apps/mobile/lib/geo.ts:10-25 | a padded box covers a same-size view exactly when it was panned by at most the padding on each axis |
| `StopLayers.StopLayer.Load` | apps/mobile/components/map/LiveMap.tsx:228-237 | asks for the padded box, aborting the previous request, unless hidden, zoomed out or covered |
| `StopLayers.StopLayer.Take` | apps/mobile/components/map/LiveMap.tsx:238-243 | an answer replaces the drawn stops and the coverage together; a truncated one covers nothing |
| `StopLayers.RunKeeps` | apps/mobile/components/map/LiveMap.tsx:228-249 | over every run the covered box is fully drawn and only the latest request is not aborted |
| `StopLayers.SuppressedViewIsComplete` | apps/mobile/components/map/LiveMap.tsx:228-249 | over every run of moves, late, truncated or failed answers and aborts, whenever a request is suppressed the drawn stops in the view are exactly the feed's quays there |
| `StopLayers.MoveAsks` | apps/mobile/components/map/LiveMap.tsx:228-237 | a move that is not suppressed asks for a box covering its view and leaves exactly that request un-aborted |
| `DepartureBoard.BuildBoard` | crates/gtfs/src/stops.rs:270-316 | for trips in any order, each stop's list holds exactly its kept calls, with multiplicity, by departure |
| `BoardCalls.CallsAreRows` | crates/gtfs/src/stops.rs:277-311 | the scan holds each call as often as the feed has rows that are it: as written and flagged today for a trip of the date, 86400 s earlier and unflagged for a trip of the day before only |
| `BoardCalls.CallIffRow` | crates/gtfs/src/stops.rs:277-311 | so a call is in it exactly when some row is it |
| `BoardCalls.DailyTripIsOnTheBoard` | crates/gtfs/src/stops.rs:280-286 | a trip of the date stands on the board at its own times whether or not it ran the day before |
| `DepartureBoard.AddTrip` | crates/gtfs/src/stops.rs:277-311 | one trip adds its rows at the right shift to their stops and nothing else |
| `DepartureBoard.PartitionPoint` | crates/gtfs/src/stops.rs:258 | binary search splits a list at the first departure not before the start |
| `DepartureBoard.Departures` | crates/gtfs/src/stops.rs:242-265 | the first `limit` kept calls of the window in departure order, described from the feed; saturation never matters |
| `DepartureBoard.ListingSays` | crates/gtfs/src/stops.rs:227-239 | a listing gives the trip's row, its route's if known, and the call's times |
| `DepartureBoard.BoardIsComplete` | crates/gtfs/src/stops.rs:296-299 | from -21600 on the board's window is a scan of today's trips and yesterday's that do not run today |
| `DepartureBoard.BoardIsCompleteIff` | crates/gtfs/src/stops.rs:296-299 | for any start it is exactly when no carried-over call of the window departs before the cut |
| `DepartureBoard.EarlyWindowFails` | crates/gtfs/src/stops.rs:296-299 | a concrete feed, date and window where the board misses a call |
| `DepartureBoard.UnionOfDatesIff` | crates/gtfs/src/stops.rs:280-286 | the scan equals the union of both service dates exactly when no trip calls at the stop on both |
| `DepartureBoard.UnionOfDatesFails` | crates/gtfs/src/stops.rs:280-286 | a concrete feed whose board is not that union |
| `DepartureBoard.CallsOnServiceDate` | crates/gtfs/src/stops.rs:212-225 | exactly today's calls at the stop, with multiplicity, by arrival |
| `DepartureBoard.StopDepartures` | crates/api/src/rest.rs:419-436 | the endpoint lists the first `limit` calls due over the whole feed from a minute ago to the window's end, for every time of day and window asked |
| `StopSearch.KeysOrdered` | crates/gtfs/src/stops.rs:185-203 | (not a prefix match, name, id) is a total order |
| `StopSearch.TextLeIsDictionary` | crates/gtfs/src/stops.rs:190-203 | text compares as in a dictionary, by the first difference |
| `StopSearch.PrecedingMeans` | crates/gtfs/src/stops.rs:190-192 | names beginning with the query precede those only containing it, then the dictionary decides |
| `StopSearch.FoundIsOrdered` | crates/gtfs/src/stops.rs:195-204 | so is an answer ordered, quays of one name by id |
| `StopSearch.PickNames` | crates/gtfs/src/stops.rs:173-192 | the kept names are exactly the distinct matching ones with fewer than `name_limit` matching names before them |
| `StopSearch.Search` | crates/gtfs/src/stops.rs:167-205 | every quay with a kept name, once, in order; nothing for a blank query |
| `StopSearch.GroupByName` | crates/api/src/legacy.rs:886-901 | one group per name holding its hits in order; flattening gives the hits back when equal names stand together |
| `StopSearch.SearchIsContiguous` | crates/gtfs/src/stops.rs:195-204 | in a search answer equal names stand together |
| `StopSearch.StopsSearch` | crates/api/src/legacy.rs:872-904 | the endpoint's groups, flattened, are the search answer |
| `Kv6.Builder.Set` | crates/realtime/src/kv6.rs:51-80 | a leaf sets its field; blank text changes nothing, an unreadable number clears, the block keeps its first value |
| `Kv6.Builder.Build` | crates/realtime/src/kv6.rs:82-116 | the event of a reading, or none without a usable key |
| `Kv6.ParseKv6` | crates/realtime/src/kv6.rs:120-169 | the token loop computes the machine's run |
| `Kv6.EveryEventIsSane` | crates/realtime/src/kv6.rs:82-169 | on any token stream at all every event has a non-blank key, no vehicle 0, positive coordinates or none |
| `Kv6.CutShort` | crates/realtime/src/kv6.rs:164 | a syntax error loses only the events after it |
| `Kv6.ParseSplits` | crates/realtime/src/kv6.rs:120-169 | decoding distributes over concatenation wherever no record is open |
| `Kv6.DocParses` | crates/realtime/src/kv6.rs:120-169 | a document decodes record by record in order; an unbuildable record vanishes without touching its neighbours, whatever stands between records |
| `Kv6.BuildableIff` | crates/realtime/src/kv6.rs:82-91 | a record gives an event exactly when it names an owner and a vehicle other than 0 |
| `Kv6.ReadingMeans` | crates/realtime/src/kv6.rs:51-80 | each field of a reading is the last non-blank mention, the block the first |
| `Kv6.NamesMean` | crates/realtime/src/kv6.rs:13-79 | the element names that count, both block names included |
| `Kv6.RecordSays` | crates/realtime/src/kv6.rs:51-116 | the event of a record field by field, coordinates only if positive, the time as read or else that of decoding |
| `Kv6.DecodeUndoesRender` | crates/realtime/src/kv6.rs:51-169 | rendering any list of events a record can carry, with any writer that preserves the numbers and times in them, and decoding gives the list back |
| `Kv6.RoundTripsExist` | crates/realtime/src/kv6.rs:51-116 | there are such writers and events, with every number present |
| `NsPositions.Part.Set` | crates/realtime/src/ns.rs:74-93 | a leaf sets its field; blank text changes nothing, unreadable text clears |
| `NsPositions.ParseNsTreinposities` | crates/realtime/src/ns.rs:111-182 | the token loop computes the machine's run |
| `NsPositions.EveryFixIsAccepted` | crates/realtime/src/ns.rs:95-182 | on any token stream every event is an in-country fix dated within the gate, keyed by its train number |
| `NsPositions.BestLeads` | crates/realtime/src/ns.rs:153-167 | the kept part is the first usable one of least consist order, a missing order counting as greatest; none exactly when no part is usable |
| `NsPositions.TrainEvent` | crates/realtime/src/ns.rs:170-174 | a train gives one event, of its leading part, exactly when it has a number and a usable part |
| `NsPositions.UsableIff` | crates/realtime/src/ns.rs:95-104 | a part is usable exactly with coordinates in the country and a time within the window |
| `NsPositions.PartSays` | crates/realtime/src/ns.rs:74-93 | each field of a part is what its leaves last said, if readable |
| `NsPositions.FixSays` | crates/realtime/src/ns.rs:184-223 | a train's event gives a part's place, speed and time, its course only while moving, and nothing else |
| `NsPositions.SnapshotDecodes` | crates/realtime/src/ns.rs:111-182 | a snapshot decodes train by train in document order, whatever stands between trains |
| `Freshness.TripLivesUntil` | crates/core/src/state.rs:124-197 | after its last event a trip stays unchanged until the first sweep later than the event's time plus the window, and is then gone |
| `Freshness.NoFlicker` | crates/realtime/src/ns.rs:95-104 | a fix decoded at `now` survives every sweep up to `now + (staleAfter - maxAge)` |
| `Freshness.NoGhost` | crates/realtime/src/ns.rs:95-104 | without a later event it is gone after any sweep later than `now + 60 s + staleAfter` |
| `Freshness.LateFixDecodes` | crates/realtime/src/ns.rs:95-182 | a snapshot from which the decoder emits a fix exactly as old as the gate allows |
| `Freshness.LateGateFlickers` | crates/realtime/src/ns.rs:95-104 | with a fix-age limit above the window, a decoded fix is swept at the moment it arrives |
| `Freshness.GateIsSafeIff` | crates/core/src/state.rs:186-197 | no decoded fix is swept at the moment it arrives exactly when the limit is within the window |
| `RitInfo.PointIsExact` | crates/realtime/src/ns_rit.rs:62-71 | the delay is actual minus planned, to the second, wherever the 32-bit cast does not wrap |
| `RitInfo.ParseNsRit` | crates/realtime/src/ns_rit.rs:75-161 | the token loop computes the machine's run; no number, no update |
| `RitInfo.DocumentDecodes` | crates/realtime/src/ns_rit.rs:75-161 | a document decodes to its first number and day, its last line code, and a point per station with a planned and an actual time, departure preferred, the first time of each kind kept |
| `RitInfo.BlockPoint` | crates/realtime/src/ns_rit.rs:62-71 | a station's point is at the actual departure with the delay there if it has both departure times, else at the actual arrival likewise, else there is none |
| `RitInfo.AttributesRead` | crates/realtime/src/ns_rit.rs:96-108 | which attributes mark a time as actual and give the line code |
| `RitInfo.DelayEndToEnd` | crates/realtime/src/ns_rit.rs:75-161 | from document to delay: unknown exactly when no station has both times, else that of the station expected next, or of the last |
| `RitInfo.BlockOrderIsIrrelevant` | crates/realtime/src/ns_rit.rs:145-152 | with distinct instants the order of the station blocks does not matter |
| `TrainDelays.AtAnswers` | crates/core/src/trains.rs:67-74 | reading the sorted curve gives the earliest point not before now, the first listed among equals, else the latest, the last listed among equals |
| `TrainDelays.AtIsKnown` | crates/core/src/trains.rs:67-74 | the delay is unknown only for an empty curve |
| `TrainDelays.ChosenMovesForward` | crates/core/src/trains.rs:67-74 | as time passes the curve is only read further along |
| `TrainDelays.CurveIsStable` | crates/core/src/trains.rs:105-117 | sorting keeps the listed order of points at one instant |
| `TrainDelays.AtIgnoresListing` | crates/core/src/trains.rs:67-74 | with distinct instants the answer does not depend on the listing |
| `TrainDelays.LastRevisionStands` | crates/core/src/trains.rs:105-128 | after every history of revisions and sweeps a train has a curve exactly when its last revision still stands, and it is that revision's alone |
| `TrainDelays.StandingDelay` | crates/core/src/trains.rs:63-128 | the delay shown is that of the answering point of the last standing revision, in whatever order it lists its stations |
| `TrainDelays.Delays.Prune` | crates/core/src/trains.rs:124-128 | exactly the curves not revised since the cutoff go, and are counted |
| `Punctuality.EventShowsDelay` | crates/core/src/state.rs:74-96 | after an event of a train with a curve its delay is that of the point answering at the event's time; an empty curve changes nothing |
| `Punctuality.DelayReachesFleet` | crates/core/src/trains.rs:63-117 | in every history a decoded fix of a train whose last standing revision was decoded from a journey document leaves its trip with the delay of the station that document expects next |
| `Dates.YmdMonotone` | crates/gtfs/src/parse.rs:310-312 | the YYYYMMDD encoding orders dates as the calendar does and is injective |
| `Dates.OrderAgrees` | crates/gtfs/src/parse.rs:310-312 | calendar order, day count and encoding agree |
| `Dates.WeekdaysRunOn` | crates/gtfs/src/parse.rs:262 | weekdays follow one another from a known Thursday |
| `Dates.YearsCount` | crates/gtfs/src/parse.rs:262-265 | the Gregorian leap rule, counted |
| `Services.ExpandRow` | crates/gtfs/src/parse.rs:224-267 | a weekday row adds exactly its running days within 732 days of its start, and nothing that is not a date |
| `Services.ParseServices` | crates/gtfs/src/parse.rs:224-302 | a service's list holds, ascending, exactly (expanded weekdays and added dates) minus removed dates and no other number; services without dates are absent |
| `Services.ServiceRuns` | crates/gtfs/src/parse.rs:224-312 | from both tables through list and search: a service runs on a number exactly when it encodes a date the calendar schedules |
| `Services.RunsOn` | crates/gtfs/src/model.rs:148-152 | binary search in the ascending list decides membership |
| `PlanFetch.MapScreen.Commit` | apps/mobile/hooks/useMapApp.ts:91-149 | the effects of one render, run on the cells as rendered |
| `PlanFetch.RefetchesAreBounded` | apps/mobile/hooks/useMapApp.ts:147-150 | over every interleaving refetches number at most the changes of the last reported trip id, its first appearance included |
| `PlanFetch.BetweenRefetches` | apps/mobile/hooks/useMapApp.ts:147-150 | two consecutive refetches are for different reported trips |
| `PlanFetch.RequestsAreBounded` | apps/mobile/hooks/useMapApp.ts:126-150 | plan requests number at most the user actions plus those changes, even if plan and poll never agree |
| `PlanFetch.SettledPlanWasAskedFor` | apps/mobile/hooks/useMapApp.ts:126-150 | once settled, a loaded plan answers the latest request, and a plan for another trip than reported was requested for the reported one |
| `PlanFetch.SwitchingClears` | apps/mobile/hooks/useMapApp.ts:91-138 | switching vehicles shows nothing of the last one and asks for the new one's detail and plan |
| `PlanFetch.NoReportNoRefetch` | apps/mobile/hooks/useMapApp.ts:147-150 | a poll reporting no trip never triggers a refetch |

## Left out

- Sockets, ZMQ, HTTP routing, authentication, rate limiting, Postgres, snapshot files and the feed download: input and output.
- XML lexing, protobuf encoding, number and timestamp text: the decoders start from tokens and opaque partial parsers; protobuf conversion is the identity.
- The RD projection, bearing, distances, case folding and time zones: opaque functions.
- Rounding: coordinates are reals; an infinite coordinate is not told apart from a large finite one, and a NaN train speed is not modelled.
- Years before 0: dates are the non-negative Gregorian years.
- R-tree and hash-map internals: an inclusive box scan and a map whose order is arbitrary; each `apply` is atomic, as the map's entry lock makes it.
- Looking a vehicle up by its realtime trip id, and the live delay and vehicle columns a departure board gains from it.
- Websocket closing: a socket told to close delivers nothing more, as the WHATWG WebSockets standard has it; status callbacks and the watchdog's timing are not modelled, its firing is a step.
- VehicleStores.VehicleStore.Apply: vehicles are values, so a vehicle object handed to a callback does not change under the caller's hands when a later frame patches it in place.
- StopGrid.InBBox: takes a box with finite corners; ties in distance may come in any order, as the hash map's order is arbitrary.
- StopLayers.SuppressedViewIsComplete: for one feed; after a feed swap the drawn stops are those of the feed that answered, until the view leaves the box.
- DepartureBoard.StopDepartures: the index is taken to be for today's date; between midnight and the rebuild it is yesterday's.
- PlanFetch.RequestsAreBounded: renders may be delayed and batched at will, but an effect always sees one consistent render.
- TripFields.JourneyOverLife: says nothing of a train's line code, which its match replaces when it is made; `Discards.TrainLineAfterEvent` gives it event by event.
- The tabs, replacement offers, search box and departure polling of the map screen, `search_rank`, time formatting and the rest of the deprecated endpoints: easy members only.
