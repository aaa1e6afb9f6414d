# Proofs about GWRADAR

GWRADAR takes position messages of players over web sockets, passes them on through Kafka, and a
tracking relay broadcasts them to the viewers of the map and keeps the state of the players in
Redis. This project models the parts of it where many things happen at once or where arithmetic
decides, and proves what they keep.

`dafny verify dfyconfig.toml` checks everything.

## What is modelled

**The tracking relay** (`Relay`, `RelayService`, `Positions`, `HashStore`). One run of the message
handler is a process. It runs one synchronous segment at a time and then waits for one remote
command, so its state is the place where it waits, the message, the name it captured at the start,
and the reply. Any process may go next, several messages of one connection may be in flight, and
the upgrades and closes of the ground station and the clock run beside them. The relay has one
client each for its connection store, its user store, its trail tracker and its transmitter
(apps/tracking-relay/src/index.ts:52-59); commands of one client take effect in issue order, those
of different clients in any order. `Relay` holds the steps as functions:

- `Receive`: apps/tracking-relay/src/index.ts:79-116, up to the first command. `Admit`: 97-108.
  `StartBroadcast`: 117-136. `CheckAndWrite`: 141-167. `Resume`: the segment after each await, 97-173.
- `Deliver`, `Effect`: what the commands do at the store, connection.ts:47-104, user.ts:25-39 and
  trail.ts:35-69. A write of one field is followed by a persist of that field, and a write of
  several by a persist of the key, as separate commands (hkv-store.ts:52-72).
- `UpgradeWrite`, `UpgradeNext`: server.ts:100-112. `CloseRead`, `CloseNext`: 187-196.
  `ShutdownRead`, `CloseNext`: 56-74, for one connection.

`RelayService` has the same steps as a class that updates its fields in place; every method is
proved to be its step, and the object is always the result of a run.

- `RelayAuthority`, `RelayClaims`, `RelayAgreement`, `RelayCount`, `RelayPending` and `RelayTrails`
  hold in every interleaving.
- `RelayGhosts` holds as long as each arriving message fits: no handler of its connection that can
  still write a name stands beside one that may be granted another. Messages that do not switch may
  overlap freely, and so may those that name a character which the token does not list, and all
  messages of different connections.
- `RelayOverlap` shows that this condition is exact: after a message that does not fit, the relay
  can end up with a live position that is nobody's. `RelayWitness` is one such run step by
  step. The relay subscribes through an adapter that does not wait for a handler to end
  (node-rdkafka-adapter.ts:73-85); the other adapter does (kafkajs-adapter.ts:57-72).
- `RelayCloses` says exactly when a close holds.
- `RelayUndisturbed` is the other side of the invariants, which a relay that did nothing would not
  meet: what a whole message, upgrade or close achieves when nothing disturbs it.
- `RelayPaths` and `RelayDrain` say what can be reached from a state: everything in flight can be
  brought to an end by the relay's own steps.

**Trails** (`TrailHistory`, `TrailAgreement`, `TrailTracker`). A trail is a sorted sequence per
character, with insertion, trimming by rank, trimming by age and expiry of the whole key. The
specification is the batch view of the whole history: the last visit to each coordinate, those
within the window, and of these the newest by time and then by packed bytes. The two agree under a
condition on the configuration alone, and the condition is proved exact.

**Elevation** (`ElevationStore`, `Elevation`, `ElevationCausality`, `ElevationResults`,
`ElevationCompleteness`, `ElevationProcess`, `ElevationService`). Challenge, solve and authenticate
calls are processes with one step per remote command; reading and unlinking a challenge are two
steps; time passes and the API keys behind the tokens change at any point. The log of events carries
the causes. `ElevationProcess` has these steps as a class that updates its fields in place, and
`ElevationService` the two calls that change the challenge store as they run without interruption.

**Grid and codecs** (`Coordinates`, `Decimals`, `RoomNames`, `Rooms`, and `Broadcasts`, which ties the
channel that the relay publishes on to the rooms that a viewer's search returns), **ids** (`IdGenerator`) and the
**allowed names** that travel as comma-separated text (`AllowedNames`).

## What is taken for granted

- Numbers are mathematical integers and exact reals; `Math.round(v)` is the floor of v + 1/2. Grid
  sizes are positive integers.
- For the agreement of a trail with the batch view, the timestamps of one character's points do not
  decrease; the relay's calls are shown to see to this. The configuration keeps at least one point
  per trail. The store's clock is the relay's, and a call's commands take effect at its timestamp.
- Whether a trail key is gone at the very millisecond of its deadline is left open; the results
  hold, and the exact condition is stated, for both readings.
- A connection id and the list of characters come from one signed token, so that every upgrade of a
  connection brings the same list (authenticationService.ts:123-131, server.ts:92-107).
- Remote commands do not fail. A time to live for connections, where configured, is positive.
- A signature is a term that only the service can make, and digests are equal exactly when their
  texts are: HKDF (section 2 of RFC 5869), HMAC (section 2 of RFC 2104) and SHA-256 are ideal.
  Challenge ids are new each time.
- A random source is an arbitrary stream of bytes in which an acceptable byte always comes again.
- The limits of a geospatial index are those that Redis documents for GEOADD.

## Where the code and its comments differ

- id.ts:4-6 and 27-29 describe ids of three letters, four digits and three letters. The code draws
  four letters, four digits and four letters, and formats them as 4-4-4; so does the model.
- packages/contracts/src/api-gateway/elevation.ts:9-15 describes a signed JWT and an HKDF info that
  holds the subtoken. The code keeps challenges in a store under a random id, uses a constant info,
  and signs the token id under a key derived from the account; so does the model.
- The empty character name passes the test at index.ts:113 and is broadcast as "null". The results
  on labels name this case, and `RelayAuthority.NamelessIsBroadcast` shows it; the guard at
  index.ts:141 keeps it out of the user store.

## Model

| member | source | states |
|---|---|---|
| RelayGhosts.LiveNamesHaveHolders | apps/tracking-relay/src/index.ts:94-112 | A message fits if it and no handler of its connection conflict: one that can still write a name, and one that asks for another name which the token lists; a name that a connection without another holds is exempt. After every run in which each arriving message fits, a live position is the current character of some connection or the previous name of a handler that has switched and whose removal has not taken effect. |
| RelayGhosts.LastingUsersHaveHolders | apps/tracking-relay/src/index.ts:141-172 | In the same runs, a user record without expiry belongs to the current character of some connection or to the previous name of a handler that has switched and whose keepAlive has not taken effect. |
| RelayGhosts.QuietRelayHasNoGhosts | apps/tracking-relay/src/index.ts:94-112 | Once no handler is left, whoever is live or lasts is the cached name of a connection, and the stored current character of that connection is that name unless the record was deleted or has expired. |
| RelayGhosts.Step | apps/tracking-relay/src/index.ts:79-173 | Every step of relay, stores, ground station and clock, with arrivals that fit, keeps the invariant behind the two results: no conflict in flight, each issued point owned or removed after it, no ghost. |
| RelayGhosts.HandlerSwitches | apps/tracking-relay/src/index.ts:94-108 | A switch hands the old name from its owning connection to the switching handler, so that nobody loses a holder. |
| RelayGhosts.RunKeepsGhostInv | apps/tracking-relay/src/index.ts:79-173 | The invariant holds after every run whose messages fit, by induction over its steps. |
| RelayGhosts.OrdinaryFits | apps/tracking-relay/src/index.ts:113-118 | A message that does not switch fits whatever else of its connection is in flight, as long as no switch awaits permission. |
| RelayGhosts.UnlistedFits | apps/tracking-relay/src/index.ts:97-106 | A message that names a character which its connection's token does not list fits, whatever else is in flight. |
| RelayOverlap.ArrivalExactly | packages/adapters/kafka-adapter/src/node-rdkafka-adapter.ts:73-85 | After every run whose messages fit, an arriving message keeps all that can follow with fitting messages free of ghosts, in positions and users, if and only if it fits; if it does not, the relay can end up with a live position that is no connection's current character and with nothing under way but questions for permission. |
| RelayOverlap.ArrivalExactlyAlone | packages/adapters/kafka-adapter/src/node-rdkafka-adapter.ts:73-85 | Where the stored lists hold what the tokens say and no other connection has or asks for the names, an arriving message fits if and only if the relay's own steps cannot bring it to rest with such a position. |
| RelayOverlap.MisfitHauntsAlone | apps/tracking-relay/src/index.ts:94-168 | After a message that does not fit, under those two conditions, the relay's own steps lead there: no upgrade and no further message is needed. |
| RelayOverlap.ConflictHaunts | apps/tracking-relay/src/index.ts:94-168 | From any state with a conflict over a name that no connection holds for good, such a position can be reached. |
| RelayWitness.OverlapLeavesGhost | packages/adapters/kafka-adapter/src/node-rdkafka-adapter.ts:73-85 | One run step by step, in which every client executes in issue order and answers are handled in the order of a client's replies: the first message's point is issued after the second one's removal. |
| RelayCloses.CloseHoldsExactly | apps/ground-station/src/server.ts:190-196 | At the removal step of a close or a shutdown: the name stays away in all that can follow short of a message under it, if and only if no handler in flight under that name can still write it, permission counting only if the token lists it, or has its point issued and pending. |
| RelayCloses.StaysAwayExactly | apps/tracking-relay/src/index.ts:94-172 | The same for any state without the name. |
| RelayCloses.StaysAwayExactlyAlone | apps/tracking-relay/src/index.ts:94-172 | Where the stored lists hold what the tokens say, the relay's own steps can bring the name back if and only if there is such a handler. |
| RelayCloses.CloseIsUndone | apps/ground-station/src/server.ts:187-196 | Each such handler can bring the name back without a message, and by the relay's own steps unless it waits for a list that the record does not hold. |
| RelayPending.Step | apps/tracking-relay/src/index.ts:52-59 | Every step keeps each waiting handler's one command pending on its client, and no other. |
| RelayPending.InTurnIsFirst | packages/adapters/redis-adapter/src/trail.ts:19-27 | A command that may take effect stands behind no other that waits for the same client. |
| RelayPending.ClientsApart | apps/tracking-relay/src/index.ts:52-59 | Which commands share a client: five wait for the connection store, three for the user store, two for the trail tracker, one for the transmitter. |
| RelayDrain.Drive | apps/tracking-relay/src/index.ts:79-173 | From a state with nothing pending, a handler goes on to its end by the relay's own steps: others stay, the cache changes exactly if its switch is admitted, and past its guard it makes its name live. |
| RelayDrain.DrainBut | apps/tracking-relay/src/index.ts:79-173 | All handlers but chosen ones can be brought to their ends this way. |
| RelayDrain.ResumeGoesOn | apps/tracking-relay/src/index.ts:97-173 | Each answer sends the handler on to the next command in the order of its text, or ends it: a refused switch after the list, a name that is not current after the count or the expiry, and the last command. |
| RelayUndisturbed.SwitchesUndisturbed | apps/tracking-relay/src/index.ts:94-168 | From any state with no pending command, a message that names another allowed character, left undisturbed, ends up about to add its point: the name is current in cache and record, the message has been broadcast under it, one more position is counted, the record expires as configured; the user's hash holds the twelve fields, each stated from the message (coordinates, the flag bits 1 and 2, zero or empty text for what it lacks, the time and the connection), and lasts; the old name is not live and its hash has 86400 seconds left; no other record or hash has changed. |
| RelayUndisturbed.SwitchCompletes | apps/tracking-relay/src/index.ts:94-172 | Such a message from its arrival to its end: the cache has switched, the old name is not live, the new one is, and no handler or command is left of it. |
| RelayUndisturbed.StaysUndisturbed | apps/tracking-relay/src/index.ts:113-168 | A message without a switch needs no permission: it is broadcast and counted once, the same twelve fields, each stated from the message, are written under the current name and last, and no other record or hash changes. |
| RelayUndisturbed.RefusedUndisturbed | apps/tracking-relay/src/index.ts:97-106 | A message that names a character the list does not hold is not broadcast and changes neither cache, records, users nor live positions. |
| RelayUndisturbed.IgnoredUndisturbed | apps/tracking-relay/src/index.ts:89-116 | A message without a connection key, or without any name on a connection without a current one, changes nothing. |
| RelayUndisturbed.ElapsesUndisturbed | packages/adapters/redis-adapter/src/hkv-store.ts:79-81 | Time takes away each user and connection hash from its deadline on, not before, and nothing else. |
| RelayUndisturbed.LetGoForADay | apps/tracking-relay/src/index.ts:109-109 | After a switch, the old name's hash is there for less than 86400000 ms and not from then on. |
| RelayUndisturbed.Completes | apps/tracking-relay/src/index.ts:168-172 | The last command makes the name live and ends the handler. |
| RelayUndisturbed.UpgradesUndisturbed | apps/ground-station/src/server.ts:102-122 | An upgrade of an open socket records the names and the level of its token, without expiry, and keeps the current character and the count that the record held. |
| RelayUndisturbed.AbortsUndisturbed | apps/ground-station/src/server.ts:102-112 | An upgrade of an aborted socket leaves no record and changes no other. |
| RelayUndisturbed.ClosesUndisturbed | apps/ground-station/src/server.ts:187-196 | A close takes the current character, if there is one, off the live positions and gives its user hash 3600 seconds; it gives the connection record the same, and changes nothing else. |
| RelayUndisturbed.ShutsDownUndisturbed | apps/ground-station/src/server.ts:56-74 | A shutdown leaves the same of a connection, with the record expiring first and either of the other two commands next. |
| RelayUndisturbed.CloseInOrder | apps/ground-station/src/server.ts:190-196 | The order of a close: the position goes, then the user's hash gets its 3600 seconds, then the record. |
| RelayUndisturbed.ShutdownInOrder | apps/ground-station/src/server.ts:56-74 | The order of a shutdown: the record first, then either of the other two. |
| RelayClaims.CachedNamesAreListed | apps/ground-station/src/server.ts:92-107 | In every interleaving, a cached name is one that the connection's own token lists. |
| RelayClaims.Step | packages/adapters/redis-adapter/src/connection.ts:32-54 | Every step keeps records, replies and cache within the lists of the tokens. |
| RelayTrails.VisitsAreChronological | packages/adapters/redis-adapter/src/trail.ts:35-41 | In every interleaving, the visits that the relay's calls leave for a character are chronological: a point carries the time of its issue, and the tracker's client executes in issue order. |
| RelayTrails.RelayTrailsAreBatch | packages/adapters/redis-adapter/src/trail.ts:35-66 | So with a window of whole seconds, the trail of these visits is the batch view of all of them. |
| RelayTrails.RelayTrailsAreSeen | packages/adapters/redis-adapter/src/trail.ts:51-54 | That view is what a reader sees until the window has passed since the last visit; after that a reader sees nothing. |
| RelayTrails.VisitsAreMessages | apps/tracking-relay/src/index.ts:168-172 | Each such visit is the coordinate of the message whose point took effect under the name, at the time of its issue; no other command on these clients adds one. |
| RelayAuthority.SwitchesAreAuthorised | apps/tracking-relay/src/index.ts:96-107 | In every interleaving, a value placed in the cache was in an allowed list returned for that connection earlier in the run. |
| RelayAuthority.LabelsAreAuthorised | apps/tracking-relay/src/index.ts:113-136 | Every broadcast carries one received message, field by field, on the channel of its grid room, under the name it gave or else the name that was current when it was received, and that name was in a list returned earlier; the one exception is a message with the empty name when none was current, which goes out as "null". |
| RelayAuthority.NamelessIsBroadcast | apps/tracking-relay/src/index.ts:113-121 | That exception is real: such a message is broadcast at once under that name. |
| RelayAuthority.CacheIsAuthorised | apps/tracking-relay/src/index.ts:94-108 | Every cached name is authorised and is the last name the connection switched to. |
| RelayAuthority.UserHashIsOneMessage | apps/tracking-relay/src/index.ts:141-167 | At any moment a user's hash holds twelve fields and no others, each stated from one single message, which named this user or nobody, of a connection whose current name was the user's when the write was issued. |
| RelayAuthority.Step | apps/tracking-relay/src/index.ts:79-173 | Every step keeps the causes of the log, the queue of one pending command per waiting handler, and the link from hashes and captured names to the log. |
| RelayAuthority.RunKeepsInv | apps/tracking-relay/src/index.ts:79-173 | These facts hold after every run, whatever overlaps. |
| RelayAgreement.DrainedStoreAgrees | apps/tracking-relay/src/index.ts:107-108 | In every interleaving, once no write of a connection's name is pending, the stored current character is the cached one; a record that was deleted or has expired holds that or nothing. |
| RelayAgreement.Step | packages/adapters/redis-adapter/src/connection.ts:55-64 | Every step keeps the relation between the cache, the youngest pending write and the stored name. |
| RelayAgreement.PendingTail | packages/adapters/redis-adapter/src/connection.ts:55-64 | Executing the oldest command loses the pending name only if that command was the only pending write of the connection. |
| RelayCount.CountIsConserved | apps/tracking-relay/src/index.ts:136-137 | In every interleaving, the broadcasts of a connection are its stored position count plus its handlers between broadcast and increment, unless its record was deleted or has expired. |
| RelayCount.Step | packages/adapters/redis-adapter/src/connection.ts:82-87 | Every step keeps that balance for all connections at once. |
| Positions.BuildPosition | apps/tracking-relay/src/index.ts:118-135 | The loop over the optional fields yields the position on channel 500_(x div 500)_(y div 500) that has the coordinates, flags and name, and each optional field of the message under its own short name exactly if the message carries it. |
| Positions.AttributesAreTheMessages | apps/tracking-relay/src/index.ts:144-167 | The attributes read back off the broadcast position are the twelve fields stated from the message: the detour through the short names loses and swaps nothing. |
| Positions.PositionCarries | apps/tracking-relay/src/index.ts:118-135 | The position of a message in literal terms: channel, name, coordinates, flags, and six optional fields. |
| Positions.BitIsMask | packages/core/src/bitmask.ts:15-16 | The two flags are what the bit masks 1 and 2 say of the mask's low byte, where they lie (player.ts:6-10). |
| Broadcasts.BroadcastsReachViewers | apps/tracking-relay/src/index.ts:117-136 | In every interleaving, the channel of each broadcast is among the rooms that the search returns for a viewer, at grid size 500 and a radius of zero or more, exactly if the viewer hears the position it carries: so for all viewers nearer than the whole-cell radius less 500 units on each axis, and for none farther than the radius plus 500 units on each axis. |
| Broadcasts.PublishedIsHeard | packages/core/src/geo-coordinates.ts:139-177 | The same for the position of a message: publisher and subscriber compute the same room names. |
| Broadcasts.ChannelIsGridRoom | apps/tracking-relay/src/index.ts:119-119 | The relay's channel is the grid room of the player at grid size 500. |
| RelayService.Service.OnMessage | apps/tracking-relay/src/index.ts:79-136 | The first segment of the handler, as in-place updates, is the receive step; the object stays the result of its run. |
| RelayService.Service.OnReply | apps/tracking-relay/src/index.ts:97-173 | Each later segment is the resume step of the handler's await. |
| RelayService.Service.SwitchCharacter | apps/tracking-relay/src/index.ts:97-108 | A reply without the name ends the handler; one with it updates the cache and issues the write in the same segment. |
| RelayService.Service.SendPosition | apps/tracking-relay/src/index.ts:117-136 | One broadcast is logged, which carries the message field by field on the channel of its grid room. |
| RelayService.Service.StoreAttributes | apps/tracking-relay/src/index.ts:141-167 | Only the name that is current for the connection is stored, with the twelve fields stated from the message; otherwise the handler ends and nothing is logged. |
| RelayService.Service.ExecuteOldest | packages/adapters/redis-adapter/src/connection.ts:47-87 | The oldest pending command of the connection store takes effect and wakes its handler. |
| RelayService.Service.ExecuteOther | packages/adapters/redis-adapter/src/user.ts:25-39 | A command on users, live positions or the channel, none before it on the same client being pending, takes effect and wakes its handler. |
| RelayService.Service.OnUpgrade | apps/ground-station/src/server.ts:100-107 | An upgrade writes the names that its token lists, split and joined, and the level of the token. |
| RelayService.Service.UpgradeContinues | apps/ground-station/src/server.ts:108-112 | It then persists the record, and deletes it if the socket was aborted. |
| RelayService.Service.OnClose | apps/ground-station/src/server.ts:187-192 | A close reads the current character. |
| RelayService.Service.OnShutdown | apps/ground-station/src/server.ts:56-63 | A shutdown reads the current character of a connection that it serves. |
| RelayService.Service.CloseContinues | apps/ground-station/src/server.ts:192-196 | A close, or a shutdown in its own order, then removes the live position and lets the user and the connection expire, one command at a time. |
| RelayService.Service.Wait | packages/adapters/redis-adapter/src/hkv-store.ts:79-81 | Time passes; hashes past their deadline vanish and lost connections are recorded. |
| RelayService.Service.Holds | apps/tracking-relay/src/index.ts:34-173 | Whatever the object has been through, the invariants of authority, pending commands, tokens, agreement and count hold of its present state, and that of no ghosts if its messages have fitted. |
| HashStore.KeyValueStore.Get | packages/adapters/redis-adapter/src/hkv-store.ts:49-51 | The stored value of a field, or none. |
| HashStore.KeyValueStore.Set | packages/adapters/redis-adapter/src/hkv-store.ts:52-64 | One field changes; the other fields, the other hashes and the deadline stay. |
| HashStore.KeyValueStore.SetMultiple | packages/adapters/redis-adapter/src/hkv-store.ts:65-72 | All given fields are written over the old ones; the whole hash expires after the given time or, without one, stops expiring. |
| HashStore.KeyValueStore.Incr | packages/adapters/redis-adapter/src/hkv-store.ts:85-87 | Counts up from the stored number, from the number that prints as the stored text, or from zero, and returns the new number; any other text is refused and nothing changes. |
| HashStore.KeyValueStore.ExpireKey | packages/adapters/redis-adapter/src/hkv-store.ts:79-81 | An existing hash keeps its fields and gets its deadline 1000 times the given seconds from now or, for a time of zero or less, is deleted; no other hash changes. |
| HashStore.KeyValueStore.PersistKey | packages/adapters/redis-adapter/src/hkv-store.ts:73-75 | The hash loses its deadline and keeps its fields. |
| HashStore.KeyValueStore.DeleteKey | packages/adapters/redis-adapter/src/hkv-store.ts:88-90 | The hash is gone and no other changes. |
| HashStore.PersistedSurvives | packages/adapters/redis-adapter/src/hkv-store.ts:65-72 | A hash written without a time to live is out of reach of the clock. |
| HashStore.ExpiringVanishesOnTime | packages/adapters/redis-adapter/src/hkv-store.ts:79-81 | An expiring hash is gone from its deadline on and not before. |
| TrailAgreement.FaithfulExactly | packages/adapters/redis-adapter/src/trail.ts:35-66 | For at least one stored point and a positive window, the stored trail equals the batch result over the whole history, after every history, if and only if the window is at least 1000 ms and either one point is kept or the window is of whole seconds (with one millisecond to spare where a key outlives its deadline). |
| TrailAgreement.WholeSecondsAreFaithful | packages/adapters/redis-adapter/src/trail.ts:35-66 | A window that is a multiple of 1000 ms always meets the condition, whichever way the instant of the deadline is read. |
| TrailAgreement.KeyLivesForTheWindow | packages/adapters/redis-adapter/src/trail.ts:51-54 | After every history, the key's deadline is the last call plus the window, rounded down to seconds: not lapsed up to the window less 1000 ms, lapsed after the window. |
| TrailAgreement.ReadersSeeTheBatch | packages/adapters/redis-adapter/src/trail.ts:35-66 | With a window of whole seconds, a reader at any later instant sees the batch view of the whole history until the window has passed since the last call, and nothing after that; at the very instant, by the reading of the deadline. |
| TrailAgreement.SeenIsRecent | packages/adapters/redis-adapter/src/trail.ts:47-64 | Whatever the window, a reader sees at most the configured number of points, each the last visit to its coordinate and inside the window of the last call; with a window under a second, none. |
| TrailAgreement.LostIsOld | packages/adapters/redis-adapter/src/trail.ts:51-64 | A point lost to key expiry is older than the window less one second; under the exact condition it is one that the next trim by age would drop, on the inclusive bound. |
| TrailAgreement.HarmlessLapseIsInvisible | packages/adapters/redis-adapter/src/trail.ts:51-64 | Under that condition, the call after an expiry leaves the very trail it would have left had the key not expired. |
| TrailAgreement.AddedPointSurvives | packages/adapters/redis-adapter/src/trail.ts:47-64 | The point just added survives its own call if and only if fewer than N other coordinates carry the same timestamp with greater packed bytes. |
| TrailAgreement.GreaterTieByCoordinates | packages/adapters/redis-adapter/src/trail.ts:47-59 | A tie is greater exactly when it is greater in x, or equal in x and greater in y. |
| TrailHistory.RunIsBatchSinceLapse | packages/adapters/redis-adapter/src/trail.ts:35-66 | For every configuration with a window of a second or more, the stored trail is the batch result over the visits since the key last expired. |
| TrailHistory.AddRefinesBatch | packages/adapters/redis-adapter/src/trail.ts:40-65 | One call on a trail that is the batch result of a history leaves the batch result of the longer history, although rank and age trims threw data away before. |
| TrailHistory.OneVisit | packages/adapters/redis-adapter/src/trail.ts:47-64 | Adding to the trimmed trail and trimming again keeps the same entries as trimming the untrimmed one. |
| TrailHistory.TrimmingKeepsEnough | packages/adapters/redis-adapter/src/trail.ts:55-59 | An entry that has n others above it still has at least n of them above it among the n newest. |
| TrailTracker.Tracker.AddDataPoint | packages/adapters/redis-adapter/src/trail.ts:35-66 | Each call extends one name's history; every trail stays the run of its history, other names keep theirs, the called trail has its deadline at the timestamp plus the window in whole seconds and at most the configured number of points, none older than the window, and the live position follows only where the index accepts it. |
| TrailTracker.Tracker.AddToTrail | packages/adapters/redis-adapter/src/trail.ts:47-64 | Lapse, insertion, rank trim and age trim on the sorted sequence are one step of the specification on its set of entries, with the deadline at the timestamp plus the window in whole seconds. |
| TrailTracker.Tracker.TrailIsBatch | packages/adapters/redis-adapter/src/trail.ts:35-66 | After any sequence of calls with a window of whole seconds and a clock that was never set back, a trail is the batch view of all that its character ever sent. |
| TrailTracker.Tracker.RemoveCharacterPosition | packages/adapters/redis-adapter/src/trail.ts:67-69 | One name leaves the live positions; no trail changes. |
| TrailTracker.ZAdd | packages/adapters/redis-adapter/src/trail.ts:47-50 | The member moves to its new score and the sequence stays sorted by score and bytes. |
| TrailTracker.ZRemRangeByRank | packages/adapters/redis-adapter/src/trail.ts:55-59 | Cutting the front of the sorted sequence leaves its last n entries, which are exactly the n newest. |
| TrailTracker.ZRemRangeByScore | packages/adapters/redis-adapter/src/trail.ts:60-64 | Cutting by score leaves exactly the entries younger than the bound. |
| TrailTracker.MapPositionsAccepted | packages/adapters/redis-adapter/src/trail.ts:39-46 | The geospatial index accepts a scaled position exactly for 0 <= x <= 81920 and -3620 <= y <= 118308: every position on the map and a margin above and below. |
| Coordinates.NoisyRoundTrip | packages/core/src/geo-coordinates.ts:22-54 | Integer coordinates are recovered from a disturbed position if and only if the disturbance is at least minus half a unit and less than half a unit on each axis, a unit being 160/114688 and 360/81920 degrees. |
| Coordinates.ScaledInsideIndex | packages/core/src/geo-coordinates.ts:22-34 | The scaled position lies within 180 and 80 degrees exactly for 0 <= x <= 81920 and 0 <= y <= 114688. |
| Coordinates.ScalingIsStrictlyMonotone | packages/core/src/geo-coordinates.ts:22-34 | Longitude orders as x and latitude as y, both ways. |
| Coordinates.PackCoordinates | packages/core/src/geo-coordinates.ts:63-68 | Two uint32 numbers give their eight big-endian bytes; anything else is refused. |
| Coordinates.WriteUInt32BE | packages/core/src/geo-coordinates.ts:65-66 | Four bytes change to the big-endian form of the value and the rest of the buffer stays; a value that is no uint32 changes nothing. |
| Coordinates.UnpackInvertsPack | packages/core/src/geo-coordinates.ts:63-80 | Unpacking inverts packing on all pairs of uint32. |
| Coordinates.UnpackReadsEight | packages/core/src/geo-coordinates.ts:75-80 | Fewer than eight bytes cannot be read; of more, the first eight decide. |
| Coordinates.PackInvertsUnpack | packages/core/src/geo-coordinates.ts:63-80 | Packing inverts unpacking on all strings of eight bytes. |
| Coordinates.PackedOrder | packages/core/src/geo-coordinates.ts:63-68 | The byte order of packed coordinates is the order by x, then y. |
| Coordinates.LexIsValueOrder | packages/core/src/geo-coordinates.ts:63-68 | On strings of one length, byte order is the order of the numbers they spell. |
| Rooms.GetNearestRooms | packages/core/src/geo-coordinates.ts:151-177 | For a radius of zero or more the search returns exactly the names of the cells whose offset (i, j) from the viewer's cell has i squared plus j squared at most the square of the whole-cell radius. |
| Rooms.ScanBox | packages/core/src/geo-coordinates.ts:169-176 | The two loops collect exactly the names of the scanned cells that lie in the disc. |
| Rooms.BoxNeverClips | packages/core/src/geo-coordinates.ts:158-168 | Each cell of the disc lies in the scanned box, whose sides are floors of positions and not of cells; coordinates may be negative. |
| Rooms.BoxClipsExactlyNegativeRadii | packages/core/src/geo-coordinates.ts:158-171 | The box contains the disc if and only if the radius is not negative. |
| Rooms.ScannedIsDisc | packages/core/src/geo-coordinates.ts:158-176 | The cells scanned and kept are those of the disc if and only if the radius is not negative. |
| Rooms.HearingIsSubscribing | packages/core/src/geo-coordinates.ts:139-177 | The room of a publisher is among the names that the search returns for a viewer exactly when its cell is in the viewer's disc. |
| Rooms.NearbyIsHeard | packages/core/src/geo-coordinates.ts:139-177 | The room of a publisher whose distance, enlarged by one cell on each axis, fits into the whole-cell radius is among the names that the search returns. |
| Rooms.HeardIsNearby | packages/core/src/geo-coordinates.ts:139-177 | Each point whose room is among those names lies, but for one cell on each axis, within the radius. |
| Rooms.HearingIsMutual | packages/core/src/geo-coordinates.ts:139-177 | With one radius, the search of A returns the room of B if and only if that of B returns the room of A. |
| Rooms.NamesAreCells | packages/core/src/geo-coordinates.ts:172-172 | A set of room names determines its set of cells. |
| RoomNames.RoomNameInjective | packages/core/src/geo-coordinates.ts:139-140 | Grid size and cell are determined by the printed name, over all integers. |
| Decimals.DecimalInjective | packages/core/src/geo-coordinates.ts:140-140 | Decimal printing is injective over all integers. |
| Decimals.DecimalGrows | packages/core/src/geo-coordinates.ts:140-140 | Decimal printing digit by digit: a digit prints as itself, ten times a positive number plus a digit as that number and that digit, a negative number behind a minus sign. |
| Decimals.ParsedExactly | packages/adapters/redis-adapter/src/hkv-store.ts:85-87 | A text counts as an integer exactly if it is what that integer prints. |
| RoomNames.ChannelAccepts | packages/contracts/src/player.ts:24-25 | The channel pattern accepts a room name if and only if no part is negative and the last is at most 999. |
| RoomNames.ChannelNeverDiscards | packages/contracts/src/player.ts:24-39 | A position relayed at grid size 500 passes the schema if and only if its coordinates are in bounds and the low 32 bits of its flags hold no unknown one: the channel, whose text RelayChannelText gives, never discards it. |
| RoomNames.RelayChannelText | apps/tracking-relay/src/index.ts:119-119 | The channel is 500, the column x div 500 and the row y div 500, with underscores between. |
| IdGenerator.Generator.GenerateId | packages/core/src/id.ts:30-49 | An id has four letters of ABCDEFGHJKMNPRTUVWXY, four decimal digits and four such letters, and is what the bare byte stream spells from where the last call stopped; all ids issued so far are those of as many unbuffered readings. |
| IdGenerator.Generator.FillPattern | packages/core/src/id.ts:34-46 | One accepted symbol per alphabet of the pattern, in order. |
| IdGenerator.Generator.DrawAccepted | packages/core/src/id.ts:37-43 | The loop ends at the first acceptable byte of the stream, with the distance to it as its measure. |
| IdGenerator.Generator.TakeByte | packages/core/src/id.ts:38-42 | Each byte taken is the next byte of the stream; a refill of 64 bytes leaves no trace. |
| IdGenerator.Generator.constructor | packages/core/src/id.ts:23-25 | The first call starts at the head of the stream. |
| IdGenerator.SymbolOfByte | packages/core/src/id.ts:35-45 | A byte gives the letter at its low five bits if these are below 20, the digit at its low four bits if these are below 10, and is rejected otherwise. |
| IdGenerator.ReadMeaning | packages/core/src/id.ts:34-46 | The bytes of an id are taken at increasing positions, each at most once, and only rejected bytes are skipped. |
| IdGenerator.MadeFromIsUnique | packages/core/src/id.ts:34-46 | Those positions and the id are the only ones. |
| IdGenerator.IdsAreUnbiased | packages/core/src/id.ts:1-46 | Each text of four letters, four digits and four letters is spelled by the same number of inputs of twelve bytes without a rejection: eight to the eighth times sixteen to the fourth. |
| IdGenerator.SpellingsMeaning | packages/core/src/id.ts:34-46 | The counted inputs of an id are exactly those that are accepted byte by byte and give its symbols. |
| IdGenerator.SpelledIsRead | packages/core/src/id.ts:34-46 | Where the stream holds one of them, the generator reads exactly that id and consumes exactly those bytes. |
| IdGenerator.PreimagesCount | packages/core/src/id.ts:35-45 | Each letter has eight accepting byte values and each digit sixteen. |
| IdGenerator.MaskIsRemainder | packages/core/src/id.ts:35-42 | The bit masks 15 and 31 of a byte are its remainders by 16 and 32, and are the ones applied to digits and letters. |
| IdGenerator.FormatKeepsId | packages/core/src/id.ts:55-57 | The readable form loses nothing, for a string of any length. |
| IdGenerator.FormattedId | packages/core/src/id.ts:55-57 | An id is shown as four letters, a dash, four digits, a dash and four letters, the same in order. |
| AllowedNames.AdmittedNames | apps/tracking-relay/src/index.ts:96-106 | The relay admits exactly the non-empty comma-free pieces of the account's names; an empty list admits nobody. |
| AllowedNames.AccountNamesAdmitted | packages/services/authentication/src/authenticationService.ts:125-125 | On comma-free names, exactly the account's non-empty names pass both rounds of joining and splitting. |
| AllowedNames.JoinInvertsSplit | apps/ground-station/src/server.ts:105-105 | Joining the parts of any string gives back the string. |
| AllowedNames.SplitInvertsJoin | packages/adapters/redis-adapter/src/connection.ts:38-54 | A list survives joining and splitting if and only if it is non-empty and comma-free. |
| ElevationResults.VerifiedIsEarned | packages/services/authentication/src/authenticationService.ts:45-64 | Over every run with concurrent calls, changing keys and expiry: if an authentication grades account a and token t as Verified, some earlier solve read a registered, unexpired challenge for exactly (a, t), then unlinked it, then saw one key with account a and with the challenge's test as its name, and then issued the passport. |
| ElevationResults.ConsumedForGood | packages/adapters/redis-adapter/src/elevation-store.ts:63-74 | Once a challenge is unlinked, no later read finds it. |
| ElevationResults.LateSolveFails | packages/services/authentication/src/elevationService.ts:158-161 | A solve of an unlinked challenge fails at its first step, whatever the earlier verdict was. |
| ElevationResults.OverlappingPassportsAgree | packages/services/authentication/src/elevationService.ts:158-241 | Two solves of one challenge that both issue a passport issue the same one. |
| ElevationResults.IssuedPassportsVerify | packages/services/authentication/src/elevationService.ts:243-254 | Every issued passport verifies and is worth the grade Verified. |
| ElevationResults.PassportsDoNotTransfer | packages/services/authentication/src/elevationService.ts:70-100 | Its signature verifies for another pair of account and token if and only if that is the same pair. |
| ElevationCompleteness.RenamedKeyIsVerified | packages/services/authentication/src/elevationService.ts:129-241 | For each token, account and token id of five groups of hexadecimal digits, test and positive time, a run of the steps given in full: a challenge, the key renamed, and a solve. If the new name is the test, an authentication with the signature for the pair then grades Verified; with any other name no signature has been released. |
| ElevationCompleteness.Solved | packages/services/authentication/src/elevationService.ts:158-241 | An undisturbed solve of a live challenge releases the signature if and only if the key it is given has the challenged account and the asked name. |
| ElevationCompleteness.AuthenticatedAs | packages/services/authentication/src/authenticationService.ts:45-64 | An undisturbed authentication with any text that was never issued, or any issued signature, grades Verified if and only if it is the signature of the key's own account and token. |
| ElevationCausality.Step | packages/services/authentication/src/elevationService.ts:129-254 | Every step keeps the causes of the log and ties stored challenges, calls in flight and released signatures to it. |
| ElevationCausality.RunKeepsInv | packages/services/authentication/src/elevationService.ts:129-254 | So these hold after every run. |
| ElevationStore.Store.RegisterChallenge | packages/adapters/redis-adapter/src/elevation-store.ts:44-56 | The challenge can be read for exactly its time to live; no other challenge changes. |
| ElevationStore.Store.ConsumeChallenge | packages/adapters/redis-adapter/src/elevation-store.ts:63-74 | A live challenge whose account and token are texts of 8, 4, 4, 4 and 12 hexadecimal digits between dashes, in either case, is returned and can never be read again; anything else is refused and the store stays. |
| ElevationStore.Store.ReadChallenge | packages/adapters/redis-adapter/src/elevation-store.ts:70-71 | The read finds exactly a challenge that is there, in time, and whose account and token are such texts. |
| ElevationStore.Store.UnlinkChallenge | packages/adapters/redis-adapter/src/elevation-store.ts:72-72 | The unlink, a step of its own, removes that challenge for good and no other. |
| ElevationStore.GuidExactly | packages/contracts/src/api-gateway/elevation.ts:22-27 | The schema takes a text as an account or token exactly if it is five groups of 8, 4, 4, 4 and 12 hexadecimal digits, upper or lower case, with dashes between. |
| ElevationProcess.Process.ChallengeRegisters | packages/services/authentication/src/elevationService.ts:144-156 | The challenge with the account and token that the call saw is stored and handed out; the object stays the result of its run. |
| ElevationProcess.Process.Solve | packages/services/authentication/src/elevationService.ts:158-161 | The read of a solve, as an in-place step: the call goes on, holding the challenge, exactly if the challenge is there, in time and well-formed, digits spelled out. |
| ElevationProcess.Process.SolveUnlinks | packages/adapters/redis-adapter/src/elevation-store.ts:72-72 | Its unlink, which other steps may precede. |
| ElevationProcess.Process.SolveEnds | packages/services/authentication/src/elevationService.ts:171-241 | The verdict on what the solve saw: a passport for the challenge's account and token exactly if account and key name match, and nothing released otherwise. |
| ElevationProcess.Process.AuthenticateEnds | packages/services/authentication/src/authenticationService.ts:45-64 | The grade of what the call saw is logged and returned. |
| ElevationProcess.Process.Holds | packages/services/authentication/src/elevationService.ts:129-254 | The invariants of every run hold of the object at any time. |
| ElevationService.Service.Challenge | packages/services/authentication/src/elevationService.ts:129-157 | The account and token that were seen are registered under the new id for the given time, with the test gwradar.com_verify_account_ and a suffix; without both, nothing is. |
| ElevationService.Service.Solve | packages/services/authentication/src/elevationService.ts:158-241 | For live challenges of well-formed account and token and no others: no account or no name is a bad token; otherwise it grants exactly to the challenged account under the asked name, a passport that verifies for that pair alone. A challenge that was found is used up whatever the verdict. |

## Left out

- RelayWitness.OverlapLeavesGhost: the steps let answers of one client be handled in any order, which covers all that the event loop can do; this run keeps them in order too.
- RelayCloses.CloseHoldsExactly: speaks of the removed live position, not of the user hash that the close lets expire. The cache keeps the closed connection's name, as the code does.
- RelayOverlap.ArrivalExactly: what can follow includes that a token is presented again; `RelayOverlap.ArrivalExactlyAlone` does without.
- RelayTrails.RelayTrailsAreBatch: expiry of a trail's key is reckoned at the timestamps of the points; a delay between a timestamp and the execution of its command is not modelled there.
- RelayAuthority.UserHashIsOneMessage: does not say which instant the hash gives as its last update; `RelayUndisturbed.SwitchesUndisturbed` and `StaysUndisturbed` do.
- RelayAgreement.DrainedStoreAgrees: says nothing stronger for a record that was deleted or has expired than that the name, if stored, is the cached one.
- RelayCount.CountIsConserved: says nothing for a record that was deleted or has expired, whose count starts again from zero.
- HashStore.KeyValueStore.Set: deadlines of single fields are not modelled; no caller sets one, so that persisting a field changes nothing.
- HashStore.KeyValueStore.Incr: integers are unbounded, where the server refuses to leave 64 bits.
- ElevationStore.Store.ConsumeChallenge: one uninterrupted read and unlink; the two steps are `ReadChallenge` and `UnlinkChallenge`.
- ElevationService.Service.Challenge: one uninterrupted call with the answers of the API as parameters; the interleaved steps are in `ElevationProcess`.
- ElevationService.Service.Solve: the same.
- ElevationResults.VerifiedIsEarned: deadlines use one clock for store and service.
- A failing remote command, the reconnection of clients and the error branch of an upgrade (server.ts:124-130): every command succeeds.
- Registration of a connection with a time to live (connection.ts:88-98), the ground station's map of served sockets and back-pressure: the results speak of none of these fields, apart from an earlier expiry. The sockets that a shutdown closes run their own close beside it, which the model has as an actor of its own.
- Protobuf decoding and validation: a message starts as a decoded, valid record.
- Signing and checking of the JWT that carries the allowed names, and its lifetime of ten seconds.
- The distance and speed helper calculateVelocity, the bit-mask helpers that set, clear and toggle, error tables, logging, configuration, user interfaces and port interfaces: only easy claims or none.
- Floating-point rounding in the coordinate scaling.
