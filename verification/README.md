# Verified model of go-homeconnect2mqtt

A Dafny 4.11 model of the parts of the bridge that are hardest to get right, with proofs of what they
promise. `dafny verify dfyconfig.toml` checks everything. Every statement below is proved of the model, for all
inputs, all schedules or all runs; how the model stands to the Go code is the reader's to compare, row by row.

Five areas are covered.

1. **The encrypted stream and its socket** (`Crypto`, `Socket`). CBC as one continuous stream per direction
   (section 6.2 of NIST SP 800-38A), the rolling truncated tag chain and the padding of
   `internal/homeconnect/crypto.go`, over an arbitrary invertible block cipher and an arbitrary keyed hash;
   then `AESSocket` under every interleaving of `Send`, `Connect`, `Close` and connection loss.
2. **The session as a protocol** (`Pending`, `Connection`, `Reconnect`). The table of pending calls, message
   ids, the goroutines of successive connection attempts, and the reconnecting manager with its backoff and
   state trace.
3. **What the broker holds after outages** (`PublishQueue`, `Republish`, `LinkState`, `FleetLevel`). The bounded
   publish queue, the coalesced republish, the link items and the `connected` level over lost publishes and
   replaced runtimes.
4. **Two renderers of one discovery payload** (`Sorting`, `Classify`, `Renderers`, `RendererObjects`). The
   map-building path and the `Description` path, step by step, and Home Assistant's admissible combinations.
5. **Deleting only what is ours, and all that is gone** (`Text`, `Topics`, `Legacy`, `Attribution`, `Sweep`,
   `Tombstones`, `PriorState`, `Phantoms`, `HalfMove`). Topic strings and their parser, ownership of retained configs,
   the migration sweep against section 4.7 of MQTT 5.0, and over whole runs everything that deletes an entity: the
   tombstones of device documents and the retractions ahead of them, the orphan sweep, the refresh and a sibling
   instance.

Concurrent code is a state machine: one action is one critical section, one channel or atomic operation, or one
call that can block; an action whose guard does not hold changes nothing, so a sequence of actions is an
interleaving and the theorems quantify over all sequences. Fields the theorems need but the program does not have
are named as history where the state is declared. Beside what can never happen, each machine has theorems on what
does get done: a response reaches its caller, a dropped feature leaves Home Assistant, a backlog drains, a teardown
ends, a redial waits. They name the steps involved and, where it matters, the steps of others that may come between.

Code that the program runs step by step on an object is also a class whose methods are proved equal to the
specification functions the theorems are about. Where the program ranges over a map, the visiting order is a
parameter, and the result is proved not to depend on it.

Go-hamqtt, go-ha-catalog and the broker are stubs with the contract the program relies on: a state publish is recorded
only on success, a reset opens the gate, a replay sends the last accepted values; a device document is sent after the
retractions of the retained per-entity configs of its entries; `topic.Safe` leaves safe segments alone;
`RenderComponent` omits what is empty and shows an option's label; `Validate` is an arbitrary function. Tables that
Home Assistant publishes are arbitrary, a failed load included.

Five statements of the repository needed a condition, which is proved exact:

- the topic parser undoes the printer for every unnamed feature, and for a named one exactly when the name contains
  no `/` and does not start with `_uid.` (`Topics.FeatureRoundTrip`; `Topics.UidNamesAreLost` is the failing family);
- sanitising a payload map twice equals sanitising it once except for an empty unit or state class on a sensor whose
  `enum` class was dropped for want of options (`Renderers.SanitizeMapIsIdempotent`). No catalogue produces an empty
  override (`Classify.CatalogIsNonEmpty`), so under a catalogue a rendered payload is always stable
  (`Renderers.PayloadsAreStableUnderTheCatalog`), and on a `Description` there is no exception;
- the two renderers produce the same payload exactly when the catalogue's override leaves no empty key on that
  platform (`Renderers.RenderersAgreeExactly`), hence always under a catalogue
  (`Renderers.DevicesAgreeUnderTheCatalog`); without its empty keys the map is the other payload for any overrides;
- a re-asserted link shows on the broker although an earlier publish failed, but not merely because none has failed
  since the re-assertion: a failed publish may have arrived, and when the link returns to the value before it the
  dedup gate skips both the publish and the re-assertion (`LinkState.GateHidesALostPublish`). The broker surely holds a
  value exactly when the last accepted send carried it and no later failed send carried another
  (`LinkState.SurelyShown`). When the last publish did not fail, that is so exactly when no success of an earlier
  connection was recorded behind the reset of the gate (`LinkState.BrokerShowsTheLink`; with such a record, no failure
  is needed to hide the link: `LinkState.GateHidesALateRecord`);
- a publish deletes no entity it renders, withheld before or not, unless the retraction of the entity's old config
  arrives and the document does not (`PriorState.PublishOutcome`). That it then does, and that no tombstone has gone
  out, is `HalfMove.HalfMoveDeletesTheWithheld`; the next document to arrive brings the entity back.

## Model

| member | source | states |
|---|---|---|
| Crypto.XorBitsCancels | internal/homeconnect/crypto.go:125-143 | bytewise exclusive or, built from arithmetic, undoes itself, which is all CBC needs of it |
| Crypto.XorBitsByBit | internal/homeconnect/crypto.go:125-143 | its truth table: a bit of the result is set exactly where just one operand has it |
| Crypto.CbcByBlocks | internal/homeconnect/crypto.go:134-140 | the equation of the mode: every ciphertext block is the cipher of the plain block and the block before it |
| Crypto.CbcRoundTrip | internal/homeconnect/crypto.go:125-169 | decrypting a CBC run from the state it was encrypted from gives the plaintext, and both ends reach the same state |
| Crypto.UnpadPad | internal/homeconnect/crypto.go:185-218 | unpadding inverts padding for every message and every random filling |
| Crypto.PaddingIs | internal/homeconnect/crypto.go:185-206 | behind the message stand a zero byte, bytes of the random source, and in the last byte how many were added |
| Crypto.FrameShape | internal/homeconnect/crypto.go:125-143 | every sealed frame is block-aligned, at least 32 bytes, and padded by 2 to 17 bytes |
| Crypto.OpenSeal | internal/homeconnect/crypto.go:125-169 | a frame opens from the chain it was sealed from, to its message, leaving both ends in step |
| Crypto.StreamIsOneCbcRun | internal/homeconnect/crypto.go:125-143 | over any messages sealed on one connection the frame bodies, joined, are one CBC run over the padded messages, joined, from the iv, and the chain stands at its last block |
| Crypto.StreamRoundTrip | internal/homeconnect/crypto.go:95-169 | any message sequence sealed and opened in order from reset comes back whole, with CBC state and tag chain of both ends equal |
| Crypto.MacInputInjective | internal/homeconnect/crypto.go:172-179 | what the tag is computed over determines direction, previous tag and ciphertext |
| Crypto.MacInputCovers | internal/homeconnect/crypto.go:172-179 | the hashed string is the iv, the direction, the tag before and the whole ciphertext |
| Crypto.ChainPositionsDistinct | internal/homeconnect/crypto.go:172-179 | under an ideal hash the tag chain never revisits a value, so a tag names one position of the stream |
| Crypto.AcceptsOnlyTheNextFrame | internal/homeconnect/crypto.go:146-169 | standing at position n the receiver accepts a frame if and only if it is the peer's n-th: not a repeated, skipped, reordered or reflected one |
| Crypto.AcceptedIsPrefixOfSealed | internal/homeconnect/crypto.go:146-169 | whatever is delivered, the accepted frames are a prefix of what the peer sealed, and the messages returned are theirs in order |
| Crypto.RejectedFrameKeepsState | internal/homeconnect/crypto.go:146-169 | a frame failing the length, alignment or tag check leaves the receive state as it was |
| Crypto.AESCrypto.Reset | internal/homeconnect/crypto.go:95-105 | both directions restart from the iv and the zero tag |
| Crypto.AESCrypto.ChainHMAC | internal/homeconnect/crypto.go:172-179 | the keyed hash over iv, direction, previous tag and ciphertext |
| Crypto.AESCrypto.PadMessage | internal/homeconnect/crypto.go:185-206 | the padding loop computes the specified padding, or refuses what it refuses |
| Crypto.AESCrypto.Seal | internal/homeconnect/crypto.go:125-143 | returns the specified frame and advances the transmit chain by one message; nothing moves on an error |
| Crypto.AESCrypto.Open | internal/homeconnect/crypto.go:146-169 | returns the specified result for every byte string and moves the receive chain exactly when the frame passes both checks |
| Crypto.AESCrypto.Encrypt | internal/homeconnect/crypto.go:110-112 | seals in this end's direction on the transmit chain, and leaves the receive chain alone |
| Crypto.AESCrypto.Decrypt | internal/homeconnect/crypto.go:118-120 | opens in the peer's direction on the receive chain, and leaves the transmit chain alone |
| Socket.Reachable | internal/homeconnect/socket.go:100-146 | what every interleaving keeps: the send lock is exclusive, a connection is its dialler's until its chain is reset, chain and wire agree up to the frame in hand |
| Socket.WireOrderIsChainOrder | internal/homeconnect/socket.go:134-146 | the frames written to each connection are, in order, the output of one transmit chain started at its reset |
| Socket.AesOutput | internal/homeconnect/socket.go:134-146 | that output, for the AES chain, is the frame sequence the stream theorems are about |
| Socket.PeerReadsEveryMessage | internal/homeconnect/socket.go:100-192 | under every interleaving, a peer opening what one connection carried gets exactly the messages sent on it, in order |
| Socket.SendReachesTheWire | internal/homeconnect/socket.go:134-146 | a message for which a Send holds a live connection is written to it next, one frame of the chain, whatever other goroutines do before and after it is sealed |
| Socket.ConnectInstalls | internal/homeconnect/socket.go:100-119 | a Connect that has the lock installs the connection it dialled, with the chain at its start, whatever others do meanwhile |
| Socket.ConnectionsEnd | internal/homeconnect/socket.go:183-196 | Close takes the connection out and ends it; a failed write ends it and releases the lock |
| Pending.CloseAllIsSafe | internal/homeconnect/session.go:320-328 | closing every pending channel, in any order of the map, closes none twice and keeps the table sound |
| Pending.CloseAllCloses | internal/homeconnect/session.go:320-328 | afterwards each of them is closed and the table is empty |
| Pending.Reachable | internal/homeconnect/session.go:288-328 | what every interleaving of calls, timeouts, dispatch, failing and resetting keeps: a pending channel is open, unused and owned once |
| Pending.ChannelsAreSafe | internal/homeconnect/session.go:288-328 | no channel is closed twice or sent on after close, none receives two messages, and the send of dispatch never blocks |
| Pending.ResponseCarriesRequestId | internal/homeconnect/session.go:494-528 | every response a call returns carries its own request's message id |
| Pending.ResponseReachesItsCaller | internal/homeconnect/session.go:288-318 | over every run, a response taken up while a call waits under its id is what that call returns, whatever other calls, loops, reconnects and resets do in between |
| Pending.FailureReachesEveryCaller | internal/homeconnect/session.go:320-328 | a call that waits when the connection fails or is reset learns it at its next receive |
| Pending.AwaitsOn | internal/homeconnect/session.go:494-528 | a wait under an id lasts until something touches what is pending under that id |
| Pending.FaultsAreRecorded | internal/homeconnect/session.go:288-328 | a close of a closed channel, a send on one and a send nobody would take are recorded as faults, each exactly then |
| Pending.AllocatedIdsDistinct | internal/homeconnect/session.go:533-550 | from seeding to the next reset all allocated message ids differ |
| Pending.IdsCountFromTheSeed | internal/homeconnect/session.go:533-550 | from the id the handshake gave on, ids are counted up without a gap |
| Pending.Session.ResolveMsgID | internal/homeconnect/session.go:533-550 | allocates as the machine of the theorems does: a given id is kept, otherwise the counter's value is taken and the counter moves on by one |
| Pending.Session.TakePending | internal/homeconnect/session.go:310-318 | looks the channel up and takes it out in one step, as the machine of the theorems does |
| Pending.Session.FailPending | internal/homeconnect/session.go:320-328 | closes every pending channel once, whatever the visiting order, and leaves the table empty |
| Connection.Reachable | internal/homeconnect/session.go:120-183 | what every run keeps, with any number of callers anywhere inside Close: only the newest attempt can own running goroutines, and it is named by the manager or by cur |
| Connection.NothingSurvivesIntoTheNextDial | internal/homeconnect/session.go:120-183 | when an attempt dials, both goroutines of every earlier attempt have exited |
| Connection.HeartbeatHitsOnlyItsOwnConnection | internal/homeconnect/session.go:255-286 | the connection a heartbeat closes is its own or already gone, never a successor's |
| Connection.ReceiveLoopReadsItsOwnConnection | internal/homeconnect/session.go:215-234 | a receive loop that still runs can only be reading its own attempt's connection |
| Connection.DroppedClosedOnceByItsLoop | internal/homeconnect/session.go:215-234 | each dropped channel is closed exactly once, by its receive loop on the way out |
| Connection.TeardownEnds | internal/homeconnect/session.go:160-183 | a teardown can always run to its end: both goroutines exited, no connection held, and then the dial or the return |
| Connection.ConnectCanSucceed | internal/homeconnect/session.go:120-152 | from every state between connects a Connect can install a new attempt with both its goroutines running |
| Connection.CloseStopsTheSession | internal/homeconnect/session.go:154-162 | Close cancels the current attempt and closes the socket |
| Connection.FailedPingClosesTheSocket | internal/homeconnect/session.go:255-286 | a failed ping of a live attempt closes the socket and ends the heartbeat |
| Reconnect.BackoffIsCappedDoubling | internal/homeconnect/reconnect.go:172-178 | after k failures the delay is the smaller of initial times two to the k and the maximum |
| Reconnect.DefaultBackoff | internal/homeconnect/reconnect.go:70-75 | unconfigured, the delays are 1, 2, 4, 8 and 16 seconds and thirty from then on; either value given is kept |
| Reconnect.JitterIsBounded | internal/homeconnect/reconnect.go:181-190 | jitter shifts a delay by at most its bound and never below zero |
| Reconnect.JitterReaches | internal/homeconnect/reconnect.go:181-190 | every delay within the jitter of the backoff is taken for some answer of the random source |
| Reconnect.EveryRunKeeps | internal/homeconnect/reconnect.go:92-146 | what every sequence of turns keeps: closed before each redial, waits that follow the backoff, a trace that follows the automaton |
| Reconnect.RunsArePaced | internal/homeconnect/reconnect.go:104-146 | over every run each effect is followed only by one that may follow it, every turn begun uncancelled dials just once, and before each dial there were as many waits as dials |
| Reconnect.OneWaitBetweenDials | internal/homeconnect/reconnect.go:104-146 | between a dial and the next there is exactly one wait |
| Reconnect.ReturnFollowsCancellation | internal/homeconnect/reconnect.go:104-146 | under a context that stays cancelled once it is: the loop returns only after the cancellation, and the first turn whose head sees it returns without dialling, announcing at most closed |
| Reconnect.ManagerRuns | internal/homeconnect/reconnect.go:92-190 | over every run: each wait is the capped doubling of the failures since the last success, shifted by bounded jitter; every redial follows a close; no state is announced twice running and the trace follows the automaton; a return leaves closed |
| Reconnect.Manager.SetState | internal/homeconnect/reconnect.go:92-100 | announces a state exactly when it differs from the current one |
| Reconnect.Manager.Run | internal/homeconnect/reconnect.go:104-146 | the loop has exactly the effects, in order, of the specified turns |
| PublishQueue.EnqueueAccounts | internal/bridge/device.go:237-254 | enqueueing keeps the account of every item and the order, within 1024 entries |
| PublishQueue.NextAccounts | internal/bridge/device.go:257-272 | popping keeps it too |
| PublishQueue.DevicePublisher.EnqueueItem | internal/bridge/device.go:237-254 | appends, drops the oldest of a full backlog, and leaves a wake token |
| PublishQueue.DevicePublisher.NextItem | internal/bridge/device.go:257-272 | yields the oldest item; an empty queue resets the overflow counter |
| PublishQueue.DevicePublisher.Drain | internal/bridge/device.go:276-294 | one wake-up publishes the whole queue in order and leaves it empty |
| PublishQueue.NoWakeupIsLost | internal/bridge/device.go:237-294 | in every interleaving a non-empty queue has a wake token, an enqueuer about to signal, or a drainer still looping |
| PublishQueue.EveryItemIsAccountedFor | internal/bridge/device.go:237-294 | enqueued is published, in hand, queued and dropped together, in order, and the queue stays within 1024 |
| PublishQueue.OnlyTheOldestIsDropped | internal/bridge/device.go:237-254 | a step drops at most one item, the then-oldest, and only of a full queue |
| PublishQueue.BacklogDrains | internal/bridge/device.go:276-294 | from every state with items queued the running worker can go on until it has published them all, in order, and parks |
| PublishQueue.DropsAreCounted | internal/bridge/device.go:237-272 | the overflow counter rises by one per dropped item and is zero once the queue is found empty |
| Republish.Reachable | internal/bridge/bridge.go:331-353 | what every interleaving of requests keeps: one mutex holder, a set flag is still set or was taken by a later pass |
| Republish.PassesNeverOverlap | internal/bridge/bridge.go:331-353 | two passes never run at once, and none starts before the start gate opens |
| Republish.PassesNeverExceedRequests | internal/bridge/bridge.go:331-353 | there are never more passes than requests |
| Republish.EveryRequestIsServed | internal/bridge/bridge.go:331-353 | a request that returns was served by a pass that took the flag after the request had set it and has ended |
| Republish.NoRequestIsStuck | internal/bridge/bridge.go:331-353 | once discovery has started, every request under way can return from every reachable state |
| LinkState.PublishLinkSettles | internal/haplane/plane.go:417-425 | on a connection whose gate was reset, publishing what the link says settles that item unless the publish fails, whatever failed before; no other item changes and the dedup gate stays truthful |
| LinkState.ReplaySettles | internal/haplane/plane.go:434-438 | replaying the last accepted value, whether it succeeds, fails or arrives nonetheless, unsettles nothing and keeps the gate truthful |
| LinkState.SnapshotIsWhole | internal/haplane/plane.go:427-438 | a replay starts with exactly the visited items that have an accepted value |
| LinkState.ReplayReachesTheBroker | internal/haplane/plane.go:427-438 | an untroubled replay on a live connection leaves every such item on the broker with that value |
| LinkState.ReplayedIsRecorded | internal/haplane/plane.go:427-438 | a replayed item that is accepted is recorded like any publish, and the replay goes on with the next |
| LinkState.Reachable | internal/bridge/device.go:351-395 | what every interleaving of link changes, lost publishes, late records, reconnects, replays and re-assertions keeps |
| LinkState.BrokerShowsTheLink | internal/bridge/device.go:351-395 | once a re-assertion has run on a live connection, the broker surely reads what the link was last declared, for an item whose last publish past the gate did not fail, if and only if no success of an earlier connection was recorded after the reset of the gate with none accepted since |
| LinkState.SurelyShown | internal/haplane/plane.go:417-438 | the broker holds a value in every run the daemon cannot tell from this one if and only if the last accepted send carried it and no failed send since carried another |
| LinkState.GateHidesALostPublish | internal/bridge/device.go:351-395 | a family of runs without a failure since the re-assertion in which the broker nevertheless holds the other value |
| LinkState.GateHidesALateRecord | internal/haplane/plane.go:256-273 | a family of runs without any failure in which a success recorded behind the reset of the gate hides the link from the re-assertion |
| LinkState.ReassertionTakes | internal/bridge/device.go:351-395 | an untroubled re-assertion behind a reset of the gate leaves both items showing what the link says, whatever was lost before |
| FleetLevel.Fleet.SetDeviceConnected | internal/bridge/device.go:427-443 | the loop computes level 2 exactly when some appliance is linked, whatever the visiting order |
| FleetLevel.RememberedLevelIsTheFleets | internal/haplane/plane.go:270-304 | the remembered level is 2 if and only if some appliance is linked, across every replacement of the runtime |
| FleetLevel.BrokerHoldsTheFleetsLevel | internal/haplane/plane.go:270-304 | once announced on a live connection, and unless the last publish of the level on it failed, the broker holds the level the fleet warrants, whatever failed before |
| FleetLevel.AnnouncementTakes | internal/haplane/plane.go:280-292 | an undisturbed announcement on a connection whose runtime was replaced puts the level the fleet warrants on the broker |
| FleetLevel.ChangeTakes | internal/haplane/plane.go:294-304 | and from then on so does an undisturbed change of any appliance's link |
| Sorting.CollatedIsOrder | internal/hass/payload.go:791-801 | whatever the fold, the display order is total and lets no two labels tie |
| Sorting.LeIsLexicographic | internal/hass/payload.go:803-809 | strings are ordered as in a dictionary: a prefix first, otherwise the first difference decides |
| Sorting.FoldDecidesFirst | internal/hass/payload.go:791-801 | in sorted labels the folded forms ascend, and labels that fold alike ascend by themselves |
| Sorting.SortSorts | internal/hass/payload.go:791-809 | sorting yields an ordered permutation |
| Sorting.OneArrangement | internal/hass/payload.go:791-809 | under an order without ties there is one sorted arrangement |
| Sorting.VisitingOrderIsIrrelevant | internal/hass/payload.go:729-736 | the order in which an enumeration is visited does not show in the sorted options |
| Sorting.LabelsOfSortedCodes | internal/hass/hamqtt.go:348-374 | codes sorted by label show the same list as the sorted labels, even when codes share a label, from what both sorts promise alone |
| Sorting.SortStrings | internal/hass/payload.go:803-809 | the in-place insertion sort computes the specified sort |
| Classify.CatalogIsNonEmpty | internal/mapping/catalog.go:64-124 | no catalogue entry yields an empty override |
| Classify.CatalogSays | internal/mapping/catalog.go:64-124 | what the catalogue says of a feature is what its mapping holds, an empty field saying nothing, the German name preferred in German |
| Classify.PlatformsExactly | internal/hass/payload.go:221-276 | each platform's exact condition; a dropdown always has options and only what can be written gets a control |
| Classify.PrimaryByName | internal/hass/payload.go:280-308 | enabled from the start are the program entities and the features with one of the listed names, bare or behind a dot |
| Classify.CategoriesExactly | internal/hass/payload.go:318-357 | a feature is config exactly when it is not primary and changes the appliance, diagnostic exactly when it is not primary and only reports |
| Classify.StateClassesExactly | internal/hass/payload.go:447-460 | exactly numeric sensors have a state class, and exactly those with Count in the name one that only grows |
| Classify.ClassAndUnitMeasures | internal/hass/payload.go:464-489 | the class and unit of every content type, as a table |
| Classify.RenderableCategory | internal/hass/payload.go:384-392 | the category is allowed on the platform; an allowed one is kept, a refused config becomes diagnostic, anything else goes |
| Classify.ReconcileIsCompatible | internal/hass/payload.go:187-204 | reconciling always ends in an accepted combination, invents nothing, and leaves exactly the accepted ones alone |
| Classify.ReconcileGivesUp | internal/hass/payload.go:187-204 | which of the three values goes, exactly: the class for failed tables or a unit it does not declare, unit and state class for a class that is no number's, the state class alone for one that does not admit it |
| Classify.TextSensorClassIs | internal/hass/payload.go:669-683 | a text sensor keeps its class exactly when that is enum or known not to be a number's |
| Classify.MeasuresSurvive | internal/hass/payload.go:187-204 | when the tables declare the assigned measures, no class or unit assigned from the wire type is ever given up |
| Classify.BoundsAreAccepted | internal/hass/payload.go:421-443 | min is at most max after Home Assistant's defaults and step at least 0.001; exactly the acceptable bounds survive |
| Classify.BoundsLeftOut | internal/hass/payload.go:421-443 | what is published as a bound is a finite bound of the appliance, left out exactly when both cross or the step is too small |
| Classify.OptionsDoNotDependOnTheVisit | internal/hass/payload.go:729-736 | two visits of one enumeration give the same options, one for each member |
| Classify.EnumOptions | internal/hass/payload.go:729-736 | the loop and the in-place sort yield the sorted members |
| Renderers.DescribeAgrees | internal/hass/hamqtt.go:255-294 | describing an entity renders to what the map builder starts from |
| Renderers.EnrichAgrees | internal/hass/hamqtt.go:299-334 | enrichment commutes with rendering for any overrides, refused and empty ones included, up to the empty keys an empty override leaves in the map |
| Renderers.LocalizeAgrees | internal/hass/hamqtt.go:348-374 | sorting codes by label renders to sorting the labels |
| Renderers.TextAgrees | internal/hass/hamqtt.go:437-440 | clearing numeric classes on a text sensor commutes with rendering |
| Renderers.SanitizeAgrees | internal/hass/hamqtt.go:387-411 | the transcribed sanitiser agrees with the map's, clause for clause |
| Renderers.RenderersAgree | internal/hass/hamqtt.go:255-453 | hence for every entity, every catalogue without empty overrides and every pair of visiting orders the two renderers produce the same payload, key for key |
| Renderers.RenderersAgreeExactly | internal/hass/discovery.go:202-237 | for any overrides the two payloads are equal if and only if no override leaves an empty key: an empty class the table lists, off the sensors; an empty unit on a number; an empty unit or state class on a numeric sensor overridden to `enum` |
| Renderers.RenderedIsAdmissible | internal/hass/payload.go:685-726 | every rendered feature is a combination Home Assistant admits, for any enrichment and any tables, the clauses for a text state included |
| Renderers.EveryComponentIsAdmissible | internal/hass/hamqtt.go:420-453 | so is every component of a device, program controls included |
| Renderers.SanitizeDescIsIdempotent | internal/hass/hamqtt.go:387-411 | sanitising a description twice changes nothing |
| Renderers.SanitizeMapIsIdempotent | internal/hass/payload.go:685-726 | exactly when sanitising a payload map twice changes nothing |
| Renderers.FeaturesAgree | internal/hass/discovery.go:303-346 | the two loops keep the same entities in the same order and render each alike |
| Renderers.DevicesAgree | internal/hass/hamqtt.go:420-453 | the same for the whole device, program controls included |
| Renderers.DevicesAgreeUnderTheCatalog | internal/mapping/catalog.go:64-124 | so with any catalogue of mappings the two renderers publish the same rows, without a condition |
| Renderers.PayloadsAreStableUnderTheCatalog | internal/hass/payload.go:685-726 | and with any catalogue the sanitiser leaves every rendered payload alone |
| Renderers.CommandableExactly | internal/hass/hamqtt.go:510-522 | a command topic goes exactly to switches, dropdowns and numbers |
| Renderers.ShownExactly | internal/hass/hamqtt.go:255-411 | all passes together: name, category, hidden-at-first and bounds shown are the operator's where there is one the platform takes, and otherwise the entity's own |
| Renderers.ControlShownExactly | internal/hass/hamqtt.go:255-411 | off the sensors, class, unit and localized options too |
| Renderers.NumericSensorShownExactly | internal/hass/payload.go:685-726 | a sensor of numbers shows class, unit and state class, overrides counted, as far as the three can stand together |
| Renderers.EnumSensorShownExactly | internal/hass/hamqtt.go:348-411 | an enumeration shows the `enum` class and its sorted labels exactly where the platform declares that class, and never a unit |
| Renderers.TextSensorShownExactly | internal/hass/payload.go:647-683 | any other text shows what is left of its class, whatever unit an override gives it |
| Renderers.KeptExactly | internal/hass/hamqtt.go:424-443 | exposed is exactly what has a platform, is not excluded and, in curated mode, is not hidden |
| Renderers.FeaturedExactly | internal/hass/hamqtt.go:420-453 | a device's features are exactly those of its entities that are kept |
| Renderers.ControlsStandApart | internal/hass/hamqtt.go:522-559 | a program control is a button pressed with `PRESS`, with no category and enabled from the start |
| RendererObjects.Description.Describe | internal/hass/hamqtt.go:255-294 | the object built is the specified description |
| RendererObjects.Description.Enrich | internal/hass/hamqtt.go:299-334 | the edit in place is the specified enrichment |
| RendererObjects.Description.LocalizeOptions | internal/hass/hamqtt.go:348-374 | the edit in place is the specified localisation |
| RendererObjects.Description.SanitizeForPlatform | internal/hass/hamqtt.go:387-411 | the edit in place is the specified sanitising |
| RendererObjects.PayloadMap.Enrich | internal/hass/discovery.go:202-237 | key by key, the specified enrichment |
| RendererObjects.PayloadMap.LocalizeOptions | internal/hass/discovery.go:268-284 | translates every option, then sorts |
| RendererObjects.PayloadMap.SanitizeForPlatform | internal/hass/payload.go:685-726 | deletes exactly the keys the specification drops |
| RendererObjects.HamqttModel | internal/hass/hamqtt.go:420-453 | the loop yields the specified entities in order and counts exactly the curated ones it left out |
| RendererObjects.PublishDevice | internal/hass/discovery.go:303-418 | the loop publishes the specified rows in order, then the program controls |
| Topics.FeatureRoundTrip | internal/layout/layout.go:201-224 | the parser undoes the printer for every uid, and for a name if and only if it has no `/` and does not start with `_uid.` |
| Topics.UidNamesAreLost | internal/layout/layout.go:215-224 | a name spelling a uid path is read back as that uid |
| Topics.CommandRoundTrip | internal/layout/layout.go:187-224 | what is left of a command topic names the feature it was rendered for |
| Topics.CommandsReachOneAppliance | internal/layout/layout.go:187-193 | a command topic of one appliance is not taken for another's |
| Topics.StatusIsNoCommand | internal/layout/layout.go:187-193 | no status item is taken for a command |
| Topics.DistinctFeaturesHaveDistinctTopics | internal/layout/layout.go:154-162 | distinct features, of one appliance or two, have distinct command and state topics |
| Attribution.IsOwnConfig | internal/hass/discovery.go:937-959 | the loop accepts exactly a payload of the namespace whose every topic is under the root and one of whose topics is an anchor |
| Attribution.AnchorLevels | internal/hass/discovery.go:965-985 | an anchor is recognised by its last level and by how many levels it has |
| Attribution.ClaimsExactlyItsOwn | internal/hass/discovery.go:937-985 | a payload of any release is claimed if and only if it was rendered under this very root and carries its bridge topic or the availability of a one-level device; nested, enclosing and disjoint roots are refused |
| Attribution.IsOwnByLevels | internal/hass/discovery.go:937-985 | any payload at all is claimed if and only if its unique id is of the namespace, every topic in it has this name for the first of several levels, and one has the levels of an anchor |
| Attribution.ClaimedByOneInstance | internal/hass/discovery.go:937-959 | no payload is claimed by two instances |
| Attribution.TwoLevelRootsWouldOverlap | internal/layout/layout.go:91-97 | the one-level name is needed: a root of more levels would claim an enclosing instance's payloads |
| Sweep.LegacySweepPlan | internal/bridge/migrate.go:142-180 | the loop builds the specified filters, old topics and current items |
| Sweep.Clears | internal/bridge/migrate.go:127-137 | the loop decides by the old topics and the first status prefix that fits |
| Sweep.OnePrefixFits | internal/layout/layout.go:180-182 | at most one configured appliance's status prefix fits a topic |
| Sweep.ClearsIsMayClear | internal/bridge/migrate.go:127-137 | so the verdict does not depend on the order in which the map yields the prefixes |
| Sweep.NoFilterMatchesACommand | internal/bridge/migrate.go:142-180 | no filter of the sweep matches a command or maintenance topic, by the matching rules of MQTT 5.0 |
| Sweep.CommandTopicsAreOutOfReach | internal/bridge/migrate.go:127-180 | no command topic the layout renders, for any appliance, is matched by a filter or selected for clearing |
| Sweep.ClearsStayInOldTerritory | internal/bridge/migrate.go:127-180 | what may be cleared is the bare old status topic or lies below `status` or below a second level that is no function |
| Sweep.StatusItemsClearedIffGone | internal/bridge/migrate.go:127-180 | below a configured appliance's status tree exactly the items it no longer has are cleared |
| Sweep.ListedExactly | internal/bridge/migrate.go:142-180 | the old topics listed for an appliance are its two old status topics and the old state topics of its features, the current items its two status items and the state topics of its features, no more and no less |
| Sweep.ClearsExactly | internal/bridge/migrate.go:127-180 | all in all the sweep clears exactly the daemon's old status topic, the old topics of the appliances whose name is no function, and below the status trees what the appliances do not have |
| Sweep.NothingCurrentIsCleared | internal/bridge/migrate.go:127-180 | a current status item, `connected` and `info` are never selected |
| Sweep.OldTopicsAreFoundAndCleared | internal/bridge/migrate.go:142-180 | every topic of the old layout of a configured appliance whose name is no function is matched by a filter and selected for clearing |
| Sweep.GoneItemsAreFoundAndCleared | internal/bridge/migrate.go:142-180 | so is every status item an appliance no longer has |
| Sweep.OldBridgeTopicIsFoundAndCleared | internal/bridge/migrate.go:142-152 | and the bare old status topic |
| Tombstones.BundleComponents | internal/hass/tombstone.go:89-114 | exactly the parseable, attributed components with a platform are prior state; nothing of an unparseable document |
| Tombstones.LiveComponents | internal/hass/tombstone.go:123-137 | exactly the entries with platform and unique id |
| Tombstones.Bundle.ApplyTombstones | internal/hass/tombstone.go:158-175 | marks exactly the prior keys the document does not hold and leaves every rendered entry |
| Tombstones.InvalidComponents | internal/hass/discovery.go:714-724 | attributes the findings to components, or not at all |
| Tombstones.NamedExactly | internal/hass/discovery.go:714-724 | findings are attributed exactly when there are some and all name components there are, and then to just those |
| Tombstones.Bundle.WithholdComponents | internal/hass/discovery.go:732-755 | takes the named components out, marks none, and lists their per-entity topics |
| Tombstones.PrepareDocument | internal/hass/discovery.go:536-697 | marking, the empty gate, validation and containment yield the specified document or none |
| Tombstones.GatesExactly | internal/hass/discovery.go:536-697 | for every validator, exactly which document goes out and what is withheld from it |
| Tombstones.WithheldTopicsExactly | internal/hass/discovery.go:732-755 | the sweep is told exactly the topics of withheld components with a unique id and a published platform |
| Tombstones.TombstonesAreForTheGone | internal/hass/tombstone.go:158-175 | an entry that goes out removes if and only if the prior document declared it and this one does not render it; rendered entries are untouched |
| Tombstones.SmallerReadFewerTombstones | internal/bridge/tombstone.go:143-199 | every tombstone that goes out on a smaller read is one the larger read calls for, and every other entry is as rendered, whatever either validator withholds |
| Tombstones.TombstonesAreNotPriorState | internal/hass/tombstone.go:89-114 | a removal entry read back is never prior state |
| Tombstones.PriorDocuments.ForConnection | internal/bridge/tombstone.go:60-77 | one read per connection, whatever it saw |
| Tombstones.PriorDocuments.Record | internal/bridge/tombstone.go:86-100 | a published document becomes prior state on its own connection only |
| Tombstones.MemoRemembers | internal/bridge/tombstone.go:60-100 | what is read back on a new connection is what its passes are given, and what is published there takes its place for its own document |
| Tombstones.OrphanTopics | internal/bridge/reconcile.go:218-233 | both claim sets are subtracted, order kept |
| Tombstones.OrphansAreOwnedAndUnclaimed | internal/bridge/reconcile.go:218-233 | a topic is an orphan if and only if it is owned and unclaimed |
| PriorState.Reachable | internal/bridge/device.go:465-516 | what every run keeps over connections, restarts, moving bounds, partial reads, concurrent passes, refusals, lost retractions and documents, orphan sweeps, refreshes and a sibling |
| PriorState.OwnConfigAttributes | internal/hass/discovery.go:937-959 | attribution by IsOwnConfig is the attribution the run theorems assume |
| PriorState.EveryTombstoneIsJustified | internal/bridge/device.go:465-516 | every tombstone that ever goes out, whether or not its document arrives, is for an attributed component its document does not render and that no document to arrive has withheld without a later one carrying it live |
| Phantoms.ReadBackIsPriorState | internal/bridge/tombstone.go:60-77 | over every run, our component that the window delivers from the retained document is the pass's prior state once it closes, whatever happens meanwhile |
| Phantoms.PhantomsAreRemoved | internal/hass/tombstone.go:158-175 | over every run, a component of ours in a pass's prior state that is rendered no more is gone from the registry, its tombstone out, once a document that passes the gates with it arrives, whatever happens in between |
| PriorState.EntitiesLeaveOnlyWhenDeleted | internal/bridge/device.go:465-516 | over every run, an entity leaves Home Assistant's registry at a step if and only if that step retracts its old config ahead of a document, delivers its tombstone, clears its config in a sweep, refreshes it, or is a sibling's removal or clearing of it |
| PriorState.WithheldEntitiesStay | internal/hass/discovery.go:653-755 | no document deletes a withheld component's entity: it leaves if and only if a sweep, a refresh, a sibling or a retraction takes it, and the retraction only ahead of a document that renders it live again |
| PriorState.PublishOutcome | internal/haplane/plane.go:317-339 | what one publish, with nothing in between, leaves in the registry, whichever retractions and whether or not the document arrives: what it renders is there if and only if the document arrives or it was there and its config's retraction did not arrive; what it removes stays if and only if neither arrives; nothing else changes |
| HalfMove.HalfMoveDeletesTheWithheld | internal/haplane/plane.go:317-339 | a run in which a publish deletes a withheld component's entity, no tombstone having gone out: its config is retracted and the document lost |
| PriorState.SweepsClearExactlyTheUnrendered | internal/bridge/reconcile.go:128-233 | a sweep behind a document that arrived, with none of its entries' old configs left, selects, of the configs it finds, exactly those of entities this process does not render; so a withheld entity is swept by the first process that no longer renders it |
| PriorState.SweepsSpareTheRendered | internal/bridge/device.go:497-516 | and until it is done it clears nothing that is rendered, withheld or not |
| Phantoms.SweptEntitiesGo | internal/bridge/reconcile.go:155-175 | what a sweep has selected and clears is gone with its config |

## Left out

- AES, HMAC, base64 keys, WebSocket, TLS, JSON, YAML, XML and ZIP loading, the MQTT client, the circuit breaker, the web UI, redaction and logging: I/O or libraries, present only as parameters with a stated contract.
- Crypto.AcceptedIsPrefixOfSealed: the hash is ideal only on the strings both ends hash on one connection (no two collide, none gives the zero tag) and no tag is forged; a frame recorded on another connection is excluded by that assumption, since both restart from one iv.
- Socket.WireOrderIsChainOrder: assumes that the WebSocket library ends a connection whose write failed; `AESSocket.Send` itself only returns the error.
- Reconnect.BackoffIsCappedDoubling: durations are unbounded integers; 64-bit overflow is not modelled.
- Pending.AllocatedIdsDistinct: only between seeding and the next reset; a call that starts before seeding or straddles a reconnect can meet an id again, because the deferred delete is by id alone.
- Pending.ResponseReachesItsCaller: a statement about what the named steps do and what steps between them leave alone; that the scheduler comes to take them is not modelled, here or in the other theorems on what gets done.
- Republish.EveryRequestIsServed: a pass whose context is cancelled counts as ended although it may have skipped appliances; the number of passes is bounded by the requests, not by two.
- LinkState.BrokerShowsTheLink: only the two link items; feature values requeued after a reconnect can be overtaken by a concurrent update and are not claimed to be final. Whether the state plane lets a reset come between a send and its record is the library's affair; the model lets it.
- FleetLevel.BrokerHoldsTheFleetsLevel: the will and the offline announcement are any value the broker may hold until the next announcement.
- Renderers.RenderersAgree: topics, value and command templates, the availability list and the device block are not compared; a JSON object is a record of optional keys. humanize, featureKey, slugify, EnumLabel and the fold are functions both paths share, and EnumValue, which does not invert EnumLabel, is not modelled.
- Classify.BoundsAreAccepted: a float64 is a real number or not finite; rounding is not modelled.
- Renderers.DevicesAgree: the unique id is the same in both renderers; that it is injective across appliances is false (device `a` with key `b_c` against device `a_b` with key `c`) and not claimed.
- Sorting.LabelsOfSortedCodes: sort.SliceStable is represented by an insertion sort in the pipelines; the lemma itself assumes only an ordered permutation.
- Topics.FeatureRoundTrip: uids are not negative and the range error of Atoi is not modelled.
- Connection.Reachable: the return of a failed handshake and the head of the teardown it calls are one action.
- PriorState.EveryTombstoneIsJustified: which entities an appliance renders, with their platforms and unique ids, is fixed for the life of a process, while their bodies may change at any step; two instances sharing one root are not told apart, as in the source.
- PriorState.EntitiesLeaveOnlyWhenDeleted: the collect window of a sweep is one action. Which of the two Home Assistant holds an entity by, while a per-entity config and a document entry of it are both retained, is not modelled: clearing the config deletes the entity, and a document that arrives creates and removes what it says; and per-entity configs that a sibling retains under the same topics are not tracked.
- PriorState.SweepsClearExactlyTheUnrendered: behind a document that never arrived, or arrived with a retraction lost, a sweep goes by its keep set alone and may clear the old config of a rendered entity.
- The snapshot windows of the plane, the packet-size preflight, the Home Assistant birth handler, device configuration and command handling: each is a single pass over its input, or the MQTT client's work.
