# A verified model of the monitoring engines

The repository observes the processes and network connections of a machine.  Around its collectors
sit pure in-memory engines that keep state from snapshot to snapshot.  This project models those
engines in Dafny, in the form the sources have (classes with the same fields, methods with the same
branches and loops), and proves what they compute over whole runs.

* **Transfer accounting.** `TransferAccounting` reads a run of `TransferRateTracker::update` as a `Trace` of
  snapshots and clock readings and gives each of the nine maps as a function of it.  `TransferRateTracker` is
  the class, proved to hold exactly these functions after every call; `TransferTheorems` proves what they mean:
  the reported bytes of a process are the sum of the counter deltas in the trace, every byte belongs to one
  session, start times are minima over all sessions, counter resets never make it over-count.  `LeastTraffic`
  proves that these bytes are the least traffic that explains the readings, `TransferRecords` what every
  published record says of its session.  `ClosedRecords` says when the closed connection records of a process
  add up to its closed total.  `OneWayTracker` is `UploadTracker` and `DownloadTracker`; the bandwidth tracker
  is their product.  `ConnectionTracker` is the snapshot diff and the replay of its events.  `IdentityKey` is
  the string key all of them share.
* **Address validation.** `IpGrammar` transcribes the address rules of section 3.2.2 of RFC 3986; `NetworkUtils`
  holds the hand-written recognisers with their loops, splitting and tail rewrite.
* **Timeline.** `Timeline` (events, their order, stable sorting), `TimelineEventCollector` with
  `CollectedEvents` (what its events tell of their sources), `TimelineEventHistory`, `ProcessTimelineBuilder`,
  `TimelineQuery`, `Endpoint`, `TimelineSummaryBuilder`.  `CollectedSessions` and `EndToEnd` connect the
  timeline with the accounting: what a summary totals against what the bandwidth tracker reports on the same
  snapshots; `EndToEndExact` says exactly when the bound and the equality hold.  `Samples` holds the sessions of
  a run and their samples, `Schedules` the runs that differ in their byte counters only, which show that a
  condition is necessary for all counters.
* **Lifecycle and caching.** `ProcessTracker` with `ConnectionAttributor`, and `DnsCache` with `DomainResolver`,
  as machines over runs.

`Model`, `Decimal`, `Text` and `FiniteSums` hold the shared records, decimal printing, string searches
and finite sums.

Conventions.  Every clock reading is a parameter.  Times and rates are reals.  Byte counters are
bounded by 2^64 and sums wrap (`Wrap`), as in the code.  A loop over an unordered map visits the keys
in an arbitrary order, and what is proved holds for all orders.  The methods are proved against
specification functions; the lemmas about these functions carry the properties.  Ghost fields (`trace`,
`history`, `log`, `run`) record the calls since construction or reset.

Where the code differs from its own comments, or from what it is for, the model follows the code:

* The comment in `TimelineQuery.cpp:170-171` says that bare IPv6 addresses are not broken.  They are, if
  their last group is decimal (`Endpoint.ValidAddressRoundTrip`, `TimelineQuery.BareIpv6QueryOvermatches`).
* The outbound-dominance hint multiplies in 64 bits; it means what it says for every upload total exactly
  when five times the inbound total fits (`TimelineSummaryBuilder.DominanceIsSound`).
* An event summary can exceed what the trackers report if two connections share their identity key, which needs
  the separator in both kinds of address (`EndToEndExact.SharedKeyOvercounts`, `EndToEndExact.BoundIsExact`).  It falls
  short of it if sessions share a remote or end without one (`EndToEndExact.EqualityIsExact`).
* Adding events one by one is not adding them in one batch once the clock moves and events can expire, if some carry
  no timestamp and the limit is exceeded (`TimelineEventHistory.StreamingOverTime`,
  `TimelineEventHistory.StreamingExactIffAgeless`).
* A reset of the process tracker alone leaves processes that end afterwards marked as running until the PID is seen
  again or the attributor is reset (`ConnectionAttributor.ResetOrphans`); the attribution invariant holds exactly when
  no reset orphaned one (`ConnectionAttributor.RunningIffTracked`).
* The trackers do not preserve the final metrics of every connection: a connection that ends again overwrites its
  older record (`ClosedRecords.ReclosingOverwrites`).  The records of a process add up to its closed total, for all
  byte counters, exactly when none of its keys ends again after a session of at least two samples
  (`ClosedRecords.ConservationIsExact`).
* The most active destination is chosen by sums that wrap; it has the most bytes when the sums fit 64 bits
  (`TimelineSummaryBuilder.MostActiveIsLargest`, `TimelineSummaryBuilder.WrapPicksSmaller`).
* `DomainResolver.h` forbids throwing lookups, the code handles them; the model includes them.

## Model

| member | source | states |
|---|---|---|
| IdentityKey.KeyInjective | src/network/tracker/ConnectionTracker.cpp:10-22 | Two connections get the same key iff protocol, PID and 4-tuple agree, if no local address (or no remote address) holds the separator |
| IdentityKey.KeyDeterminesOwner | src/network/tracker/TransferRateTracker.cpp:15-26 | Whatever the addresses hold, a key determines protocol and PID, so the owner of a key never changes |
| IdentityKey.KeyCollision | src/network/tracker/TransferRateTracker.cpp:15-26 | With the separator in both kinds of address two different connections share a key |
| IdentityKey.SharesItsKey | src/network/tracker/TransferRateTracker.cpp:15-26 | A connection shares its key with a different one exactly when a piece of its addresses between separators, other than its local port, reads as a port and leaves pieces for two addresses around it |
| Decimal.DigitsInjective | src/network/tracker/TransferRateTracker.cpp:15-26 | Decimal printing of the numbers in a key can be inverted |
| TransferAccounting.FirstRowsAreFirst | src/network/tracker/TransferRateTracker.cpp:227-233 | Of the rows with one key the first one counts |
| TransferAccounting.ActiveMirrorsSnapshot | src/network/tracker/TransferRateTracker.cpp:227-308 | After every update the active map has exactly the keys of the snapshot, with its connections, counters and times |
| TransferRateTracker.TransferRateTracker.Update | src/network/tracker/TransferRateTracker.cpp:214-355 | One update takes all nine maps from the functions of the trace to the functions of the longer trace, and returns every active connection once, each with a record that tells its session |
| TransferRateTracker.TransferRateTracker.RebuildProcessStats | src/network/tracker/TransferRateTracker.cpp:71-212 | The rebuilt active and closed process maps are the specified aggregates, whatever the map order; an active process carries the name of one of its running connections, if any has one, and every entry a name the process was seen with |
| TransferRateTracker.ConnectionNames | src/network/tracker/TransferRateTracker.cpp:279-298 | The names among which an active process's name is picked are exactly the latest names of its running sessions |
| TransferRateTracker.TransferRateTracker.CloseMissing | src/network/tracker/TransferRateTracker.cpp:326-342 | Vanished connections are recorded and folded into the closed totals of their process, exactly once each |
| TransferRateTracker.TransferRateTracker.RetireProcesses | src/network/tracker/TransferRateTracker.cpp:146-183 | Processes without connections move to the closed map with the accumulated totals, those with connections leave it |
| TransferRateTracker.TransferRateTracker.GetProcessBandwidthStats | src/network/tracker/TransferRateTracker.cpp:369-388 | Exactly the active entries, by ascending PID |
| TransferRateTracker.TransferRateTracker.Reset | src/network/tracker/TransferRateTracker.cpp:396-408 | Reset gives the state before any update |
| TransferTheorems.TraceRefinement | src/network/tracker/TransferRateTracker.cpp:71-355 | The reported bytes of a process, active or closed, are the sum over consecutive deduplicated snapshots of the deltas of its keys present in both, modulo 2^64, through any closing and reopening |
| TransferTheorems.Conservation | src/network/tracker/TransferRateTracker.cpp:326-342 | The bytes of running sessions and of ended sessions add up to the total of the trace |
| TransferTheorems.ActiveSession | src/network/tracker/TransferRateTracker.cpp:235-293 | An active entry holds the sum of its session's deltas and the session's start |
| TransferRecords.RecordTells | src/network/tracker/TransferRateTracker.cpp:52-69 | Every field of a record, from the snapshots: owner and remote of the latest row, the session's latest name, bytes and start, the row's time or the clock's, and the rates of the last two rows, or none once ended |
| TransferRecords.ClosedTells | src/network/tracker/TransferRateTracker.cpp:326-330 | A key has a closed record exactly if a session of it ended, and the record tells the last one as it was when it ended |
| TransferRecords.ProcessTells | src/network/tracker/TransferRateTracker.cpp:71-132 | An active entry counts the process's connections, adds up their rates, and carries the latest of their times |
| TransferRecords.ClosedProcessTells | src/network/tracker/TransferRateTracker.cpp:146-183 | A closed entry shows no rates and no connections, and the times of the entry the process had when it lost its last connection |
| TransferTheorems.ClosedSums | src/network/tracker/TransferRateTracker.cpp:332-335 | The closed accumulators hold the bytes of the ended sessions |
| TransferTheorems.ProcessPartition | src/network/tracker/TransferRateTracker.cpp:146-211 | Active and closed process maps are disjoint, their union is every PID seen, and the active PIDs are the owners of the active connections |
| TransferTheorems.ClosedEntries | src/network/tracker/TransferRateTracker.cpp:163-182 | A closed process reports exactly the closed accumulators |
| TransferTheorems.FallbackUnreachable | src/network/tracker/TransferRateTracker.cpp:166-171 | The fallback to previously reported bytes is never taken |
| TransferTheorems.FirstObservedIsEarliest | src/network/tracker/TransferRateTracker.cpp:300-305 | The reported first-observed time is the minimum over the starts of all sessions since the reset |
| TransferTheorems.FirstSeenIsEarliest | src/network/tracker/TransferRateTracker.cpp:135-143 | The recorded first-seen time is that minimum after every update |
| TransferTheorems.RateLaw | src/network/tracker/TransferRateTracker.cpp:42-50 | A rate is non-negative, is zero for too short a time, and else rate times elapsed time is the delta |
| TransferTheorems.ConnectionRate | src/network/tracker/TransferRateTracker.cpp:263-273 | A connection's rate is its last delta over the time between its last two readings |
| TransferTheorems.ProcessRate | src/network/tracker/TransferRateTracker.cpp:88-112 | A process's rate is the sum of its connections' rates, in any visiting order |
| TransferTheorems.DeltaNeverOvercounts | src/network/tracker/TransferRateTracker.cpp:28-40 | For a counter that grows or restarts at zero any number of times, a delta never exceeds the traffic, and equals it without a restart |
| TransferTheorems.NeverOvercounts | src/network/tracker/TransferRateTracker.cpp:243-277 | A session's bytes never exceed the traffic since its first sample; without restarts they are last minus first |
| LeastTraffic.DeltaIsLeast | src/network/tracker/TransferRateTracker.cpp:28-40 | A delta is the least traffic that takes the counter from one reading to the next, through any growth and restarts: no history transferred less, and one transferred as much |
| LeastTraffic.SessionIsLeast | src/network/tracker/TransferRateTracker.cpp:243-277 | A session's bytes are the least traffic that explains all its readings |
| LeastTraffic.ReportedIsLeastTraffic | src/network/tracker/TransferRateTracker.cpp:71-355 | What is reported for a process is, modulo 2^64, the least traffic that explains the readings of all its counters, through any closing and reopening |
| TransferTheorems.CumulativeStep | src/network/tracker/TransferRateTracker.cpp:253-261 | In each direction a continuing counter advances by the delta modulo 2^64, and goes down exactly when the sum does not fit 64 bits |
| TransferTheorems.CumulativeIsMonotone | src/network/tracker/TransferRateTracker.cpp:260-261 | In each direction, while a session's bytes of that direction fit 64 bits, its counter is the exact total and never goes down |
| ClosedRecords.RecordsAccount | src/network/tracker/TransferRateTracker.cpp:326-335 | After any run the closed records of a process and the last bytes of the records that were overwritten add up, modulo 2^64, to its closed total |
| ClosedRecords.RecordsConserved | src/network/tracker/TransferRateTracker.cpp:326-335 | While the ended bytes fit 64 bits, the records add up to the closed total exactly when no overwritten record held bytes |
| ClosedRecords.ConservationIsExact | src/network/tracker/TransferRateTracker.cpp:326-335 | For every schedule of connections: the records add up to the closed total for all byte counters exactly when no key of the process ends again after a session of at least two samples |
| ClosedRecords.ReclosingOverwrites | src/network/tracker/TransferRateTracker.cpp:326-335 | One connection that ends with 100 bytes and ends again with none: the closed total is 100, the only record 0 |
| ClosedRecords.OneWayRecords | src/network/tracker/UploadTracker.cpp:126-132 | The one-way trackers keep records with the same bytes, so all of this holds of them |
| FiniteSums.TotalSplit | src/network/tracker/TransferRateTracker.cpp:88-112 | A sum over a map splits over any partition of its keys, so no visiting order matters |
| OneWayTracker.ProductRefinement | src/network/tracker/UploadTracker.cpp:65-141 | On the same snapshots the bandwidth tracker's active and closed connection maps project exactly onto those of the upload and download trackers |
| OneWayTracker.ActiveProjects | src/network/tracker/DownloadTracker.cpp:65-110 | The active entries agree in keys, baselines, cumulative bytes, names and times, in each direction |
| OneWayTracker.ClosedProjects | src/network/tracker/DownloadTracker.cpp:126-132 | The closed records agree too |
| OneWayTracker.OneWayRecordTells | src/network/tracker/UploadTracker.cpp:36-50 | Every field of a one-way record, from the snapshots |
| OneWayTracker.ClosedOneWayTells | src/network/tracker/DownloadTracker.cpp:126-132 | A key has a closed one-way record exactly if a session of it ended, and the record tells the last one |
| OneWayTracker.OneWayTracker.Update | src/network/tracker/UploadTracker.cpp:52-144 | One update takes the maps to the functions of the longer trace and returns every active entry once, in an arbitrary order, each with a record that tells its session |
| ConnectionTracker.ConnectionTracker.Update | src/network/tracker/ConnectionTracker.cpp:24-75 | The first update is silent; every later one returns each difference between the snapshots exactly once |
| ConnectionTracker.FirstConnectionsAreFirst | src/network/tracker/ConnectionTracker.cpp:24-53 | Of the rows with one key the first one is tracked |
| ConnectionTracker.EventsTellRows | src/network/tracker/ConnectionTracker.cpp:55-71 | A creation tells the first row of its key in the later snapshot, a closing that in the earlier one, and the other snapshot has no row with the key |
| ConnectionTracker.BatchFollows | src/network/tracker/ConnectionTracker.cpp:55-71 | In whatever order a batch is read, each key goes from its previous to its next presence, created only when absent and closed only when present |
| ConnectionTracker.DiffAnyOrder | src/network/tracker/ConnectionTracker.cpp:55-71 | Any permutation of a batch is a difference of the same snapshots |
| ConnectionTracker.EventsAlternate | src/network/tracker/ConnectionTracker.cpp:24-75 | Over a run the events of every key alternate between CREATED and CLOSED |
| ConnectionTracker.EventReplay | src/network/tracker/ConnectionTracker.cpp:24-75 | Applying all events since seeding to the seeding key set gives the current key set |
| Text.SplitLoop | src/network/utils/NetworkUtils.cpp:67-85 | The loop computes the parts between the separators |
| Text.SplitJoins | src/network/utils/NetworkUtils.cpp:67-85 | Joining the parts gives the string back and no part holds a separator |
| Text.SplitOfJoined | src/network/utils/NetworkUtils.cpp:67-85 | Splitting inverts joining |
| NetworkUtils.ParseDecimalOctet | src/network/utils/NetworkUtils.cpp:19-48 | Accepts exactly dec-octet, with its value |
| NetworkUtils.ParseHextet | src/network/utils/NetworkUtils.cpp:50-65 | Accepts exactly h16 |
| NetworkUtils.IsValidIpv4 | src/network/utils/NetworkUtils.cpp:88-106 | Accepts exactly IPv4address of section 3.2.2 of RFC 3986 |
| NetworkUtils.IsValidIpv6 | src/network/utils/NetworkUtils.cpp:108-199 | Accepts exactly IPv6address of section 3.2.2 of RFC 3986, elided and dotted forms included |
| NetworkUtils.IsPlainIpv6 | src/network/utils/NetworkUtils.cpp:144-198 | The part after the tail rewrite accepts exactly the addresses without a dotted tail |
| NetworkUtils.DottedAddress | src/network/utils/NetworkUtils.cpp:125-142 | An address with a dotted tail is valid iff the tail is an IPv4 address and the address with the tail replaced by two zero groups is valid |
| IpGrammar.GrammarByGroups | src/network/utils/NetworkUtils.cpp:144-198 | The nine alternatives of the grammar are eight groups, or at most seven around one elision, or such a head and a dotted tail |
| NetworkUtils.FamiliesAreDisjoint | src/network/utils/NetworkUtils.cpp:206-217 | No string is both kinds of address |
| NetworkUtils.DetectAddressFamily | src/network/utils/NetworkUtils.cpp:206-217 | The family is decided by the grammar alone, not by the order of the tests |
| NetworkUtils.HasRemoteEndpoint | src/network/utils/NetworkUtils.cpp:247-275 | True exactly for valid addresses that are not an unspecified spelling |
| Timeline.StableSortSorts | src/process/tracker/ProcessTimelineBuilder.cpp:87-103 | Sorting gives an ordered permutation |
| Timeline.SortIsStable | src/process/tracker/ProcessTimelineBuilder.cpp:27-28 | Equivalent events keep their order |
| Timeline.StableSortIsUnique | src/process/tracker/ProcessTimelineBuilder.cpp:27-28 | A sequence is ordered and keeps the order of equivalent events iff it is the sorted one |
| Timeline.OrderMeans | src/process/tracker/ProcessTimelineBuilder.cpp:87-103 | The order is by time, then by PID, then by the place of the kind among the enumerators |
| Timeline.SortIdempotent | src/process/tracker/TimelineQuery.cpp:196-201 | Sorting an ordered sequence changes nothing |
| Timeline.FilterCommutes | src/process/tracker/ProcessTimelineBuilder.cpp:27-33 | Selecting events commutes with stable sorting |
| Timeline.LatestDivides | src/process/tracker/TimelineEventHistory.cpp:70-85 | The latest events are the only division of the history with as many events as the limit allows, in chronological order, equivalent events as they arrived, and nothing left out later than anything kept |
| Timeline.Matching | src/process/tracker/TimelineEventHistory.cpp:41-48 | The lookup loop selects the matching events in order |
| Timeline.LookupMembers | src/process/tracker/TimelineQuery.cpp:37-49 | A lookup returns exactly the events that match, in order |
| ProcessTimelineBuilder.ProcessTimelineBuilder.Build | src/process/tracker/ProcessTimelineBuilder.cpp:18-34 | The global timeline is the sorted input and the buckets are its parts by process |
| ProcessTimelineBuilder.ProcessTimelineBuilder.GetProcessTimeline | src/process/tracker/ProcessTimelineBuilder.cpp:42-51 | The bucket of a process, or nothing, is the selection from the global timeline |
| TimelineQuery.ViewsAgree | src/process/tracker/TimelineQuery.cpp:23-49 | Sorting then selecting, selecting then sorting, and doing it again on a sorted timeline give one sequence, for every selection |
| TimelineQuery.SameTimelineByAllRoutes | src/process/tracker/TimelineEventHistory.cpp:38-52 | For the same events the builder's bucket, a query over the builder, a query over the history and the history's own lookup return the same sequence |
| TimelineQuery.TimelineQuery.ByRemoteDestination | src/process/tracker/TimelineQuery.cpp:51-68 | Returns, sorted, exactly the events that reach the query; nothing for an empty query |
| TimelineQuery.TimelineQuery.Recent | src/process/tracker/TimelineQuery.cpp:84-95 | The same division of the query's events |
| TimelineQuery.MatchesRemoteDestination | src/process/tracker/TimelineQuery.cpp:119-150 | An event reaches a query by equal remote, equal non-empty host, or occurrence in the remote or the description |
| TimelineQuery.QueryIsComplete | src/process/tracker/TimelineQuery.cpp:51-68 | A query by address returns, in stable order, every event that went to the address through any port, zero included |
| TimelineQuery.QueryIsSearch | src/process/tracker/TimelineQuery.cpp:119-150 | A query, bracketed or not, works as a substring search on all events exactly when its host is itself or nothing |
| TimelineQuery.PlainQuery | src/process/tracker/TimelineQuery.cpp:136-147 | A query whose host is itself or nothing reaches exactly the events that mention it |
| TimelineQuery.Overmatched | src/process/tracker/TimelineQuery.cpp:128-134 | Every other query reaches an event that mentions it nowhere |
| TimelineQuery.EndpointQuery | src/process/tracker/TimelineQuery.cpp:128-134 | A query with a port finds the same host behind every port, and else only what spells the query out |
| TimelineQuery.BareIpv6QueryOvermatches | src/process/tracker/TimelineQuery.cpp:170-193 | A concrete bare IPv6 query that matches a different address |
| Endpoint.HostFromEndpoint | src/process/tracker/TimelineQuery.cpp:152-194 | The scanning loop computes the specified host |
| Endpoint.HostIs | src/process/tracker/TimelineQuery.cpp:152-194 | The host is the piece in closed brackets at the front, or else what stands before a trailing colon and number, or else everything |
| Endpoint.FormatSpellsOut | src/process/tracker/TimelineEventCollector.cpp:267-284 | A printed endpoint is the address and, behind a colon, the port in decimal, unless it is zero |
| Endpoint.EndpointRoundTrip | src/process/tracker/TimelineEventCollector.cpp:267-284 | For a non-zero port and a non-empty address the host of the printed endpoint is the address iff it does not start with a bracket |
| Endpoint.ValidAddressRoundTrip | src/process/tracker/TimelineQuery.cpp:159-193 | Every valid IP address survives with a port; without one, IPv4 does, and IPv6 iff its last group is not decimal |
| Endpoint.HostUnchanged | src/process/tracker/TimelineQuery.cpp:154-193 | An endpoint is its own host exactly when it has neither a closed bracket at the front nor a trailing port |
| Endpoint.EndpointInjective | src/process/tracker/TimelineEventCollector.cpp:276-281 | Printed endpoints with ports determine address and port |
| TimelineEventHistory.StreamingEqualsBatch | src/process/tracker/TimelineEventHistory.cpp:16-31 | For a fixed clock reading, adding events one by one stores exactly what adding them in one batch stores, for every history and all limits |
| TimelineEventHistory.StreamingOverTime | src/process/tracker/TimelineEventHistory.cpp:114-149 | With a clock that never goes back, and events that carry timestamps, or limits without expiry, or room for all of them, the chronology after single adds at their own times is that of one batch at the last time |
| TimelineEventHistory.RoomyStreaming | src/process/tracker/TimelineEventHistory.cpp:114-149 | If the history and the batch fit the limit together, single adds over time and the one batch both store exactly the unexpired events, in the order of their arrival |
| TimelineEventHistory.StreamingExactIffAgeless | src/process/tracker/TimelineEventHistory.cpp:114-149 | For each pair of limits: this holds for all histories, batches and clocks that never go back exactly when the age limit is off |
| TimelineEventHistory.UntimedEventsAreEvicted | src/process/tracker/TimelineEventHistory.cpp:130-145 | For all limits with expiry, a history, a batch and two clock readings for which single adds leave nothing and the batch leaves an untimed event |
| TimelineEventHistory.RetainKeepsNewest | src/process/tracker/TimelineEventHistory.cpp:114-149 | A cleanup splits the events into expired, evicted and kept ones; at most the maximum is kept, eviction only fills to the maximum, and no evicted event is later than a kept one |
| TimelineEventHistory.RetainMeetsLimits | src/process/tracker/TimelineEventHistory.cpp:114-149 | What a cleanup leaves is exactly what the limits allow: the events that are untimed or no older than the age limit, as they arrived, or the latest of them if they are too many |
| TimelineEventHistory.LimitsByEvent | src/process/tracker/TimelineEventHistory.cpp:114-149 | Event by event: what stays is not too old, and what went without being too old went because the history was full, and is later than nothing that stays |
| TimelineEventHistory.RetainTwice | src/process/tracker/TimelineEventHistory.cpp:114-149 | Cleaning up again at the same time removes nothing |
| TimelineEventHistory.TimelineEventHistory.Cleanup | src/process/tracker/TimelineEventHistory.cpp:114-149 | Leaves exactly the events that the two limits allow, none older than the age limit, and counts the removed ones |
| TimelineEventHistory.TimelineEventHistory.Add | src/process/tracker/TimelineEventHistory.cpp:16-20 | Appends one event and leaves what the limits allow at that time |
| TimelineEventHistory.TimelineEventHistory.AddAll | src/process/tracker/TimelineEventHistory.cpp:22-31 | Appends a batch and leaves what the limits allow, with one cleanup; an empty batch changes nothing |
| TimelineEventHistory.TimelineEventHistory.SetMaxEvents | src/process/tracker/TimelineEventHistory.cpp:97-101 | The limit is at least one and is enforced at once |
| TimelineEventHistory.TimelineEventHistory.SetMaxAge | src/process/tracker/TimelineEventHistory.cpp:108-112 | The age limit is enforced at once |
| TimelineEventHistory.TimelineEventHistory.GetRecent | src/process/tracker/TimelineEventHistory.cpp:70-85 | Returns such a division: in order, as many events as the limit allows (zero is no limit), and nothing left out is later than anything returned |
| TimelineEventCollector.KeptOncePerKey | src/process/tracker/TimelineEventCollector.cpp:254-265 | The number of stored events is the number of seen keys |
| TimelineEventCollector.FirstIsKept | src/process/tracker/TimelineEventCollector.cpp:254-265 | The first observation with a key is stored |
| TimelineEventCollector.KeptIsFirst | src/process/tracker/TimelineEventCollector.cpp:254-265 | Only first observations are stored |
| TimelineEventCollector.Recollection | src/process/tracker/TimelineEventCollector.cpp:258-261 | A batch whose keys were all collected adds nothing |
| TimelineEventCollector.ReopeningIsNotRecorded | src/process/tracker/TimelineEventCollector.cpp:310-323 | Of the openings (or closings) of one connection only the first is stored |
| TimelineEventCollector.TransferKeyInjective | src/process/tracker/TimelineEventCollector.cpp:325-349 | A transfer key determines kind, PID, protocol, remote, port and bytes, whatever the address holds |
| TimelineEventCollector.ConnectionKeyInjective | src/process/tracker/TimelineEventCollector.cpp:310-323 | Connection keys agree iff kind and identity agree, if the addresses are free of the separator |
| TimelineEventCollector.TimelineEventCollector.TryAdd | src/process/tracker/TimelineEventCollector.cpp:254-265 | Stores the event in its own process's bucket iff its key is new |
| TimelineEventCollector.TimelineEventCollector.CollectProcessEvents | src/process/tracker/TimelineEventCollector.cpp:11-46 | Offers the creations, in order, and counts what was stored |
| TimelineEventCollector.TimelineEventCollector.CollectActiveProcesses | src/process/tracker/TimelineEventCollector.cpp:48-78 | Offers every process of a snapshot and counts what was stored |
| TimelineEventCollector.TimelineEventCollector.CollectConnectionEvents | src/process/tracker/TimelineEventCollector.cpp:80-117 | Offers every change, with its resolved name and printed endpoints |
| CollectedEvents.ChangesAreTold | src/process/tracker/TimelineEventCollector.cpp:80-117 | The first change of a kind on a connection is stored with its time, owner, looked-up name, both ends in full and the right kind, and a query by its remote address returns it; whatever a batch adds tells one of its changes |
| CollectedEvents.CreationsAreTold | src/process/tracker/TimelineEventCollector.cpp:11-46 | The first creation of a PID is stored with its time and name, and whatever a batch adds tells a creation |
| CollectedEvents.SeenAreTold | src/process/tracker/TimelineEventCollector.cpp:48-78 | So are the running processes |
| CollectedEvents.TransfersAreTold | src/process/tracker/TimelineEventCollector.cpp:119-189 | The first showing of a session's bytes is stored with its time, name, remote and bytes in the right direction, and whatever a batch adds tells a session with bytes |
| CollectedEvents.ChangeKeys | src/process/tracker/TimelineEventCollector.cpp:310-323 | Changes share a key exactly if they are of one kind on connections with one identity key |
| TimelineEventCollector.TimelineEventCollector.CollectTransferStats | src/process/tracker/TimelineEventCollector.cpp:119-189 | Offers every entry with bytes, in either direction |
| TimelineEventCollector.TimelineEventCollector.Collect | src/process/tracker/TimelineEventCollector.cpp:191-204 | Collects from the four sources in order and returns the sum of the counts |
| TimelineEventCollector.TimelineEventCollector.GetAllEvents | src/process/tracker/TimelineEventCollector.cpp:223-235 | A permutation of the stored events that keeps the order inside every process, for any map order |
| TimelineEventCollector.TimelineEventCollector.EventCount | src/process/tracker/TimelineEventCollector.cpp:237-246 | The count is the number of seen keys and the sum of all returned counts since the reset |
| TimelineEventCollector.TimelineEventCollector.GetEventsForProcess | src/process/tracker/TimelineEventCollector.cpp:212-221 | Exactly the stored events of the process, in order |
| TimelineSummaryBuilder.Summarize | src/process/tracker/TimelineSummaryBuilder.cpp:113-224 | The loops compute the first and last time, the counts, the distinct remotes, the totals of the destination peaks, a most active destination and the hints |
| TimelineSummaryBuilder.TotalsAndBest | src/process/tracker/TimelineSummaryBuilder.cpp:188-203 | For every map order the totals are the wrapped sums and no destination is strictly more active than the chosen one |
| TimelineSummaryBuilder.MostActiveIsLargest | src/process/tracker/TimelineSummaryBuilder.cpp:193-203 | When upload plus download of every destination fits 64 bits, the chosen destination has the largest |
| TimelineSummaryBuilder.ComparisonIsTrue | src/process/tracker/TimelineSummaryBuilder.cpp:21-34 | For sums below a limit the comparison is that of the true sums exactly if the limit is at most 2^64 |
| TimelineSummaryBuilder.WrapPicksSmaller | src/process/tracker/TimelineSummaryBuilder.cpp:21-34 | Three events for which a destination with one byte is chosen over one with 2^64 |
| TimelineSummaryBuilder.TiesAreEqual | src/process/tracker/TimelineSummaryBuilder.cpp:21-34 | Destinations of which neither is more active have identical statistics |
| TimelineSummaryBuilder.SummariesAgree | src/process/tracker/TimelineSummaryBuilder.cpp:193-203 | Summaries of the same events differ at most in a choice between tied destinations |
| TimelineSummaryBuilder.SummaryPermutes | src/process/tracker/TimelineSummaryBuilder.cpp:113-224 | Times, counts, totals, the validity of the choice and the hints, but for a quoted description, do not depend on the order of the events |
| TimelineSummaryBuilder.PeaksOfConcat | src/process/tracker/TimelineSummaryBuilder.cpp:169-185 | The peaks of a concatenation are the larger peaks of the parts, and the counts add up |
| TimelineSummaryBuilder.DominanceIsSound | src/process/tracker/TimelineSummaryBuilder.cpp:239-246 | The dominance hint is right for every upload total iff five times the inbound total fits 64 bits |
| TimelineSummaryBuilder.DominanceOverflow | src/process/tracker/TimelineSummaryBuilder.cpp:239-246 | A concrete total for which it is wrong |
| TimelineSummaryBuilder.HintsMean | src/process/tracker/TimelineSummaryBuilder.cpp:226-277 | Each hint is given exactly for its threshold: ten mebibytes sent, a mebibyte and five times the received bytes sent, eight destinations, five uploads, a suspicious event; each once, in this order |
| TimelineSummaryBuilder.FirstNameIsFirst | src/process/tracker/TimelineSummaryBuilder.cpp:136-140 | The name is the first one that is not empty |
| TimelineSummaryBuilder.FirstDescriptionIsFirst | src/process/tracker/TimelineSummaryBuilder.cpp:161-167 | The quoted description is that of the first suspicious event that has one |
| TimelineSummaryBuilder.TimelineSummaryBuilder.ForProcessId | src/process/tracker/TimelineSummaryBuilder.cpp:61-73 | Summarises exactly the events of the process |
| TimelineSummaryBuilder.TimelineSummaryBuilder.ForAllProcesses | src/process/tracker/TimelineSummaryBuilder.cpp:89-106 | One summary for every PID present, strictly ascending, each a summary of that process's events |
| EndToEnd.SummaryBound | src/process/tracker/TimelineSummaryBuilder.cpp:169-203 | For trackers with independent clocks, a collector that takes any other observations in between, and totals below 2^64: if no session of a process is shown under two remotes, a summary of any part of the collected events never totals more than the bandwidth tracker reports; if nothing was evicted and every session has a remote of its own and is at it when it ends, it totals the same |
| CollectedSessions.PeaksBounded | src/process/tracker/TimelineEventCollector.cpp:119-153 | In every reachable state below 2^64 in which no session was shown under two remotes, the collected peaks of a process and the bytes not yet shown add up to at most what it transferred |
| EndToEndExact.BoundIsExact | src/process/tracker/TimelineSummaryBuilder.cpp:169-203 | For every schedule of connections: the peaks stay within the traffic for all byte counters exactly when no session of the process is shown under two remotes |
| EndToEnd.PeaksComplete | src/process/tracker/TimelineEventCollector.cpp:119-153 | The peaks of all collected events add up to exactly what the process transferred, below 2^64, when every session has a remote of its own and is at it when it ends |
| EndToEndExact.EqualityIsExact | src/process/tracker/TimelineSummaryBuilder.cpp:169-203 | For every schedule of connections: the peaks equal the traffic for all byte counters exactly under that condition |
| EndToEndExact.SharedRemoteLoses | src/process/tracker/TimelineSummaryBuilder.cpp:169-185 | Two sessions shown under one remote lose a byte for some counters |
| EndToEndExact.HiddenEndLoses | src/process/tracker/TimelineSummaryBuilder.cpp:169-170 | So does a session that ends without a remote |
| EndToEndExact.SharedKeyOvercounts | src/network/tracker/UploadTracker.cpp:65-110 | Two connections that share their key, for which the summary says 250 bytes and the tracker 150 |
| CollectedSessions.CleanAddressesKeepRemotes | src/network/tracker/UploadTracker.cpp:9-20 | If the separator occurs in no local, or in no remote, address of the process, its sessions keep their remotes |
| CollectedSessions.KeptRemotesAreOne | src/network/tracker/UploadTracker.cpp:65-110 | Sessions that keep their remotes are never shown under two |
| EndToEnd.BytesIgnoreClocks | src/network/tracker/TransferRateTracker.cpp:243-277 | What a process transferred depends on the snapshots, not on the clock readings |
| CollectedSessions.Covered | src/process/tracker/TimelineEventCollector.cpp:131-149 | Below 2^64, deduplication never hides a session: an event with its PID, remote and bytes is stored |
| CollectedSessions.OthersAreForeign | src/process/tracker/TimelineEventCollector.cpp:11-189 | Process events, active processes, connection events and the transfers of the other direction show no bytes of a direction and share no key with its transfers |
| CollectedSessions.NewEventSource | src/network/tracker/UploadTracker.cpp:65-141 | Every event with bytes that a round adds shows the bytes of a session continued by that update |
| EndToEnd.Monitor | src/process/tracker/TimelineEventCollector.cpp:191-204 | The bound and the equality, under the same hypotheses and in both directions, for the classes themselves: three trackers on the same snapshots with a clock each, and one collector that takes process events, connection events, uploads and downloads in every round |
| DnsCache.PurgeChangesNoLookup | src/network/cache/DnsCache.cpp:56-75 | A purge changes no later answer of the cache |
| DnsCache.DnsCache.PurgeExpired | src/network/cache/DnsCache.cpp:56-75 | The erasing loop removes exactly the expired entries and counts them |
| DnsCache.DnsCache.Get | src/network/cache/DnsCache.cpp:18-34 | Finds an entry iff it is stored and not yet expired |
| DomainResolver.DomainResolver.Resolve | src/network/intelligence/DomainResolver.cpp:149-210 | Answer and cache for every outcome of the lookup, exceptions included: a hostname that the lookup names is returned as resolved and found in the cache until the TTL ends, a failure or an exception is reported as failed, anything else as not found; an invalid address touches nothing; on a noted run with a clock that never goes back a hit is what the history remembers |
| DomainResolver.AnswerSays | src/network/intelligence/DomainResolver.cpp:149-210 | In terms of the reply alone: endpoint and family of every answer, the answer to an invalid address, what a live lookup answers and leaves in the cache for that address and for others, and what a hit answers |
| DomainResolver.DomainResolver.ResolveAll | src/network/intelligence/DomainResolver.cpp:212-225 | A batch is resolved from left to right, each request seeing what the earlier ones cached |
| DomainResolver.DomainResolver.ResolveIp | src/network/intelligence/DomainResolver.cpp:227-240 | Resolving a bare address answers and caches what resolving an endpoint with that address and family does |
| DomainResolver.DomainResolver.Refresh | src/network/intelligence/DomainResolver.cpp:242-245 | After a refresh the address is not found, so the next resolve asks the lookup |
| DomainResolver.Coherence | src/network/intelligence/DomainResolver.cpp:149-210 | For a clock that never goes back, the cache says at every later time what the latest live lookup of the address taught, while that is younger than the TTL it was stored with |
| DomainResolver.HitsAreFresh | src/network/intelligence/DomainResolver.cpp:169-179 | Every hit returns the hostname that the latest live lookup of the address replied with, or nothing if it named none, less than its storage-time TTL later |
| DomainResolver.LookupsAreSpaced | src/network/intelligence/DomainResolver.cpp:165-179 | With no force, refresh or clear after it, a live lookup is followed by another iff its TTL has passed |
| DomainResolver.PurgesAreInvisible | src/network/cache/DnsCache.cpp:56-75 | A run with its purges left out answers every later request the same |
| DomainResolver.UnpurgedHistory | src/network/cache/DnsCache.cpp:56-75 | Purging causes no extra live lookup and saves none |
| ProcessTracker.ProcessTracker.Update | src/process/tracker/ProcessTracker.cpp:9-64 | The first row of every PID is tracked, as running; the first update is silent, and every later one returns each difference of the deduplicated snapshots exactly once |
| ProcessTracker.FirstRowIsTracked | src/process/tracker/ProcessTracker.cpp:22-31 | Of the rows with one PID the first one is tracked, all of it but for the status |
| ProcessTracker.EventsTellRows | src/process/tracker/ProcessTracker.cpp:33-64 | A creation tells the first row of its PID in the later snapshot, a termination that in the earlier one, and the other snapshot does not list the PID |
| ConnectionAttributor.CacheIsHistory | src/network/attribution/ConnectionAttributor.cpp:9-30 | The cache holds exactly the PIDs known since the attributor's last reset, each with its last snapshot's record, running if tracked now (or orphaned by a reset of the tracker) and terminated else |
| ConnectionAttributor.KnownIffTracked | src/network/attribution/ConnectionAttributor.cpp:9-30 | If the attributor was not reset, these are all PIDs ever tracked |
| ConnectionAttributor.RunningIffTracked | src/process/tracker/ProcessTracker.cpp:9-64 | Every PID is marked running iff it is tracked now, exactly when no reset of the tracker orphaned one |
| ConnectionAttributor.ResetOrphans | src/process/tracker/ProcessTracker.cpp:82-86 | A process is seen and the tracker is reset: it is marked running while nothing tracks it; a snapshot with it or a reset of the attributor mends this, a snapshot without it does not |
| ConnectionAttributor.AttributionFollowsTracking | src/network/attribution/ConnectionAttributor.cpp:99-113 | On every run, resets included, attribution finds a process for exactly the known PIDs and calls it terminated exactly when it is neither tracked nor orphaned; without resets, for the PIDs ever tracked and exactly when not tracked now |
| ConnectionAttributor.AttributedRow | src/network/attribution/ConnectionAttributor.cpp:99-113 | Attribution shows the first row of the PID in the latest snapshot that lists it, as terminated exactly if it says so, and nothing for an unknown PID |
| ConnectionAttributor.SyncedAt | src/network/attribution/ConnectionAttributor.cpp:9-30 | What a synchronisation with a difference, in any order, makes of each PID |
| ConnectionAttributor.ConnectionAttributor.SyncProcesses | src/network/attribution/ConnectionAttributor.cpp:9-30 | Refreshes the active processes, then applies the events in order |
| ConnectionAttributor.ConnectionAttributor.AttributeAll | src/network/attribution/ConnectionAttributor.cpp:32-60 | One attributed connection for every key of the snapshot, in order, held by process and by key |
| ConnectionAttributor.DistinctRows | src/network/attribution/ConnectionAttributor.cpp:42-54 | The attributed rows are the first rows of their keys, all of them, in the order of the snapshot |
| ConnectionAttributor.Cycle | src/network/attribution/ConnectionAttributor.cpp:9-30 | An update followed by a synchronisation keeps the classes on a legal run, and without resets the marks right |
| ConnectionAttributor.Restart | src/process/tracker/ProcessTracker.cpp:82-86 | A reset of the tracker alone keeps the classes on a legal run |
| ConnectionAttributor.Forget | src/network/attribution/ConnectionAttributor.cpp:80-85 | So does a reset of the attributor alone |

## Left out

- The Windows collectors (`NetworkMonitor`, `ProcessMonitor`): foreign calls and buffers; their snapshots are inputs.
- The default reverse lookup and the Winsock set-up: the lookup is an oracle with any outcome.
- All text formatting for display (`toString`, `formatEntry`, `formatBytes`, `formatRate`, UTC times, hint wording): only the hints' thresholds and the keys are modelled.
- `EventDispatcher`, `ProtocolPortAnalyzer`, `RemoteEndpointIdentifier`, `isLoopback` and the getters: thin wrappers that would only add easy members.
- IEEE rounding of rates and the tick width of clocks: rates and times are reals.
- Hash tables, move semantics and memory: maps and sequences are values held in fields; the code shares none of them.
- Locales: digits and letters are ASCII.
- `UploadTracker` and `DownloadTracker` are one class with a constant direction, and `collectUploadStats` and `collectDownloadStats` one method with a direction, because the sources are the same text up to the counter.
- Process names: the code picks them in map order where several are known, so an active process's name is specified as that of one of its running connections, if any has one, and otherwise as some name the process was seen with.
- Library algorithms: `std::stable_sort` is an insertion sort, proved to be the only stable sort; `std::remove_if` is the selection loop of the lookups.
- TimelineEventHistory.StreamingOverTime: compares chronologies, because an early eviction also sorts the stored order.
