# Verification of the AIS reception simulator

This project models the simulator's reception engine and the layers that must agree with it, and proves what each of
them keeps over every run. `dafny verify dfyconfig.toml` checks all of it.

Times are integer nanoseconds since 0001-01-01T00:00:00Z, virtual speed is an integer number of hundredths, and radio and
geometry are exact reals. What the engine only uses (vessel generation, motion, reception draws, the codec, the radio
model, coverage) is a record of functions, `Worlds.World`; `RealWorld` proves that the program's own codec, radio model
and coverage meet the assumptions (`WorldSound`) made about it.

| modules | what they are |
|---|---|
| Basics, Decimal, Model, Sorting, Reals, Worlds | shared values, decimal strings, sorting, arithmetic, the engine's surroundings |
| Station, RadioModel, CoverageCut | station definitions and shadow sectors, link budget and coverage bisection, the antimeridian cut |
| Engine | the engine's commands as functions on values: the specification of the classes |
| Emission, RateWindow, HistoryRing, Receiving, Targets, Listening | each derived structure against a simple unbounded log |
| Runs, Reachable, TargetRuns, Split, Versions | the invariant of whole runs, the target store, split calls, revisions as version keys |
| Stores, Simulators | the classes that update the store and the simulator in place, proved equal to Engine |
| Pacing, Resumption, Drivers | the real-time driver: conservation of time, resumption, the class |
| Wire, Agreement, Projections, Projectors | the display's checks as predicates, and the class that decides them step by step |
| Snapshots, Recents, HonestStations, HonestTargets, HonestSnapshots, HonestRuns, RealWorld | what the engine serves, and that the display never rejects it |
| AisBits, AisCodec, AisMethods, JsonScan | the type 1 position codec and the decimal string scanner |
| HistoryLogs, HistoryInspecting, HistoryInspectors, CoverageCache | cursor readers, the browser's history inspector and coverage layers |
| StationEditing, StationServer, StationEditors, FleetPolling, FleetPages | the browser protocols of the manager pages, as steps between awaits |

Each class is proved against a function of its old state (`View() == F(old(View()))`, `Value() == F(old(Value()))`), and
what the program promises is proved about those functions; the classes of the browser also keep a `Valid` that ties the
page to what the server did, and each handler states what it promises in those terms. A run is a list of commands or steps of any length; a trace
records everything sent and received since New and is what the bounded structures are compared with.

Where the code and a simple reading of its promises differ:

- The greatest targets are kept only because reports of one instant come in MMSI order; `HoldsGreatest` relies on that
  order, which `Emission` proves, and removals of stations are excluded since they forget receptions.
- Split calls agree up to the state revision, which counts calls.
- The entry test of a contour ignores the bearing, so a shadowed bearing may stay at radius 0 without reaching the
  threshold there. `RadioModel.RadiusReachesExactly` says exactly when, `RadioModel.ShadowedRadiusMisses` shows a case.
- The manager page protects confirmed writes from polls but not newer polls from the answer of an older write.
  `FleetPolling.AnswersShowOlderExactly` says exactly when, `FleetPolling.AnswersMayShowOlder` shows a case.

## Model

| member | source | states |
|---|---|---|
| Decimal.ParseInvertsFormat | display/client.go:306-317 | parsing the decimal text of any number gives the number back exactly if it fits 64 bits, and is refused otherwise |
| Decimal.ParseAcceptsCanonical | display/client.go:306-317 | a string is accepted exactly if it is canonical, and formatting the parsed value gives the string back |
| JsonScan.ScanValue | display/client.go:261-304 | scanning the tokens of one JSON value with the frame stack succeeds exactly if a recursive walk of its tree does (plus the remembered key), and leaves the enclosing stack as it should be for the next value |
| JsonScan.CheckDecimalStrings | display/client.go:261-304 | the one-pass scanner accepts a stream of documents exactly if in each of them every string directly under a decimal key is canonical |
| Station.ClashIffShared | simulation/station.go:350-387 | two spans of different sectors overlap exactly if some bearing lies in two sectors, sectors wrapping north and ending at 0 included |
| Station.ValidateSectors | simulation/station.go:350-387 | the loops accept exactly the lists of at most 8 in-range, nonempty, pairwise disjoint sectors |
| Station.ShadowLossIsTheCoveringLoss | simulation/reception.go:160-171 | among disjoint sectors the loss at a bearing is that of the one sector covering it, and 0 if none does |
| Station.ValidityIsOrderFree | simulation/station.go:350-387 | permuting valid sectors keeps them valid |
| Station.CanonicalSectors | simulation/station.go:301-322 | the canonical sector list is valid, a fixed point, the same for every permutation, and has the same loss at every bearing |
| Station.CanonicalFormIsCanonical | simulation/station.go:301-322 | the canonical definition is canonical and canonicalising it again changes nothing |
| Station.CanonicalStation | simulation/station.go:301-322 | returns the canonical form of exactly the valid definitions |
| RadioModel.DecodeProbabilityMonotone | simulation/reception.go:132-156 | lower margin and longer distance never raise the decode probability; it is 0 from the horizon on |
| RadioModel.LinksAreInRange | simulation/reception.go:80-114 | every link of a valid transmitter and station lies in the ranges the display checks |
| RadioModel.ProbabilityFallsWithDistance | simulation/reception.go:90-156 | along one bearing the reception probability never increases with distance, for any increasing logarithm |
| RadioModel.RadiusBracketsReach | simulation/reception.go:226-250 | a contour radius is 0 or reaches the threshold, radius + horizon/65536 does not, and so nothing farther does |
| RadioModel.UnshadowedRadiusReaches | simulation/reception.go:226-250 | where no shadow lies the entry test is enough: the radius it lets through reaches the threshold |
| RadioModel.RadiusReachesExactly | simulation/reception.go:226-250 | a radius reaches the threshold along its bearing exactly if the threshold is reached at the station with that bearing's shadow; otherwise it is 0 |
| RadioModel.ShadowedRadiusMisses | simulation/reception.go:226-250 | a valid station whose contour is not empty and whose radius on a shadowed bearing is 0 and below the threshold |
| RadioModel.LowerThresholdReachesFurther | simulation/reception.go:226-250 | at every bearing the radius for a lower threshold is at least that for a higher one |
| RadioModel.CoverageNests | simulation/reception.go:212-250 | on either channel the least and greatest radius for 0.9 never exceed those for 0.5, and a contour for 0.9 that is not empty has one for 0.5 around it |
| RadioModel.Contour | simulation/reception.go:226-250 | the nested loops compute, bearing by bearing, the sixteenth bracket of the bisection and the least and greatest radius |
| RadioModel.BearingsCorrect | simulation/reception.go:255-267 | the sampled bearings increase strictly within [0, 360) and are exactly the 5 degree steps and both sides of each sector boundary, at most 72 + 4 per sector |
| RadioModel.CoverageBearings | simulation/reception.go:255-267 | the appending loops, sort and compaction give exactly those bearings |
| RadioModel.ComputeCoverage | simulation/reception.go:212-221 | the loops give one contour for each channel and threshold, in that order |
| RadioModel.CoverageIsSound | simulation/reception.go:212-250 | every contour of a valid station has ordered radii and a ring of at most 104 points within [-540, 540] degrees |
| CoverageCut.ClipLongitude | simulator/coverage.go:51-74 | the pass with the previous vertex carried along computes the clip edge by edge |
| CoverageCut.CutConservesArea | simulator/coverage.go:51-74 | the two sides of a cut at any meridian have signed areas that add up to the ring's |
| CoverageCut.StripsConserveArea | simulator/coverage.go:13-47 | for any ring within [-540, 540] degrees the areas of the three strip pieces, before winding, add up to the ring's |
| CoverageCut.ReverseNegatesArea | simulator/coverage.go:40-42 | reversing a piece negates its signed area, so a clockwise piece becomes counterclockwise |
| CoverageCut.StripGeometry | simulator/coverage.go:22-45 | clipping, translating, summing the area, reversing in place and closing give the strip's polygons |
| CoverageCut.CoverageGeometry | simulator/coverage.go:13-47 | the loop over the three strips gives the whole MultiPolygon |
| CoverageCut.StripPolygonIsGood | simulator/coverage.go:22-45 | every emitted polygon is closed, counterclockwise, has at least 4 positions within [-180, 180] and a bounded number of them (sections 3.1.6 and 3.1.9 of RFC 7946) |
| CoverageCut.ValidateGeometry | display/validate.go:276-303 | the nested loops accept exactly the bounded MultiPolygons of closed rings in range |
| CoverageCut.GeometryIsAccepted | simulator/coverage.go:13-47 | the cut of every ring of at most 105 points passes the display's geometry check |
| Emission.TicksEmitInOrder | simulation/simulator.go:348-370 | ticks number reports without gaps, in time order, vessels in creation order with alternating channels, and touch nothing but vessels, sequence and update time |
| Emission.NewVesselsEmitInOrder | simulation/simulator.go:210-236 | new vessels report in creation order at the current instant and nothing else changes |
| RateWindow.TallyPartitions | simulation/observation.go:147-178 | the lifetime counters partition every opportunity by outcome and channel |
| RateWindow.RingIsSlidingWindow | simulation/observation.go:370-393 | summing the fresh buckets of the 60-slot ring gives exactly the opportunities and receptions of the last 60 seconds of the whole event log |
| RateWindow.WindowWithinLifetime | simulation/observation.go:370-393 | the window never counts more than the lifetime, nor more receptions than opportunities |
| HistoryRing.PushRetains | simulation/observation.go:224-231 | pushing keeps the ring equal to the newest 1000 records of the unbounded log |
| HistoryRing.RetainedSequences | simulation/observation.go:224-236 | the i-th oldest retained record is a known record of the log, with a known sequence |
| Receiving.ReceiveAllHears | simulation/observation.go:103-143 | although every report is evaluated at all stations in turn, each station's counters and records depend on that station alone |
| Receiving.ReceiveAllKeepsBatch | simulation/observation.go:103-143 | records stay in transmission order and belong to configured stations, and receptions grow by exactly the new records |
| Receiving.ReceiveAllCounts | simulation/observation.go:131-143 | received transmissions grow by exactly the number of distinct transmissions among the new records |
| Targets.ExpireKeeps | simulation/observation.go:273-301 | expiry leaves only young observations, keeps the store's invariant, counts no eviction and adds nothing |
| Targets.RecordKeepsTargets | simulation/observation.go:240-270 | recording stores the reception as the newest of its station and MMSI, keeps the bound, evicts at most one target and leaves every other one alone |
| Targets.RecordKeepsGreatest | simulation/observation.go:240-270 | a reception no earlier than the log joins the greatest targets by (time, MMSI) and displaces at most the least |
| TargetRuns.TargetStoreRefinesLog | simulation/observation.go:205-301 | in every run from New each stored observation is the latest of its station and MMSI and nothing young is missing without an eviction; without removals the stored MMSIs are exactly the 1000 greatest by (last reception, MMSI) of the young ones |
| Listening.ListensThrough | simulation/observation.go:103-178 | through any batch a station's ring, last sequence, counters and rate ring agree with its unbounded log of hearings and receptions |
| Reachable.NewInv | simulation/simulator.go:136-178 | a successful New establishes the whole-engine invariant |
| Reachable.CommandKeepsInv | simulation/simulator.go:189-405 | every command, failed or not, keeps the invariant: store keys are the configured stations, and rings, rate rings, counters, targets and messages agree with the log of the run |
| Split.AdvanceSplits | simulation/simulator.go:258-377 | Advance(a) then Advance(b) and Advance(a + b) succeed together, send the same reports and leave engines equal up to the state revision |
| Split.ElapseSplits | simulation/simulator.go:274-377 | the same for Elapse, the carried remainder included |
| Split.SameReplies | simulation/simulator.go:189-310 | no command can tell two engines apart that differ in the state revision only, short of that revision's end |
| Split.RunsStaySame | simulation/simulator.go:189-405 | whatever commands follow, engines equal up to revision stay so |
| Split.DivisionIrrelevant | simulation/simulator.go:274-377 | however the same real time is divided into calls, delivery succeeds alike, sends the same reports and leaves engines equal up to revision |
| Split.ElapseKeepsReady | simulation/simulator.go:274-287 | a successful Elapse adds exactly real time times speed, in hundredths of a nanosecond, and leaves speed and stations alone |
| Stores.StationReceptions.Push | simulation/observation.go:224-231 | the array ring is updated in place to the specified ring |
| Stores.StationReceptions.RecordAt | simulation/observation.go:234-236 | for every log whose newest records the ring retains, index i is the log's record that far after the first retained one |
| Stores.ReceptionStore.Evict | simulation/observation.go:259-270 | deletes exactly the target least by (last reception, MMSI) |
| Stores.FindVictim | simulation/observation.go:259-270 | the loop finds that target whatever order the map is walked in |
| Stores.ReceptionStore.Record | simulation/observation.go:240-255 | makes the reception the latest of its station and MMSI, evicting first if a new MMSI does not fit |
| Stores.ReceptionStore.RemoveObservations | simulation/observation.go:285-301 | drops exactly the matching observations, recomputes each newest time and deletes empty targets, whatever the walking order |
| Stores.ReceptionStore.Expire | simulation/observation.go:273-275 | drops exactly the observations at least 600 seconds old |
| Stores.ReceptionStore.Apply | simulation/observation.go:205-221 | installs counters, pushes every record and records it after expiring at each new time; it cannot fail since every record's station has a ring |
| Stores.ReceptionStore.RemoveStation | simulation/observation.go:279-282 | forgets one station's ring and observations and nothing else |
| Simulators.Simulator.Receive | simulation/observation.go:114-143 | one report evaluated at every station in order; none if a reception sequence would overflow at some station |
| Simulators.Simulator.SetCount | simulation/simulator.go:189-240 | replies and changes exactly as specified; on any failure the object is as before |
| Simulators.Simulator.AdvanceStaged | simulation/simulator.go:321-377 | emits due ticks on a staged copy and commits; an encoding failure, an exhausted sequence or a cancellation at any point leaves the object as before |
| Simulators.Simulator.Advance | simulation/simulator.go:258-265 | as specified, or an error and an unchanged object |
| Simulators.Simulator.Elapse | simulation/simulator.go:274-287 | as specified, or an error and an unchanged object, remainder included |
| Simulators.Simulator.SetSpeed | simulation/simulator.go:295-310 | an unchanged speed changes nothing; otherwise speed and revision change and nothing else |
| Simulators.Simulator.AddStation | simulation/station.go:116-144 | adds the canonical station under the next ID with an empty ring; on failure the object is as before |
| Simulators.Simulator.UpdateStation | simulation/station.go:156-192 | an equal definition changes nothing; otherwise the revisions grow and coverage is computed again only if more than the name changed |
| Simulators.Simulator.RemoveStation | simulation/station.go:202-220 | removes the station, its ring and its observations; on failure the object is as before |
| Simulators.Start | simulation/simulator.go:136-178 | New: a fresh valid simulator in the specified first state, or the specified error |
| Versions.RunsEvolve | simulation/station.go:116-220 | between any two moments of a run IDs are never reused, the set revision determines the stations, a configuration revision the station, and an RF revision everything but the name, coverage included |
| Versions.CommandRevision | simulation/simulator.go:380-422 | a command keeps the state revision exactly if it keeps everything but the carried remainder |
| Versions.RunsRevision | simulation/simulator.go:408-422 | two moments of a run with one state revision are one state up to the carried remainder |
| Versions.ReceiversMatchRevisions | simulation/observation.go:181-199 | in every run receptions of one station and channel with equal configuration revision carry equal receiver snapshots, with equal RF revision equal up to the name |
| CoverageCache.LayersAreNeverStale | ui/internal/assets/static/js/display.js:153-181 | whichever moments of a run were drawn, in whatever order, after drawing a snapshot each of its stations' cached layer is that station's own coverage and there is no other layer |
| Pacing.SettlementConserves | internal/simdriver/driver.go:248-277 | settlement moves the baseline by delivered time, or all of it while paused, never past the sample, and adds exactly that time times speed |
| Pacing.ChunkFits | internal/simdriver/driver.go:248-277 | no chunk exceeds the longest Advance at any speed and with any carried remainder |
| Pacing.PreparedEditsApply | internal/simdriver/driver.go:210-234 | after the checks and the settlement, a valid edit can fail only by running out of a counter |
| Pacing.RunsConserveTime | internal/simdriver/driver.go:75-277 | over any run of heartbeats, speed changes, pauses, edits, failures and the stop, 100 x elapsed + remainder grows exactly by the delivered time at the speeds in force, and the baseline never passes a sample |
| Resumption.HistoriesDeliver | internal/simdriver/driver.go:248-277 | any such history has delivered exactly the time its baseline moved and sent exactly the reports of those chunks |
| Resumption.SettlementResumes | internal/simdriver/driver.go:248-277 | two histories from one moment, of heartbeats and of commands that failed anywhere or committed nothing, in any mixture and with settlements interrupted anywhere: once the baseline has moved equally far they have sent the same reports and left engines equal up to revision |
| Resumption.UnappliedIsSettlement | internal/simdriver/driver.go:105-234 | a heartbeat, or a command that fails at any point or commits nothing, leaves exactly what its settlement left, or nothing changed if it was refused before |
| Drivers.Driver.DeliverElapsed | internal/simdriver/driver.go:260-277 | the chunk loop keeps every chunk delivered before a failure, with the baseline after it |
| Drivers.Driver.Beat | internal/simdriver/driver.go:75-98 | a heartbeat settles; a failure ends the loop for good and keeps what was delivered |
| Drivers.Driver.SettleLocked | internal/simdriver/driver.go:248-277 | settles up to the sample exactly as specified, refusing a long backlog before any delivery |
| Drivers.Driver.SetCount | internal/simdriver/driver.go:105-121 | settles first; an error keeps what was settled |
| Drivers.Driver.SetSpeed | internal/simdriver/driver.go:127-143 | time until the call runs at the old speed |
| Drivers.Driver.PrepareStationEdit | internal/simdriver/driver.go:210-234 | a stale identity, an unknown station or a full set is refused before settlement and changes nothing |
| Drivers.Driver.AddStation | internal/simdriver/driver.go:153-170 | prepared, settled, then added, each error at its place |
| Drivers.Driver.UpdateStation | internal/simdriver/driver.go:174-191 | prepared, settled, then updated |
| Drivers.Driver.RemoveStation | internal/simdriver/driver.go:194-205 | prepared, settled, then removed |
| Agreement.AcceptedIffExplained | display/project.go:363-405 | checking references one by one accepts them exactly if one content per transmission and one transmission per reception explains them all, an empty sentence standing for any |
| Agreement.OrderIrrelevant | display/project.go:363-405 | acceptance depends neither on order nor on repetition |
| Wire.Sum | display/validate.go:314-322 | overflow is reported exactly if the 64-bit sum would wrap at some step |
| Wire.ValidateCounters | display/validate.go:200-235 | accepts exactly the counters that partition, stay within the window and match the sequence bounds |
| Wire.ValidateStation | display/validate.go:119-137 | accepts exactly the stations with valid definition, revisions, times, counters and coverage |
| Wire.ValidateCoverage | display/validate.go:249-272 | the loop with its seen contours accepts exactly the lists with one valid contour per channel and threshold |
| Wire.ContoursComplete | display/validate.go:249-272 | counting and distinctness then leave no channel and threshold without a contour |
| Projectors.Projector.Identity | display/project.go:363-386 | accepts an identity exactly if it is selected, within bounds, and agrees with every earlier reference |
| Projectors.Projector.Transmission | display/project.go:390-405 | accepts a transmission reference exactly if it agrees with every earlier one |
| Projectors.Projector.Provenance | display/project.go:252-291 | accepts one station's part of a target exactly if it is valid and agrees |
| Projectors.Projector.Target | display/project.go:211-249 | accepts a target exactly if report, ages, order and provenance are valid, the chosen marks match its report, and all references agree |
| Projectors.ProjectObservations | display/project.go:81-207 | accepts exactly the snapshots whose parts are all valid and whose references one assignment explains |
| Projectors.ProjectReceptionPage | display/project.go:456-528 | accepts exactly the pages of the asked station that are one ascending contiguous block with right bounds, cursor and gap, and whose references agree |
| Snapshots.SelectStations | simulation/observation.go:352-367 | marks exactly the requested stations, or refuses an unknown ID |
| Snapshots.SumBuckets | simulation/observation.go:370-393 | the loop sums exactly the fresh buckets |
| Snapshots.ObserveTarget | simulation/observation.go:398-436 | the loop over stations gives the target as served: newest report chosen, its stations sorted and marked |
| Snapshots.ReceptionHistory | simulation/observation.go:481-518 | the page for a cursor and limit, or the error of a bad limit, unknown station or late cursor |
| Recents.RecentReceptions | simulation/observation.go:440-467 | the collecting loops, sort and cut give the specified recent receptions |
| Recents.RecentsAreNewest | simulation/observation.go:440-467 | in every reachable state they are the newest 50 of everything the selected stations ever logged, although only 50 of each ring are looked at |
| HonestRuns.SnapshotNeverRejected | simulator/station_convert.go:65-118 | in every invariant state and for every valid selection the converted snapshot passes every check of the display |
| HonestRuns.PageNeverRejected | simulator/station_convert.go:120-134 | every page answered to a request passes every check of the display |
| HonestRuns.HonestEngineNeverRejected | display/project.go:81-207 | from New, after any commands whether or not they fail, no snapshot of a valid selection and no page is ever rejected |
| RealWorld.CoverageIgnores | simulation/station.go:174-187 | coverage depends on everything but the name, so a renaming may keep it |
| RealWorld.ShippedIsSound | internal/ais/decode.go:44-120 | the program's own codec, radio model and coverage satisfy everything the engine theorems rely on |
| RealWorld.ShippedNeverRejected | display/project.go:81-207 | with the real codec, radio model and coverage the display never rejects a run, whatever generation, motion and draws do |
| AisBits.SignedRoundTrip | internal/ais/decode.go:64-77 | a two's complement field recovers every value its width holds |
| AisBits.UnpackPack | internal/ais/position.go:60-82 | packing bits six to a character and unpacking them loses nothing |
| AisCodec.ParseEncoded | internal/ais/position.go:83-98 | whatever is encoded parses back to its 168 payload bits through framing, checksum and armour |
| AisCodec.FieldsRead | internal/ais/decode.go:64-116 | every raw field of an encoded position reads as the rounded value of that field (Annex 8 section 3.1 of ITU-R M.1371-5) |
| AisCodec.RoundTrip | internal/ais/decode.go:44-120 | every valid position encodes and decodes with all fields available: integers exactly, the rest within half a unit, course wrapping at 360 |
| AisMethods.Put | internal/ais/position.go:62-69 | oring single bits into the array appends the field to the packed bits and leaves the others alone |
| AisMethods.PutAll | internal/ais/position.go:70-82 | all fields in order fill the 28 characters with the layout |
| AisMethods.ArmourInPlace | internal/ais/position.go:83-89 | armouring in place gives the payload text |
| AisMethods.Encode | internal/ais/position.go:36-99 | the whole encoder: refusal of invalid positions, or the sentence |
| AisMethods.ReadSignedBits | internal/ais/decode.go:64-77 | the reading loop with sign correction gives the field's value |
| AisMethods.Decode | internal/ais/decode.go:44-120 | the whole decoder: refusal, or a report with sentinels as unavailable |
| HistoryLogs.RingServesLog | simulation/observation.go:481-518 | a page of the ring is exactly the page of the unbounded log cut to its newest 1000 records |
| HistoryLogs.EngineServesLog | simulation/observation.go:481-518 | in every reachable state, for every station, cursor and limit, the reply is that page or the specified error |
| HistoryLogs.ReadersLoseNothing | simulation/observation.go:481-518 | however commands and reads interleave, a reader following its cursor gets blocks of the station's log that miss records exactly where a page is marked as a gap |
| HistoryLogs.GaplessReadersReadAll | simulation/observation.go:481-518 | without gaps its pages join to exactly the log from start to cursor; no more to come means caught up, a gap means the next record was evicted |
| HistoryInspecting.RowsAreABlock | ui/internal/assets/static/js/display.js:392-430 | whatever clicks, polls, late replies, evictions, removals and restarts: the inspected rows are always at most 200 consecutive records of the station's log ending at the cursor |
| HistoryInspecting.RepliesContinueRows | ui/internal/assets/static/js/display.js:392-430 | a reply that is taken never moves the cursor back, and its rows follow the old ones unless it is marked as a gap |
| HistoryInspectors.HistoryInspector.ResetHistory | ui/internal/assets/static/js/display.js:103-111 | keeps the page valid for whatever the server logged; no rows and no cursor are left and no reply in flight will be taken |
| HistoryInspectors.HistoryInspector.EndFetch | ui/internal/assets/static/js/display.js:344-388 | keeps the page valid; a station stays inspected only with the rows and cursor it had, in the same run and while the snapshot lists it; a reply to an older selection changes nothing |
| HistoryInspectors.HistoryInspector.Merge | ui/internal/assets/static/js/display.js:422-424 | rows by sequence in order of first appearance, the later row replacing the earlier |
| HistoryInspectors.HistoryInspector.TakeReply | ui/internal/assets/static/js/display.js:392-430 | keeps the page valid; a page that still belongs to what is shown continues the rows, which are then one block of the station's log ending at the new cursor; any other reply leaves them or starts them again |
| StationEditing.NoLostUpdate | ui/internal/assets/static/js/stations.js:154-287 | over any interleaving of pages, polls, clicks, conflicts, rebases, lost answers, requests served after their page gave up, and restarts, every applied change was computed from, or reviewed against, exactly the rows it replaced, and changed one row of them |
| StationEditing.PagesMoveForward | ui/internal/assets/static/js/stations.js:206-287 | no page ever shows an older station set than it showed before |
| StationServer.EngineServesEditors | simulation/station.go:116-220 | the engine's commands are server steps of that protocol: a committed station command names the current set revision, edits exactly the row asked for and raises the revision exactly if the rows changed; a failed one and every other command leave both alone |
| StationServer.LiveRunsAreRuns | internal/simdriver/driver.go:210-234 | any interleaving of pages, engine commands and restarts with requests served by the engine, in time or late, is a run of the editing protocol |
| StationServer.EnginesLoseNoUpdate | simulation/station.go:116-220 | so the engine itself loses no update: every change it committed for a page replaced exactly the rows the page had seen |
| StationEditors.Editor.Accept | ui/internal/assets/static/js/stations.js:154-161 | whatever set arrives, the buttons afterwards hold its rows, and a draft of another version is in conflict with exactly those rows |
| StationEditors.Editor.Begin | ui/internal/assets/static/js/stations.js:162-184 | keeps the page valid; a draft it opens names the snapshot's version and is based on its rows, and no other draft or save is disturbed |
| StationEditors.Editor.Mutate | ui/internal/assets/static/js/stations.js:253-256 | keeps the page valid; what a row button sends is the rows the server had under the identity it names |
| StationEditors.Editor.Submit | ui/internal/assets/static/js/stations.js:257-260 | keeps the page valid; what the form sends is backed the same way, and nothing is sent in conflict |
| StationEditors.Editor.Rebase | ui/internal/assets/static/js/stations.js:265-274 | keeps the page valid; afterwards the draft counts as made from exactly the rows now shown and edits one of their stations or none |
| StationEditors.Editor.FinishSave | ui/internal/assets/static/js/stations.js:206-252 | keeps the page valid and never goes back; an applied change leaves its result and no draft, a refused or broken one leaves the draft |
| StationEditors.Editor.FinishReload | ui/internal/assets/static/js/stations.js:232-243 | keeps the page valid and never goes back; an open draft is in conflict with what is shown |
| StationEditors.Editor.FinishPoll | ui/internal/assets/static/js/stations.js:279-287 | keeps the page valid and never goes back; the answer is taken exactly if no save began or ended since it was sent, and the draft is never touched |
| FleetPolling.PollsNeverShowStale | ui/internal/assets/static/js/manager.js:146-188 | for every interleaving of polls, both kinds of write, other clients and restarts, a rendered poll has three reads of one run, none older than any write shown as confirmed nor than anything on display |
| FleetPolling.DisplayIsOfOneRun | ui/internal/assets/static/js/manager.js:72-74 | all that is shown is of the run shown, and within a run a poll leaves a user's edit alone |
| FleetPolling.AnswersMayShowOlder | ui/internal/assets/static/js/manager.js:93-119 | a concrete run in which a write's own answer replaces newer state that a poll had shown while the write was in flight |
| FleetPolling.AnswersShowOlderExactly | ui/internal/assets/static/js/manager.js:93-119 | in every reachable state a confirmed answer takes the display back exactly if some poll rendered since the write was sent was read after the server's next commit; if none was rendered it never does |
| FleetPages.FleetPage.StartWrite | ui/internal/assets/static/js/manager.js:93-103 | keeps the page valid; one write of a kind at a time, and no poll in flight will be rendered any more |
| FleetPages.FleetPage.EndWrite | ui/internal/assets/static/js/manager.js:99-119 | keeps the page valid; a confirmed answer is shown and ends the edit, and takes the display back exactly if a poll rendered meanwhile had read past it; any other answer leaves edit and display alone |
| FleetPages.FleetPage.EndPoll | ui/internal/assets/static/js/manager.js:146-188 | keeps the page valid; what it renders is of one run and none of it older than a confirmed write or the display, within a run edits stay, and otherwise nothing but the poll changes |

## Left out

- Server metadata and settings: their constant checks, the vessel type table and the reception model description.
- HTTP routing, request parsing, status mapping, error texts, logging, command line, templates, shutdown.
- DOM rendering, map layers other than the coverage cache, formatting and the clipboard; handlers are modelled by the state they keep.
- Rounding, overflow and NaN of floating point: reals are exact, and `log10` and `sqrt` are only assumed to behave (`RadioModel.Sound`).
- Geodesics: distance, bearing and destination are arbitrary functions in range, so the shape of a ring is only bounded.
- The random generator: generation and draws are arbitrary functions of a counter and of the draw's arguments.
- Sentences the program never writes: tag blocks, other sentence types, multi-part messages, lower-case checksums and blanks before a sentence.
- JSON syntax errors and duplicate keys: the scanner is given the token stream of well-formed documents.
- Locks: every engine and driver call is one step; a context is the number of checks that pass before it is cancelled.
- The driver's ticker and started flag: heartbeats are steps that may come at any time.
- Empty and missing JSON arrays are not told apart, nor are a station's unpublished runtime fields.
- Names that are not valid text: a name is a sequence of characters.
- Targets are values in a map that methods reassign, not shared records; aliasing of served copies is not modelled.
- The algorithm behind each sort: a stable insertion sort stands for it, and keys are distinct wherever it is used.
- The display's output values: what is accepted is copied field by field and carries no further check.
- The vessel name of a reception is not served and so not part of the wire type.
- Snapshots.Served: the snapshot is assembled by a function from the parts whose loops are methods; the mutable buffers it is built in are not modelled.
- Split.AdvanceSplits: stated for calls that do not exhaust the 64-bit state revision, at which the second call fails.
- Resumption.SettlementResumes: stated while the state revision has room for two steps per nanosecond delivered, far below the 64-bit range in any run.
- StationEditing.NoLostUpdate: what a user compared in the conflict panel is taken to be the set it shows; whether the user looked is not modelled.
- HistoryInspecting.RowsAreABlock: says nothing of the recent sample shown while no station is inspected.
