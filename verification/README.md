# BikesNest: a verified model of its core algorithms and protocols

BikesNest is a directory of bicycle parking: people search for places to park,
propose changes to them, vote on those proposals and upload photos. This project
models the parts of it that are hard to get right and proves what they promise.
Check everything with `dafny verify dfyconfig.toml` in this directory.

## What is modelled

| file | what it models |
|---|---|
| `GeocodeCache.dfy` | the bounded geocode cache: refresh, eviction, expiry, and its transparency |
| `DestinationBudget.dfy` | the per-client budget in front of a billable geocoder, with interleaved requests |
| `KeysetSearch.dfy` | keyset pagination of search results while rows change |
| `ObjectStore.dfy` | the paged object store, the reset walk and the orphan sweep, which delete while listing |
| `OpeningHours.dfy` | the open-or-closed decision and the regrouping of rows by weekday |
| `Json.dfy`, `Text.dfy`, `ParkingEdit.dfy` | the parking-edit JSON codec |
| `ProposalCodec.dfy` | the codec of proposed changes and the note that shares their object |
| `Publication.dfy` | submission of proposals and the merge that publishes them |
| `ProposalLifecycle.dfy` | everything that happens to the proposals on one location |
| `PhotoUpload.dfy` | uploads over object storage and the photo table, with failures and stops, moderation, sweep and reconciliation |
| `CpuAdmission.dfy` | two semaphores, a timeout, cancellation, and permits that outlive their callers |
| `AccountActivation.dfy` | registration, verification links and the compare-and-activate |
| `CspOrigin.dfy` | the origins a deployment may add to its content security policy |
| `Freshness.dfy` | freshness of a verification and confidence in a location |
| `Common.dfy` | shared datatypes |

Code that works step by step is modelled step by step: classes whose methods
update fields, loops with invariants, each tied by its `ensures` to a function
of the old state; the lemmas are about those functions. Protocols are step
systems. Their invariants are proved for every step, then for every run, and
the service methods are proved to be runs of those steps.

## Assumptions

* Library behaviour is a parameter. The codec takes a time format that reads back
  what it prints (`TimeFormat.RoundTrips`), the publisher a table of timezone
  names that does (`ZoneTable.RoundTrips`), activation the password hasher's
  check, the cache the query normalisation.
* `f64` values are finite and modelled as `real`. Timestamps are integers;
  converting an instant to local day and time comes before `OpeningHours`.
* Ports are modelled by their contracts. Search reads one snapshot per page. A
  transaction happens entirely or not at all, as its row locks make it. A
  released permit is handed to the longest waiter, as the semaphore library
  documents.
* Ids minted by the database or at random are new, and a password hash is never
  empty.

## Where the code and its documentation part

* The geocode budget bounds what is charged in a window, not what is called: a
  request waits between its charge and its call, so calls of one window can exceed
  the budget. The bound on calls holds for stretches that fit into the limiter's
  window together with that wait, and for no others
  (`DestinationBudget.BudgetSufficesExactly`, with a failing run).
* Photo rows name existing objects exactly when two conditions hold that the code
  leaves to its deployment: inserts land by some deadline after their upload's
  start, no longer than the sweep's age limit, and a failed insert wrote no row
  (`PhotoUpload.SafeExactlyWhenSound`, with a failing run for each).
* The comment on the reconciliation of pending photos says it should find nothing.
  It can drop a row that was rejected after being listed, but never one in use: of
  the rows it looks up it condemns exactly those rejected by then whose object is
  gone (`PhotoUpload.ReconciliationCanDropRejected`, `ReconciliationCondemnsIff`).
* Origins are documented as `scheme://host[:port]`. A port with a plus sign, then
  even zero-padded, is accepted too, and that is the only difference
  (`CspOrigin.SignedPortIsAccepted`, `DocumentedIffUnsigned`).
* A failing audit reports an error for a proposal or photo that is already stored
  (`Publication.ContributionService.Store`, `PhotoUpload.PhotoService.UploadPhoto`).
* The administrator seeder replaces a password without retiring the account's
  verification links, as every other replacement does. So a link from before the
  present password can be live, and can even activate the account
  (`AccountActivation.SeederLeavesOldLinkLive`, `SeederLetsOldLinkActivate`). A
  usable link is from the present password if and only if the seeder has not
  replaced it since (`AccountActivation.UsableLinkIsCurrentIff`).
* A direct edit, a repository operation that no service calls, would strand
  pending proposals for good; without one, none ever goes stale
  (`ProposalLifecycle.DirectEditStrands`, `NothingGoesStaleWithoutEdits`).
* The publisher's check that the location is still active can never fail for a
  pending proposal (`ProposalLifecycle.PublishNeedsOnly`).

## Model

| member | source | states |
|---|---|---|
| `GeocodeCache.CachingGeocoder.Position` | crates/infrastructure/src/geocoding.rs:617-620 | finds the first queue position of a key, the one whose removal takes the key out |
| `GeocodeCache.CachingGeocoder.RememberHit` | crates/infrastructure/src/geocoding.rs:605-627 | the whole new map and queue after a resolution: a refreshed key moves to the back, then the front is evicted down to the bound |
| `GeocodeCache.CachingGeocoder.PeekHit` | crates/infrastructure/src/geocoding.rs:638-646 | a held answer is given exactly while it is younger than the TTL, and nothing is recorded |
| `GeocodeCache.CachingGeocoder.SettleAnswer` | crates/infrastructure/src/geocoding.rs:652-656 | what the provider answered is remembered exactly when it is a hit |
| `GeocodeCache.CachingGeocoder.Geocode` | crates/infrastructure/src/geocoding.rs:648-657 | a request nobody comes between is its lookup and, exactly when nothing live is held, its later answer, in a row |
| `GeocodeCache.ByRecencyAppend` | crates/infrastructure/src/geocoding.rs:613-621 | in the reference order of distinct keys, one more resolution moves its key to the back and changes nothing else |
| `GeocodeCache.RememberExtends` | crates/infrastructure/src/geocoding.rs:605-627 | `remember` takes the cache of a log to the cache of the log with one more resolution |
| `GeocodeCache.CacheHoldsLastDistinctKeys` | crates/infrastructure/src/geocoding.rs:605-627 | after any calls the queue is exactly the last `capacity` distinct keys by latest resolution, and the map holds those keys with those resolutions |
| `GeocodeCache.CacheIsBounded` | crates/infrastructure/src/geocoding.rs:622-626 | the queue repeats no key; map and queue have the same size, within the bound |
| `GeocodeCache.QueueIsSortedByTime` | crates/infrastructure/src/geocoding.rs:613-621 | under a monotone clock the queue is ordered by resolution time |
| `GeocodeCache.EvictionDropsOldest` | crates/infrastructure/src/geocoding.rs:622-626 | whatever was evicted was last resolved no later than whatever is kept |
| `GeocodeCache.CachedAnswersAreProviderAnswers` | crates/infrastructure/src/geocoding.rs:638-657 | in every interleaving of lookups, answers and departures, for every TTL, capacity and clock, replies give the provider's points and misses; a held point bridges outages |
| `GeocodeCache.TransparentIffFactors` | crates/infrastructure/src/geocoding.rs:638-657 | in every interleaving every reply is the provider's, if and only if the cache holds nothing or the provider's point depends on the normalized query alone |
| `GeocodeCache.FakeGeocoderIsSafeToCache` | crates/infrastructure/src/geocoding.rs:49-103 | the development geocoder is such a provider |
| `DestinationBudget.CallsAreCharged` | crates/application/src/destination.rs:68-134 | at every point of every interleaving the calls made and still owed are covered by charges, however spends are counted |
| `DestinationBudget.BudgetBoundsProviderCalls` | crates/application/src/rate_limit.rs:17-24 | if the limiter keeps its promise and calls follow their charge within a delay, a client has at most its budget of calls in any stretch that fits into the window with the delay |
| `DestinationBudget.BudgetSufficesExactly` | crates/application/src/destination.rs:68-134 | and that is exact: over all runs of a monotone clock the bound holds if and only if stretch and delay fit into the window, the stretch is empty, or nothing can be charged |
| `DestinationBudget.LateCalls` | crates/application/src/destination.rs:77-97 | a failing run for every other combination: a budget charged at once and called late, and one unit more charged when the limiter allows |
| `DestinationBudget.ResolveDestination.Spends` | crates/application/src/destination.rs:111-134 | one unit is charged exactly when the limiter allows; a limiter error counts as over budget |
| `DestinationBudget.ResolveDestination.GeocodeQuery` | crates/application/src/destination.rs:68-80 | a held answer and a refusal leave every counter alone; otherwise charge, then ask |
| `DestinationBudget.ResolveDestination.AskProvider` | crates/application/src/destination.rs:82-109 | suggestions are always charged, then always asked |
| `KeysetSearch.NewRequest` | crates/application/src/ports.rs:310-358 | the nearest allowed page size, and the cursor exactly if it was minted for this sort |
| `KeysetSearch.Page` | crates/application/src/search.rs:163-188 | truncates the fetched rows in place and mints the cursor of the last kept row, which always exists |
| `KeysetSearch.PageSplitsRows` | crates/application/src/search.rs:163-188 | a page shows exactly the rows after the old cursor and not after the new one; a cursor means a full page and more rows to come |
| `KeysetSearch.WalkShowsRows` | crates/application/src/ports.rs:563-575 | every row a walk shows was there when its page was read |
| `KeysetSearch.WalkAscends` | crates/application/src/ports.rs:383-392 | whatever changes between pages, the rows shown strictly ascend across all pages |
| `KeysetSearch.WalkSkipsNothing` | crates/application/src/search.rs:163-188 | a row that stays under its key through a completed walk is shown |
| `KeysetSearch.StableRowShownExactlyOnce` | crates/application/src/search.rs:163-188 | and its location is shown exactly once |
| `KeysetSearch.ForwardMoveIsShownTwice` | crates/application/src/ports.rs:383-392 | keeping the key is needed: a location moving forward is shown again |
| `KeysetSearch.BackwardMoveIsNeverShown` | crates/application/src/ports.rs:383-392 | and one moving back is never shown, though it was there throughout |
| `KeysetSearch.FixedRowsShown` | crates/application/src/search.rs:163-188 | on fixed rows any walk shows exactly the sorted rows after its cursor |
| `KeysetSearch.FixedRowsPages` | crates/application/src/search.rs:163-188 | and takes max(1, ceil(n / page size)) pages |
| `KeysetSearch.FollowCursor` | crates/application/src/search.rs:163-188 | a completed walk exists from any cursor over any rows: following cursors terminates |
| `KeysetSearch.FollowingTheCursorShowsEverything` | crates/application/src/search.rs:163-188 | from page one the concatenated pages are the whole sorted result |
| `ObjectStore.TestObjectStorage.Put` | crates/test-support/src/object_storage.rs:105-114 | stores the object with the current time |
| `ObjectStore.TestObjectStorage.Delete` | crates/test-support/src/object_storage.rs:126-129 | removes the object; a missing one is no error |
| `ObjectStore.TestObjectStorage.Collect` | crates/test-support/src/object_storage.rs:139-150 | collects exactly the matching objects from the map, sorted by key |
| `ObjectStore.TestObjectStorage.List` | crates/test-support/src/object_storage.rs:135-165 | a page is the sorted matching objects up to its resume point, which is there exactly when more follow |
| `ObjectStore.TruncatedListing` | crates/test-support/src/object_storage.rs:159-160 | truncation keeps exactly the keys up to the resume point |
| `ObjectStore.DeletePage` | crates/infrastructure/src/fresh_seed.rs:25-28 | deletes and counts exactly the listed objects |
| `ObjectStore.ResetAllData` | crates/infrastructure/src/fresh_seed.rs:17-33 | for every store and page size the walk ends, empties the store and returns the initial count; if listing fails nothing is deleted |
| `ObjectStore.PurgeUnreferenced` | crates/infrastructure/src/privacy/retention.rs:380-394 | deletes and counts exactly the aged, unreferenced objects of a page |
| `ObjectStore.SweepPage` | crates/infrastructure/src/privacy/retention.rs:196-213 | a page with a resume point settles every key up to it and leaves strictly less to list |
| `ObjectStore.LastSweepPage` | crates/infrastructure/src/privacy/retention.rs:196-213 | the last page leaves the initial store without its orphans |
| `ObjectStore.PurgeOrphanUploads` | crates/infrastructure/src/privacy/retention.rs:192-215 | deletes and counts exactly the aged uploads that the probe of their own page found unreferenced, whatever the page size and however references change between probes |
| `ObjectStore.SteadySweepIsExact` | crates/infrastructure/src/privacy/retention.rs:345-374 | with steady references exactly the aged uploads outside them go |
| `OpeningHours.StatusAt` | crates/domain/src/hours.rs:73-103 | unknown hours are unknown; otherwise open exactly when the moment lies in some row's circular interval |
| `OpeningHours.RowIsItsInterval` | crates/domain/src/hours.rs:84-101 | the cases on today and yesterday are membership in the interval, overnight rows, the wrap into Monday and invalid days included |
| `OpeningHours.OrderDoesNotMatter` | crates/domain/src/hours.rs:73-103 | more rows never close a location; order and repetition do not matter |
| `OpeningHours.RowsByDay` | crates/domain/src/hours.rs:106-116 | seven lists holding each weekday's ranges in row order |
| `OpeningHours.RegroupedMember` | crates/domain/src/hours.rs:106-116 | regrouping keeps exactly the rows on a weekday |
| `OpeningHours.RegroupingKeepsStatus` | crates/domain/src/hours.rs:73-116 | regrouping by day never changes the answer |
| `ParkingEdits.Decode` | crates/domain/src/parking_edit.rs:79-155 | decodes member by member, stopping at the first that is missing or invalid |
| `ParkingEdits.DecodeHours` | crates/domain/src/parking_edit.rs:79-155 | decodes the weekly rows or the unknown flag |
| `ParkingEdits.DecodeRows` | crates/domain/src/parking_edit.rs:79-155 | pushes row after row and gives up at the first malformed one |
| `ParkingEdits.DecodeSecurity` | crates/domain/src/parking_edit.rs:79-155 | pushes attribute after attribute, refusing malformed, unknown and repeated ones |
| `ParkingEdits.DecodedAttributes` | crates/domain/src/parking_edit.rs:79-155 | what decodes does so attribute by attribute |
| `ParkingEdits.DecodedCodesAreDistinct` | crates/domain/src/parking_edit.rs:79-155 | and names no code twice |
| `ParkingEdits.RowsFrom` | crates/domain/src/parking_edit.rs:79-155 | the rows decode exactly when each one does |
| `ParkingEdits.CarriedEditDecodes` | crates/domain/src/parking_edit.rs:79-155 | an object carrying an edit's members decodes to its canonical form exactly when the edit is valid, whatever else is in the object |
| `ParkingEdits.CatalogueRoundTrip` | crates/domain/src/parking_edit.rs:33-77 | printing lists every catalogue attribute, and they read back in catalogue order |
| `ParkingEdits.RoundTrip` | crates/domain/src/parking_edit.rs:33-155 | parsing what was printed succeeds exactly for valid edits, with the canonical form |
| `ParkingEdits.AcceptedIsValid` | crates/domain/src/parking_edit.rs:79-155 | whatever JSON it came from, an accepted edit is valid and trimmed and names known attributes once |
| `ParkingEdits.CanonicalIsFixed` | crates/domain/src/parking_edit.rs:33-77 | the canonical form is a fixed point, is valid when the edit is, and prints the same |
| `ProposalCodec.PrintPayload` | crates/domain/src/community.rs:356-362 | inserts the note into the change's own object |
| `ProposalCodec.ReasonStaysApart` | crates/domain/src/community.rs:356-362 | the note overwrites no other member, and a missing note reads back as missing |
| `ProposalCodec.NonBlank` | crates/domain/src/community.rs:339-347 | a note is kept trimmed, or not at all when blank |
| `ProposalCodec.StoredChangeReadsBack` | crates/domain/src/community.rs:263-319 | a storable change reads back as its canonical form, whatever note it shares its object with |
| `ProposalCodec.StoredPayloadReadsBack` | crates/domain/src/community.rs:339-363 | and the note reads back unchanged, whatever the change |
| `ProposalCodec.DecodedIsStorable` | crates/domain/src/community.rs:263-303 | whatever JSON it came from, a decoded change can be stored under its kind |
| `ProposalCodec.PayloadRoundTrip` | crates/domain/src/community.rs:263-363 | for every kind and JSON value: decode, print, decode gives the same canonical change and the same note |
| `ProposalCodec.CanonicalPayloadIsFixed` | crates/domain/src/community.rs:349-363 | one round suffices: the decoded payload prints the same again |
| `Publication.Merge` | crates/application/src/moderation.rs:287-322 | whatever merges has the row's kind |
| `Publication.MoveMergesIff` | crates/application/src/moderation.rs:324-346 | a move merges exactly when the values in force, the moderator's before the proposer's, are complete and valid |
| `Publication.ContributionService.Store` | crates/application/src/community.rs:788-807 | stores, then audits; a failed audit is an error for a stored proposal |
| `Publication.ContributionService.ApplyParkingEdit` | crates/application/src/community.rs:765-808 | stores a proposal exactly when the edit makes one, only publishable ones, and says how storing went |
| `Publication.ContributionService.ProposeLocationChange` | crates/application/src/community.rs:811-869 | likewise for moves and removals, the timezone rewritten in place first |
| `Publication.ContributionService.NameZone` | crates/application/src/community.rs:838-851 | a move gets its own timezone if that parses, else the resolver's, under its own name |
| `Publication.StoredPublishes` | crates/application/src/moderation.rs:287-346 | a stored payload, read back, merges as its canonical change does |
| `Publication.ResolvedMerges` | crates/application/src/community.rs:827-851 | a decoded change whose timezone was resolved merges under the empty override, as intended |
| `Publication.AcceptedEditPublishes` | crates/application/src/community.rs:765-808 | an edit is accepted exactly when it is valid and current, and publishes unaided as its canonical form |
| `Publication.AcceptedSubmissionPublishes` | crates/application/src/community.rs:765-869 | either way in, whatever is accepted publishes unaided as exactly what was asked for |
| `Publication.AcceptedChangePublishes` | crates/application/src/community.rs:811-869 | every accepted edit, move or removal publishes unaided as what the proposer asked for, under the row's kind |
| `ProposalLifecycle.StepKeepsInv` | crates/infrastructure/src/moderation/actions.rs:787-925 | every transaction keeps: pending proposals current up to direct edits, authors not voting, publications consuming versions in order |
| `ProposalLifecycle.RunKeepsInv` | crates/infrastructure/src/moderation/actions.rs:424-480 | so does every run of transactions |
| `ProposalLifecycle.PublicationsConsumeVersions` | crates/application/src/moderation.rs:442-450 | no two publications share a base version or a proposal; each was decided by a moderator other than the author or by six approvers other than the author |
| `ProposalLifecycle.NothingIsRewound` | crates/application/src/community.rs:345-365 | over every run the version never decreases, publications stay, and a decided proposal keeps its status |
| `ProposalLifecycle.VotePublishesAtSix` | crates/domain/src/community.rs:365-375 | a vote publishes exactly when eligible approvals reach six, the proposal was not escalated and the change merges; the author is not among them |
| `ProposalLifecycle.PublishNeedsOnly` | crates/infrastructure/src/moderation/actions.rs:787-925 | publishing succeeds exactly for a pending proposal without direct edits since, of the right kind and not one's own |
| `ProposalLifecycle.StaleMeansEdited` | crates/application/src/moderation.rs:183-190 | a pending proposal is stale exactly when the location was edited directly since |
| `ProposalLifecycle.NothingGoesStaleWithoutEdits` | crates/infrastructure/src/moderation/actions.rs:927-950 | without direct edits no pending proposal is ever stale |
| `ProposalLifecycle.DirectEditStrands` | crates/infrastructure/src/community/contribution.rs:157-280 | a direct edit leaves every pending proposal stale |
| `ProposalLifecycle.StrandedForGood` | crates/infrastructure/src/moderation/actions.rs:787-925 | and none of those is ever approved afterwards |
| `ProposalLifecycle.NothingEscalates` | crates/infrastructure/src/community/contribution.rs:349-512 | if only changes that merge are proposed, the community never has to escalate one |
| `ProposalLifecycle.ValidEditBecomesProposal` | crates/application/src/community.rs:765-808 | every valid edit, submitted on a fresh location by an eligible account, becomes a pending proposal |
| `ProposalLifecycle.CommunityPublishesAsAsked` | crates/infrastructure/src/community/contribution.rs:349-512 | in every run over what the service accepted, whatever the community publishes is exactly what a submission asked for |
| `ProposalLifecycle.AcceptedProposalsPublish` | crates/infrastructure/src/moderation/actions.rs:566-588 | end to end, in every such run: no proposal is escalated, the sixth approval publishes, and a moderator, erased accounts and its proposer aside, publishes it untouched, as exactly what was asked for, if and only if it is pending and unedited since |
| `ProposalLifecycle.Listing.SupersedePending` | crates/infrastructure/src/moderation/actions.rs:927-950 | retires exactly the other pending proposals |
| `ProposalLifecycle.Listing.PublishNow` | crates/infrastructure/src/moderation/actions.rs:787-925 | refuses for the first check that fails, changing nothing, or publishes |
| `ProposalLifecycle.Listing.VoteOnProposal` | crates/infrastructure/src/community/contribution.rs:349-512 | checks, one vote per account, tally, then publication or escalation |
| `ProposalLifecycle.Listing.ApproveProposal` | crates/infrastructure/src/moderation/actions.rs:566-588 | merges the moderator's values and publishes, or refuses and changes nothing |
| `PhotoUpload.StepKeepsInv` | crates/application/src/photo.rs:391-568 | every port call of uploads, moderation, sweep and reconciliation, succeeding, failing or landing unreported, keeps rows, objects and pending deletes in agreement |
| `PhotoUpload.RunKeepsInv` | crates/application/src/photo.rs:391-568 | so does every run, processes stopping anywhere |
| `PhotoUpload.SafeExactlyWhenSound` | crates/application/src/photo.rs:383-391 | in every run every row not rejected has both its objects, if and only if inserts have a deadline no longer than the sweep's age limit and failed inserts write nothing |
| `PhotoUpload.SweptBeforeInsert` | crates/infrastructure/src/privacy/retention.rs:192-215 | a failing run for every missing or longer deadline |
| `PhotoUpload.UndoneAfterInsert` | crates/application/src/photo.rs:462-469 | a failing run for an insert that wrote its row and reported failure |
| `PhotoUpload.ReconciliationDropsOnlyRejected` | crates/infrastructure/src/privacy/retention.rs:217-273 | reconciliation never drops a row in use |
| `PhotoUpload.ReconciliationCondemnsIff` | crates/infrastructure/src/privacy/retention.rs:217-273 | of the rows it looks up it condemns exactly those rejected since they were listed whose object is gone |
| `PhotoUpload.ReconciliationCanDropRejected` | crates/infrastructure/src/privacy/retention.rs:217-273 | so it can drop a row: a run that waits out the grace period, lists a row, and sees it rejected and cleaned up before the lookup |
| `PhotoUpload.PhotoService.WriteObjects` | crates/application/src/photo.rs:415-447 | both objects, or if deletes work nothing, as a run of steps |
| `PhotoUpload.PhotoService.WriteRow` | crates/application/src/photo.rs:449-469 | the row, or if deletes work neither row nor objects, as a run of steps |
| `PhotoUpload.PhotoService.UploadPhoto` | crates/application/src/photo.rs:391-481 | however long each call takes, success leaves a pending row with both objects; an error before the audit leaves no row and, if deletes work, nothing |
| `PhotoUpload.PhotoService.RejectPhoto` | crates/application/src/photo.rs:523-568 | rejects a pending photo given a reason and deletes its objects; a blank reason, a repetition and other states change nothing; a failed audit is an error for a rejected photo |
| `CpuAdmission.StepKeepsInv` | crates/infrastructure/src/cpu.rs:38-70 | every step of callers and jobs keeps both permit counts, leaves no permit idle while a caller queues, and no job awaited twice |
| `CpuAdmission.RunKeepsInv` | crates/infrastructure/src/cpu.rs:38-70 | so does every interleaving |
| `CpuAdmission.BoundsHold` | crates/infrastructure/src/cpu.rs:25-31 | running jobs never exceed the concurrency, waiters never the queue capacity |
| `CpuAdmission.OnlyFinishEndsJob` | crates/infrastructure/src/cpu.rs:64-67 | a started job keeps its permit until it ends, whatever its caller does |
| `CpuAdmission.CancellationIsInvisible` | crates/infrastructure/src/cpu.rs:64-69 | cancelling a caller that awaits its job is invisible to all others: the same runs stay possible and leave the same permits, queue and jobs |
| `CpuAdmission.QuiescentPermitsAreBack` | crates/infrastructure/src/cpu.rs:38-70 | when every caller is done and no job runs, all permits are back |
| `CpuAdmission.RefusalMeansFull` | crates/infrastructure/src/cpu.rs:47-53 | a caller is turned away only when every waiting permit is held |
| `CpuAdmission.QueueingMeansBusy` | crates/infrastructure/src/cpu.rs:43-55 | a caller queues only while every execution permit is held |
| `CpuAdmission.GrantsAreFifo` | crates/infrastructure/src/cpu.rs:55-58 | whoever leaves the queue with a permit was at its head |
| `CpuAdmission.NeverStuck` | crates/infrastructure/src/cpu.rs:38-70 | with one execution slot some step other than giving up is possible until all is settled |
| `CpuAdmission.RunsEnd` | crates/infrastructure/src/cpu.rs:38-70 | without new callers every run is finite, within a bound on the work left |
| `CpuAdmission.EveryoneCanBeAnswered` | crates/infrastructure/src/cpu.rs:38-70 | with an execution slot, any reachable state can be run on, nobody giving up, until every caller is answered and all permits are back |
| `CpuAdmission.Semaphores.Enter` | crates/infrastructure/src/cpu.rs:43-55 | admitted, queued or refused exactly as the permits say, as a run of steps |
| `CpuAdmission.Semaphores.EndJob` | crates/infrastructure/src/cpu.rs:64-67 | a job's end, normal or by panic, releases its permit |
| `CpuAdmission.Semaphores.ResumeGranted` | crates/infrastructure/src/cpu.rs:54-67 | a granted caller drops its waiting permit and passes the execution permit to its job |
| `CpuAdmission.Semaphores.ReleasePermit` | crates/infrastructure/src/cpu.rs:64-67 | a released permit goes to the queue's head, or back |
| `AccountActivation.StepKeepsInv` | crates/infrastructure/src/auth/outbox.rs:217-553 | every transaction and read keeps: usable links are behind the present credential by exactly the seeder's replacements, held proofs are real, applied links are spent, somebody stands for every active or verified account |
| `AccountActivation.RunKeepsInv` | crates/infrastructure/src/auth/outbox.rs:217-553 | so does every interleaving |
| `AccountActivation.ActivationNeedsPassword` | crates/application/src/auth.rs:827-896 | in every interleaving, whatever activates a pending account is the administrator seeder or a request whose password verifies against the credential stored at that instant, over a link issued under it exactly if the seeder has not replaced it since |
| `AccountActivation.OnlyApplyActivates` | crates/infrastructure/src/auth/outbox.rs:411-553 | nothing but a confirmation and the administrator seeder takes an account from pending to active |
| `AccountActivation.FailedRequestSpendsNothing` | crates/application/src/auth.rs:827-896 | a request that fails at any stage leaves accounts and links as they were |
| `AccountActivation.LinksApplyOnce` | crates/infrastructure/src/auth/outbox.rs:485-499 | no link is ever applied twice |
| `AccountActivation.SpentForever` | crates/infrastructure/src/auth/outbox.rs:152-167 | a retired, spent or purged link is never live again |
| `AccountActivation.UsableLinkIsCurrentIff` | crates/infrastructure/src/auth/account_repo.rs:23-42 | at any time of any run a usable link is from the present password if and only if the seeder has not replaced it since |
| `AccountActivation.UnseededLinksAreCurrent` | crates/infrastructure/src/auth/outbox.rs:97-132 | in a run that never reseeds the account every usable link of it is from the present password |
| `AccountActivation.SeederLeavesOldLinkLive` | crates/infrastructure/src/auth/seed.rs:58-78 | a run that leaves a link from before the present password live |
| `AccountActivation.SeederLetsOldLinkActivate` | crates/infrastructure/src/auth/seed.rs:58-78 | a run in which such a link activates the account |
| `AccountActivation.ReRegistrationDisarmsOldLinks` | crates/application/src/auth.rs:707-774 | re-registering a pending address replaces its credential, ends its sessions and disarms every earlier link for good |
| `AccountActivation.VerifiedAccountsWereProven` | crates/application/src/auth.rs:209-221 | an active or verified account was vouched for by its provider, set up by the operator, or proved its password |
| `AccountActivation.AuthService.Register` | crates/infrastructure/src/auth/outbox.rs:217-315 | the registration transaction: account, replaced credential or nothing; stale terms and a missing password identity undo it |
| `AccountActivation.AuthService.ConfirmEmail` | crates/infrastructure/src/auth/outbox.rs:411-553 | confirms exactly under the stated conditions, all of it or nothing |
| `AccountActivation.AuthService.ProveActivationPassword` | crates/application/src/auth.rs:860-896 | yields the stored credential exactly when the caller is within limits, the account still has the address it was loaded with and the password verifies |
| `AccountActivation.AuthService.VerificationTarget` | crates/application/src/auth.rs:791-809 | the account of a live link, if it is pending or active, spending nothing |
| `AccountActivation.AuthService.VerifyEmail` | crates/application/src/auth.rs:827-856 | alone, it succeeds exactly when link and password are good, and then the account is verified and its links retired; a wrong password is an error of its own, and errors change nothing |
| `CspOrigin.AcceptsIffOrigin` | crates/infrastructure/src/config.rs:1043-1076 | accepts exactly the written forms of origins: scheme, optional wildcard, labels within the limits of section 2.3.4 of RFC 1035, optional non-zero 16-bit port |
| `CspOrigin.OriginIsUnique` | crates/infrastructure/src/config.rs:1043-1076 | each accepted text is the form of exactly one origin |
| `CspOrigin.PortIsAccepted` | crates/infrastructure/src/config.rs:1057-1061 | a written port, signed and padded or not, reads back as its number |
| `CspOrigin.SignedPortIsAccepted` | crates/infrastructure/src/config.rs:1057-1061 | a port with a sign is accepted although the documented form has none |
| `CspOrigin.DocumentedIffUnsigned` | crates/infrastructure/src/config.rs:1040-1076 | what is accepted has the documented form if and only if it contains no plus sign |
| `CspOrigin.AcceptedChars` | crates/infrastructure/src/config.rs:1018-1028 | accepted origins contain no space, separator, quote or control character |
| `CspOrigin.DirectiveGainsHosts` | crates/web/src/security.rs:211-217 | a directive given accepted origins has its own sources, then exactly those origins |
| `CspOrigin.PolicyKeepsDirectives` | crates/web/src/security.rs:211-217 | and the policy keeps its directives: only the one extended changes |
| `Freshness.FreshnessDecays` | crates/domain/src/freshness.rs:52-72 | freshness never improves with time, whatever the thresholds |
| `Freshness.LaterIsFresher` | crates/domain/src/freshness.rs:52-72 | a later verification is never less fresh |
| `Freshness.ConfidenceMeans` | crates/domain/src/community.rs:514-545 | conflicting exactly when someone says gone; reported exactly when nobody says either; otherwise the latest confirmation decides |
| `Freshness.OrderDoesNotMatter` | crates/domain/src/community.rs:514-545 | neither the order of signals nor repetition matters |
| `Freshness.ConfidenceDecays` | crates/domain/src/community.rs:514-545 | over fixed signals confidence only decays |
| `Freshness.ConfirmationHelps` | crates/domain/src/community.rs:514-545 | a further confirmation never lowers it |

## Left out

- KeysetSearch.NewRequest: does not model the radius allowlist and the cleaning of filters, which pagination does not depend on.
- AccountActivation.AuthService.Register: does not model the terms record and the mail job, which are written in the same transaction.
- ObjectStore.TestObjectStorage.Put: does not model the bytes of an object, which no listing or sweep looks at.
- SQL text, migrations and the job worker: transactions are modelled by what they read, check and write.
- The rate limiter's algorithm: its promise about a window is an assumption of `DestinationBudget.BudgetBoundsProviderCalls`.
- Admission of a whole search by `peek`: the search geocodes later, in another service, so an entry can expire in between.
- Search filters, totals, browse mode and origin resolution: the reader's sort key and order are all that pagination depends on.
- The text of cursors, JSON, times and timezone names: library formats; large integers read as floating point are not modelled.
- Rounding of floating-point keys and coordinates: they are compared, never computed with, in the modelled code.
- Mail: jobs, notices and their dispatch, except the comparison of the notice's address with the account's.
- Roles, audit records and request rate limits beyond a yes or no.
- Linking an identity provider to an account: the model keeps only whether the provider vouched for the address.
- Proposals are modelled one location at a time; nothing in their lifecycle spans locations.
- Both photo tables are one map of rows, as every rule treats them alike; the audits of approval, hiding and restoring are not modelled.
- Image processing, presigned links, the object store, mail and map clients: network I/O over foreign libraries.
- Closing the CPU semaphores: the code never does.
- Enum code tables, distance formulas, recommendation weights, seed data and most configuration: finite tables or arithmetic without a property across functions.
- Purging the rows of deleted accounts: account ids are never given out again.
- The last-administrator rule: it spans two port calls and is decided in SQL.
