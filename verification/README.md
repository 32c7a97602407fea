# The Channel Provider control plane, in Dafny

The Channel Provider hands devices a standing transport channel, renews and revokes it, and
reserves devices for prepared scenes and shared visits. Its promises are about histories: what
a database holds after any sequence of operations, what a crash may forget, what a second
caller may interleave at an `await`. This project models that control plane, and three smaller
cores of the same repository, and proves those promises.

`dafny verify dfyconfig.toml` checks everything.

## How it is built

| part | files |
|---|---|
| the operation ledger (`store.py`) | `OperationLedger` (transactions as functions on the row sequence), `LedgerHistory` (the inductive invariant), `LedgerGuarantees` (what callers may rely on), `LedgerAnswers` (what each transaction answers and does to each row, in the rows' fields), `ChannelProviderStore` (the class, refining the functions) |
| provision, revoke, serve (`service.py`) | `TransportResources` (the locked sections as functions), `ResourceConservation`, `ResourceHazards` (where it stops, and why), `ServiceAnswers` (what every caller is answered), `ResourceAnswers` (what is left standing, and what a fault answers), `ChannelProviderService` (the class) |
| one prepared scene (`endpoint_preparation.py`) | `EndpointPreparation` (each stretch between two awaits), `PreparedVisit` (the class), `SceneProtocol` (the scene as a state machine with callbacks, cleanup and crashes), `SceneGuarantees` (its invariant), `SceneAnswers` (what each thing that happens does to it), `SceneTheorems` |
| all scenes and shared visits (`service.py`) | `SceneReservations` (the world of scenes, reservations and restarts), `ReservationAnswers` (who gets a reservation and who gives one back), `ReservationSoundness` (what holds in every run), `ReservationSafety` (what needs every write to be timely), `ReservationHazards`, `SceneService` (the class) |
| the two together | `ProviderSystem` (locked calls interleaved with scenes, shared visits, crashes and restarts, reserving what the scenes hold) |
| the shared admission barrier | `SharedAdmission` |
| panel replicas (`smarthome/runtime.py`) | `PanelProjection`, `SmartHomeRuntime` (the class) |
| two loops of the benchmark | `BargeInLatency`, `BargeInBaseline` (its reference loudness), `SettledTurns` |

Code that mutates fields is a class here too. Each of its methods is proved equal to a function
of the old state, and the promises are lemmas about those functions, over every run. What each
function answers and changes is said once more in the fields of the state, without naming it, by
the lemmas of the `Answers` modules.

A coroutine is a sequence of atomic steps, one per stretch between awaits; what the world does
in between (an adapter call that fails, a checkpoint that is not written, a device that does or
does not answer, a lost message) is an argument. A database transaction is one step. A crash
keeps what is in the database and nothing else.

Assumptions: an adapter close that raises has closed nothing; one provision attempt is alone
unless it is said not to be (`Alone`, and the lemmas of `ResourceHazards` for when it is not);
request fingerprints, adapter handles and device state are opaque values with equality. A
transport resource is what its adapter calls it: nothing is assumed about which identity may
name it.

## What turned out not to hold

Each is proved with the exact condition under which the code does keep the promise.

- **Revocation can leave a resource behind.** `_revoke_once` closes the channel only if it finds
  an *active* row of exactly the revoked reference. A row that has lapsed, or belongs to an
  older generation, is scrubbed without its room being closed (`RevokeOrphansExactly`,
  `LapsedRevocationLeavesOrphan`).
- **A provision can leave a resource behind, or commit and fail.** After `adapter.open` the
  adapter of the channel it saw is looked up again, on the refusal path inside the handler
  (service.py:290) and after the commit (319), and stopping or closing may raise. Then the
  candidate it gave up, or the predecessor it replaced, is left standing with no row naming it
  (`ProvisionOrphansExactly`, `UnclosedPredecessorIsOrphaned`).
- **Revocation can close a room and keep its row.** The channel is closed before
  `complete_revocation`; when that fails, the row stays active on nothing
  (`RevokeKeepsStandingIff`, `FailedRevocationStrandsChannel`).
- **Two owner domains can share a room.** docs/channel-provider.md:178 derives the room name from
  owner domain and device; the LiveKit adapter derives it from the device alone
  (adapter.py:343-347), and nothing looks across identities before closing. Retiring one
  identity's channel then closes the room the other's stands on (`RunStandsIff`,
  `TwoIdentitiesShareARoom`); with the documented names it cannot (`DistinctNamesAreHarmless`).
- **A second process on the same database** that commits between opening and committing can lose
  its room to a grant that is refused: exactly when that grant's candidate is closed and both name
  the same resource (`LosingGrantSparesChannelsIff`). If the grant commits instead, the room of the
  row it supersedes can stay behind (`SupersededResourceIsOrphanedIff`). A retry that meets its own
  row already ended fails while reading the scrubbed handle (service.py:298-300,
  `ReplayedGrantClosesNothingLive`).
- **The first cause can be lost**, by a crash before any checkpoint wrote it: a failing task
  records its cause without one (`CauseSurvivesCrashIff`, `CauseLostToCrash`). Nothing else takes
  it (`FirstCauseIsKept`, `FirstCauseSurvives`).
- **A status read that cannot be saved stops nothing**: the visit says it is closing and serves on
  (`LostReadStopsIff`).
- **Persisted scenes can collide, and then the service refuses to start.** A visit whose intent
  checkpoint failed stays in the catalog without a reservation; so does a scene whose cleanup is
  repeated after release and then fails its last write. Closing such a visit persists it as
  incomplete although it holds nothing. Without such a write the collision is unreachable
  (`MoveKeepsInvIff`, `PersistedScenesStayApart`); after one it is a restart away
  (`OrphanWriteRefusesRestart`). No such write lets two scenes engage one device
  (`DevicesAreEngagedOnce`).
- **A checkpoint with an empty conversation id cannot be restored**, and one such row refuses the
  whole start (`CheckpointRoundTrip`, `RecoverySucceedsIff`). `request` accepts such an id, answering
  the device's own join, and saves it (`EmptyIdIsNotRecovered`). Both callers pass ids through
  `normalize_conversation_id` first (contracts.py:411, adapter.py:1072), which is not part of this
  model: if it never returns an empty id, every saved visit comes back (`GivenIdsAreRecovered`).
- **A lost panel refresh shows as a gap only if nothing but states changed**
  (`LostRefreshShowsIff`, `LostRegistryRefreshIsUnseen`).
- **A synthesised anonymous turn id can be a real turn's id**, and then the rows are merged
  (`AnonymousStandsAloneIff`, `RealIdSwallowsAnonymous`).

## Model

| member | source | states |
|---|---|---|
| `LedgerHistory.RunKeepsInvariant` | eidolon/channel_provider/store.py:306-501 | every sequence of transactions keeps the ledger invariant, loses no row and moves each row only forward (active, expired, ended) |
| `LedgerHistory.HistoriesAreOrdered` | eidolon/channel_provider/store.py:306-381 | in every history a device's rows come in generation order, at most one is live, keys never repeat, and a generation's policy is kept or advanced |
| `LedgerHistory.CreateKeepsInvariant` | eidolon/channel_provider/store.py:306-381 | an admitted grant extends the table lawfully and never meets a database constraint; a refusal leaves the table as it was |
| `LedgerHistory.RevokeKeepsInvariant` | eidolon/channel_provider/store.py:391-455 | a revocation at any generation not older than the newest keeps the invariant and never meets a database constraint; a refusal leaves the table as it was |
| `LedgerHistory.LiveIsNewest` | eidolon/channel_provider/store.py:166-170 | a live row has the greatest generation ever recorded for its device and no later row, which is more than the unique index on active rows says |
| `LedgerGuarantees.LiveRowIsCurrentChannel` | eidolon/channel_provider/store.py:269-304 | a live row is its device's current channel whatever the ORDER BY would choose, so every observable row equals its current channel |
| `LedgerGuarantees.CurrentChannelIsLive` | eidolon/channel_provider/store.py:269-285 | the current channel is a live row of the newest generation |
| `LedgerGuarantees.PolicyCheckNeedsOnlyLiveRow` | eidolon/channel_provider/service.py:210-215 | checking a policy against the live row alone decides what the store's scan of every grant of the generation decides |
| `LedgerGuarantees.AdmissionDecidedByLiveRow` | eidolon/channel_provider/store.py:313-368 | a fresh grant commits if and only if the live row alone admits it, so scanning the generation decides nothing more; what admits it is said in the row's fields by `RefreshCommitsIff` and `ProvisionCommitsIff` |
| `LedgerGuarantees.CommittedGrantTakesOver` | eidolon/channel_provider/store.py:306-381 | a committed grant becomes the device's channel, its predecessor's credential is scrubbed, every other device is untouched but for expiry |
| `LedgerGuarantees.LapsedCredentialCanBeRefreshed` | eidolon/channel_provider/store.py:318-363 | a fresh refresh of a lapsed generation that keeps the policy always commits |
| `LedgerGuarantees.RetryReturnsStoredResponse` | eidolon/channel_provider/store.py:318-330 | after any further history the ledger answers a repeated grant with a newer generation's refusal, or with the stored row and nothing changed but expiry; with other content it always refuses |
| `LedgerGuarantees.RetryMeetsRecordedRow` | eidolon/channel_provider/store.py:318-330 | what an operation presented again under a recorded key is answered |
| `LedgerGuarantees.GenerationGrammar` | eidolon/channel_provider/store.py:341-366 | the accepted operations of one generation read (PROVISION REFRESH*)? REVOKE* |
| `LedgerGuarantees.LiveRowOutranksRevocation` | eidolon/channel_provider/store.py:401-433 | a live row of a device with a revocation has a strictly greater generation, provisioned after it |
| `LedgerGuarantees.RevocationIsTerminal` | eidolon/channel_provider/store.py:391-455 | whatever follows a revocation, even one before any provision, a live row comes only from a later provision at a greater generation |
| `LedgerGuarantees.RevokedGenerationTakesNoGrant` | eidolon/channel_provider/store.py:313-366 | a grant at a revoked or older generation is refused after any history |
| `LedgerGuarantees.RevokedDeviceHasNoChannel` | eidolon/channel_provider/store.py:466-487 | a device whose newest row is a revocation has no channel |
| `LedgerAnswers.RefreshCommitsIff` | eidolon/channel_provider/store.py:332-366 | a new refresh of a device's channel at exactly its reference commits if and only if it takes no policy back and the channel has lapsed, or its Manifest revision differs, or the policy's revision is higher, or the adapter observed exactly that row to be stale; otherwise it is an invalid transition and changes nothing |
| `LedgerAnswers.RefreshNeedsItsChannel` | eidolon/channel_provider/store.py:313-366 | a new refresh without a channel at exactly its reference never commits: outdated below a newer generation, else an invalid transition |
| `LedgerAnswers.ProvisionCommitsIff` | eidolon/channel_provider/store.py:313-366 | a new provision commits if and only if no row of its device has its generation or a newer one; which of the two refusals it gets otherwise |
| `LedgerAnswers.CommittedGrantEndsExactly` | eidolon/channel_provider/store.py:367-381 | what a committed grant does to each row before it: of its device exactly the live ones end, each for its own reason, with its credential scrubbed; every other row changes only by expiry |
| `LedgerAnswers.RevocationEndsExactly` | eidolon/channel_provider/store.py:391-455 | a new revocation not below a newer generation commits; the row it records, and the status, reason and scrubbing of each row it ends, and no other |
| `LedgerAnswers.ChannelComesFirst` | eidolon/channel_provider/store.py:269-285 | in any table the current channel is a live grant of its device that no other beats by generation, nor at its own generation by creation time |
| `LedgerAnswers.RepeatedRevocationMeetsItsRow` | eidolon/channel_provider/store.py:400-425 | a revocation on record presented to the ledger again: outdated, a conflict, or its recorded row, nothing changed but expiry |
| `LedgerAnswers.OutdatedIsRefused` | eidolon/channel_provider/store.py:313-317 | below a newer generation every grant and every revocation is refused as such and rolled back |
| `LedgerAnswers.ExpiryLapsesExactly` | eidolon/channel_provider/store.py:457-464 | exactly the active rows whose deadline has come lapse, keeping their credentials |
| `LedgerAnswers.StaleIsOutdated` | eidolon/channel_provider/store.py:313-317 | the comparison with the greatest generation refuses exactly when some row of the device has a newer one, owner domain before claim before trust epoch |
| `ChannelProviderStore.Store.ExpireCredentials` | eidolon/channel_provider/store.py:457-464 | lapses exactly the active rows whose deadline has passed |
| `ChannelProviderStore.Store.Current` | eidolon/channel_provider/store.py:269-285 | finds the device's one live row, or that there is none |
| `ChannelProviderStore.Store.ObservableProvisions` | eidolon/channel_provider/store.py:294-304 | lists the live rows, each being its own device's current channel |
| `ChannelProviderStore.Store.FenceOlderRows` | eidolon/channel_provider/store.py:466-487 | ends exactly the live rows of older generations and scrubs their credentials, as `FenceEndsExactly` says row by row |
| `ChannelProviderStore.Store.RegressesPolicy` | eidolon/channel_provider/store.py:332-340 | whether some grant of the generation carries a policy the incoming one would regress |
| `ChannelProviderStore.Store.Create` | eidolon/channel_provider/store.py:306-381 | the outcome and table `RefreshCommitsIff`, `RefreshNeedsItsChannel`, `ProvisionCommitsIff` and `CommittedGrantEndsExactly` describe, the invariant kept |
| `ChannelProviderStore.Store.Revoke` | eidolon/channel_provider/store.py:391-455 | the outcome and table `RevocationEndsExactly` describes, the invariant kept |
| `ResourceConservation.ProvisionEffect` | eidolon/channel_provider/service.py:196-329 | for every outcome of its calls, an adapter that is no longer configured and a stop or close that raises included: what one attempt opens, commits, closes and answers, decided from the table before it; a call can commit and still fail |
| `ResourceConservation.RevokeEffect` | eidolon/channel_provider/service.py:922-964 | the same of a revocation's resources and rows: nothing happens when the channel cannot be closed, and the database may fail after the close; what it answers is `RevocationIsAnswered` |
| `ResourceConservation.ProvisionKeepsStandingIff` | eidolon/channel_provider/service.py:196-350 | an attempt never closes its own device's channel, and leaves every other live row's resource standing if and only if what it closes is named by none of them |
| `ResourceConservation.RevokeKeepsStandingIff` | eidolon/channel_provider/service.py:922-964 | a revocation leaves every live row's resource standing if and only if it closes no other identity's and, when it closes its own, the database takes it |
| `ResourceConservation.RunStandsIff` | eidolon/channel_provider/service.py:196-964 | over every run of calls on any identities, every live row's resource stands after each call if and only if each call is harmless in that sense |
| `ResourceConservation.DistinctNamesAreHarmless` | docs/channel-provider.md:178 | when resource names tell identities apart, as the documentation says they do, the harmful case is left to revocations the database fails to take: every other run keeps all live rows' resources standing |
| `ResourceConservation.ProvisionOrphansExactly` | eidolon/channel_provider/service.py:247-350 | what an attempt adds to the resources no live row names, however it ends: what it has no use for, its own candidate or its predecessor's resource, exactly when it cannot close it and no other identity stands on it; otherwise nothing |
| `ResourceConservation.RevokeOrphansExactly` | eidolon/channel_provider/service.py:922-964 | a revocation adds to the unnamed resources the live row's own exactly when it commits, that row is lapsed or of another generation, and no other identity's row names it; otherwise nothing |
| `ResourceConservation.RunConserves` | eidolon/channel_provider/service.py:196-329 | over every run of calls the table stays lawful, and unless a call leaks in one of these ways no resource is ever left standing that no live row names |
| `ResourceConservation.StandingIsExactlyClaimed` | eidolon/channel_provider/service.py:196-350 | from an empty service, over every run of harmless calls that do not leak, a resource stands if and only if some live row names it |
| `ResourceConservation.ServingFollowsChannel` | eidolon/channel_provider/service.py:1041-1064 | a conversation opens if and only if the exact generation is active and no scope holds the device; a stop is honoured if and only if it is the current channel, active or lapsed |
| `ResourceConservation.ReservedProvisionKeepsAuthority` | eidolon/channel_provider/service.py:233-256 | while a device is reserved a provision that commits renews the same authority on the same resource |
| `ResourceConservation.ReservedRevokeOnlyExpires` | eidolon/channel_provider/service.py:938-939 | a revocation of a reserved device records no row and closes nothing: it only applies expiry, and succeeds only by repeating a recorded answer |
| `ResourceConservation.ReservedRevokeKeepsAuthority` | eidolon/channel_provider/service.py:922-964 | while a device is reserved, no revocation, of it or of another identity, changes what its channel authorises |
| `ResourceConservation.ReservationFreezesAuthority` | eidolon/channel_provider/service.py:233-256 | over every run in which no release names the device, its channel's authority, generation and resource stay the same |
| `ResourceHazards.LapsedRevocationLeavesOrphan` | eidolon/channel_provider/service.py:940-949 | every first provision revoked after its credential lapsed leaves its resource standing with no row naming it |
| `ResourceHazards.UnclosedPredecessorIsOrphaned` | eidolon/channel_provider/service.py:309-329 | every first provision followed by one of a later generation on another resource that cannot close the first: the call fails although it committed, and the first resource is left standing unnamed |
| `ResourceHazards.FailedRevocationStrandsChannel` | eidolon/channel_provider/service.py:940-964 | every first provision revoked while its credential lasts, the database failing on commit, is left active on a resource already closed |
| `ResourceHazards.TwoIdentitiesShareARoom` | eidolon/channel_provider/adapters/livekit/adapter.py:343-347 | two first provisions of different identities whose grants name one resource, which this naming allows: revoking the first closes the room the second's active channel stands on |
| `ResourceHazards.LosingGrantSparesChannelsIff` | eidolon/channel_provider/service.py:280-297 | against any interference: when the ledger refuses the grant or fails, every live row's resource survives if and only if the candidate is not closed (it renews the channel the attempt saw, or cannot be) or names nothing any live row now stands on |
| `ResourceHazards.SupersededResourceIsOrphanedIff` | eidolon/channel_provider/service.py:309-329 | a grant that commits over a row committed meanwhile retires the channel it saw, not that row: the exact condition under which that row's resource is left standing unnamed |
| `ResourceHazards.ReplayedGrantClosesNothingLive` | eidolon/channel_provider/service.py:298-308 | meeting its own operation already committed, an attempt closes nothing its device's channel stands on; exactly when it answers, and why it fails otherwise, a row that has ended being unreadable |
| `ProviderSystem.EngagedDeviceIsUntouched` | eidolon/channel_provider/service.py:233-256 | wherever a run of the whole provider has got to: no provision or revocation issued while a scene engages a device changes what its channel authorises or its resource, or records its revocation, and no conversation of its own opens |
| `ProviderSystem.EngagedAuthorityIsFrozen` | eidolon/channel_provider/service.py:233-256 | over every interleaving of scenes, shared visits, calls, crashes and restarts, the same for as long as a scene engages the device |
| `ProviderSystem.AuthorityOutlastsReservation` | eidolon/channel_provider/service.py:379-396 | over every such run, from when a scene has reserved a device, crashes and restarts included, its authority, resource and revocations stay the same until that scene's completed closure has been saved, its producers gone and every woken device ended |
| `ProviderSystem.SharedAuthorityIsFrozen` | eidolon/channel_provider/service.py:757-767 | the same for a shared visit, until its transport is closed or its process is gone |
| `ProviderSystem.AuthorityChangesOnlyAfterClosure` | eidolon/channel_provider/service.py:189-194 | through `_provision`, with whatever happens while the reservation is being retired: the channel of a device a scene has reserved changes only if that scene's completed closure was saved in between |
| `ProviderSystem.RevocationCommitsOnlyAfterClosure` | eidolon/channel_provider/service.py:915-920 | the same of `revoke`: no revocation of the device is recorded before that |
| `ProviderSystem.UnreservedIsAnsweredAtOnce` | eidolon/channel_provider/service.py:189-194 | nobody waits for a device that nothing holds: the first try answers, for provisions and revocations alike |
| `ProviderSystem.ProvisionIsGrantedAfterRetirement` | eidolon/channel_provider/service.py:189-194 | a provision of a new generation, asked while its device is reserved, fails as the retirement does, or, once the device is free, is granted by the second try |
| `ProviderSystem.RevocationSucceedsAfterRetirement` | eidolon/channel_provider/service.py:915-920 | the same of a first revocation: it fails as the retirement does, or succeeds by the second try, recorded, the device without a channel |
| `ServiceAnswers.RetriedProvisionIsAnswered` | eidolon/channel_provider/service.py:201-208 | a committed provision retried after any further calls opens, closes and records nothing: it gets the stored response while its row is the channel, and is refused once that row was superseded or revoked, under a newer generation, or with other content |
| `ServiceAnswers.LapsedChannelIsRenewedIff` | eidolon/channel_provider/service.py:233-256 | a lapsed channel is renewed if and only if the request keeps its policy and, while the device is reserved, its whole authority and its resource; then the fresh grant is the channel |
| `ServiceAnswers.RefreshIsAnswered` | eidolon/channel_provider/service.py:210-256 | for every refresh of a device's channel at its reference, nothing failing: refused if it takes a policy back; told to wait if the device is reserved and the authority or the resource would change; granted, on the adapter that channel was opened by, if and only if it has lapsed or its Manifest, policy or observed runtime has moved on |
| `ServiceAnswers.RefreshWithoutChannelIsRefused` | eidolon/channel_provider/service.py:196-256 | a refresh of a device whose channel is gone or at another reference is never granted, and why |
| `ServiceAnswers.ProvisionIsAnswered` | eidolon/channel_provider/service.py:196-256 | a new provision is granted at the selected adapter, its grant the device's channel, if and only if its generation has no row and no newer one exists, it takes no policy back and the device is not reserved; which refusal it gets otherwise |
| `ServiceAnswers.UnopenedIsAnswered` | eidolon/channel_provider/service.py:216-245 | which adapter is asked, a refresh's own and else the selected one, and what is answered when it is not configured or fails to open: nothing is opened or changed |
| `ServiceAnswers.UncommittedIsAnswered` | eidolon/channel_provider/service.py:276-297 | what is answered when the database fails on commit |
| `ResourceAnswers.ResourcesAreSettled` | eidolon/channel_provider/service.py:245-329 | when nothing fails, over any row and resource: a request that succeeds leaves its grant's resource standing and its predecessor's not, unless they are one; one that fails leaves everything as it was but for its own candidate, closed again unless its predecessor stands on it |
| `ResourceAnswers.TroubleIsAnswered` | eidolon/channel_provider/service.py:280-329 | for every fault once a candidate is minted: which error hides which, an adapter no longer configured before a close that raises, and either before the ledger's refusal or the committed response |
| `ResourceAnswers.InterferenceIsSeen` | eidolon/channel_provider/service.py:245-329 | against any interference: the ledger decides on the table a second process left while the adapter was asked, and the attempt closes nothing but its own candidate and the channel it saw |
| `ResourceAnswers.ReplacementMustWait` | eidolon/channel_provider/service.py:247-256 | while its device is reserved, a candidate on another resource is closed again and the request must wait, unless that close raises |
| `ResourceAnswers.RevocationSettlesResources` | eidolon/channel_provider/service.py:939-949 | a first revocation closes exactly the resource of the active row of its reference, if it gets that far, whether or not the database then takes it |
| `ServiceAnswers.RevocationIsAnswered` | eidolon/channel_provider/service.py:922-964 | a first revocation succeeds with its own response if and only if it is not below a newer generation, the device is not reserved, its active channel, if any, can be closed and the database takes it: then it is recorded and the device has no channel; otherwise which failure it gets |
| `ServiceAnswers.RetriedRevocationIsAnswered` | eidolon/channel_provider/service.py:927-935 | a revocation that committed, repeated after any further calls, closes and records nothing: it gets its first response back, a conflict when its content differs, and staleness below a newer generation |
| `ServiceAnswers.ServingIsAnswered` | eidolon/channel_provider/service.py:1041-1071 | a start opens the device's row of exactly this generation while it is active and nothing holds the device, and is otherwise refused as unknown or invalid; a stop closes it, active or lapsed, whoever holds the device |
| `ServiceAnswers.NothingToServe` | eidolon/channel_provider/service.py:1043-1047 | without a live row of exactly this generation both are refused as unknown |
| `ChannelProviderService.Provider.ProvisionOnce` | eidolon/channel_provider/service.py:196-329 | result, table and standing resources of the locked section |
| `ChannelProviderService.Provider.OpenAndCommit` | eidolon/channel_provider/service.py:217-256 | the reservation checks on either side of minting a grant |
| `ChannelProviderService.Provider.Settle` | eidolon/channel_provider/service.py:280-329 | which of the two resources is closed for each answer of the store, and the failure on a replayed row that has ended |
| `ChannelProviderService.Provider.RevokeOnce` | eidolon/channel_provider/service.py:922-964 | result, table and standing resources of the locked section, the channel closed before the commit that may fail; what it answers, the first time and when repeated, is `RevocationIsAnswered` and `RetriedRevocationIsAnswered` |
| `ChannelProviderService.Provider.ConvergeServing` | eidolon/channel_provider/service.py:1041-1064 | the channel a start or stop acts on, and every refusal |
| `PreparedVisit.Preparation.constructor` | eidolon/channel_provider/endpoint_preparation.py:17-43 | a new visit over distinct endpoints, nothing recorded |
| `PreparedVisit.Preparation.Ask` | eidolon/channel_provider/endpoint_preparation.py:95-117 | which requests are refused, which stop the visit, and what an accepted one binds, marks and saves, also when the checkpoint fails; in the visit's fields by `RequestIsAnswered`, `StopIsHeard` and `StartBinds` |
| `PreparedVisit.Preparation.ObserveEnd` | eidolon/channel_provider/endpoint_preparation.py:79-85 | an end is a failure only with a reason, before closing and before a stop |
| `PreparedVisit.Preparation.RecordJoins` | eidolon/channel_provider/endpoint_preparation.py:129-137 | one command id per endpoint, each saved before the next; the first failed write ends the run with that id in memory only |
| `PreparedVisit.JoinsAreCommands` | eidolon/channel_provider/endpoint_preparation.py:129-132 | after any number of joins memory and saved row hold exactly those commands, the row one behind after a failed write |
| `PreparedVisit.Preparation.NoteCleanupError` | eidolon/channel_provider/endpoint_preparation.py:87-93 | the initiating error is kept beside the cleanup's |
| `PreparedVisit.Preparation.RestoreLifecycle` | eidolon/channel_provider/endpoint_preparation.py:56-77 | refuses unowned endpoints, missing correlation and unproved completion; otherwise the saved visit, closed or closing |
| `PreparedVisit.Preparation.EndPending` | eidolon/channel_provider/endpoint_preparation.py:198-213 | each endpoint not already confirmed is asked once; every confirmation is recorded, any failure or unsaved record fails the attempt |
| `PreparedVisit.Preparation.Cleanup` | eidolon/channel_provider/endpoint_preparation.py:182-237 | one close attempt: its visit, saved row and success for every outcome of its calls |
| `PreparedVisit.CloseAttemptIsARun` | eidolon/channel_provider/endpoint_preparation.py:182-237 | a close attempt is a run of the scene protocol, so everything proved of runs holds of it |
| `PreparedVisit.CloseAttemptOutcome` | eidolon/channel_provider/endpoint_preparation.py:182-237 | success if and only if the producers are gone, every pending endpoint confirms and every write succeeds; a failed attempt keeps its confirmations and the initiating failure |
| `PreparedVisit.AllEndsBack` | eidolon/channel_provider/endpoint_preparation.py:198-213 | the loop's record is exactly the pending endpoints that confirmed, and it fails unless all did and were saved |
| `SceneGuarantees.StepKeepsInv` | eidolon/channel_provider/endpoint_preparation.py:95-237 | every step of task, callbacks, cleanup, crash and restart keeps memory no further than what happened and the saved row no further than memory |
| `SceneGuarantees.AllBound` | eidolon/channel_provider/endpoint_preparation.py:116-117 | as many bound devices as distinct handles means every device is bound |
| `SceneGuarantees.DeliverKeepsInv` | eidolon/channel_provider/endpoint_preparation.py:129-137 | a device is woken only by a command already saved |
| `SceneGuarantees.CompleteKeepsInv` | eidolon/channel_provider/endpoint_preparation.py:222-237 | completion is claimed only with producers gone and every attempted device confirmed |
| `SceneGuarantees.RestorableIff` | eidolon/channel_provider/endpoint_preparation.py:56-65 | a coherent row is accepted if and only if no conversation id in it is empty |
| `SceneAnswers.RequestIsAnswered` | eidolon/channel_provider/endpoint_preparation.py:95-117 | a request is accepted if and only if it names a selected device of an active visit by its own join or its bound conversation, and either stops or starts a conversation the device may bind and the checkpoint is written |
| `SceneAnswers.RefusedChangesNothing` | eidolon/channel_provider/endpoint_preparation.py:95-113 | a request refused for anything but a failed checkpoint changes nothing, in memory or saved |
| `SceneAnswers.StopIsHeard` | eidolon/channel_provider/endpoint_preparation.py:106-109 | a stop naming the conversation its device is bound to leaves the visit stopped, and a serving task then unwinds; a stop naming any other leaves the visit as it was; neither changes anything else |
| `SceneAnswers.StartBinds` | eidolon/channel_provider/endpoint_preparation.py:110-117 | an accepted start binds that conversation to that device and nothing else; the row says so if it was written; the visit is prepared exactly when every selected device is bound and that is saved |
| `SceneAnswers.EndIsObserved` | eidolon/channel_provider/endpoint_preparation.py:79-85 | a session that ends for a reason fails an active visit that was not stopped, for exactly that reason; any other end only stops it |
| `SceneAnswers.UnsavedJoinFails` | eidolon/channel_provider/endpoint_preparation.py:129-132 | with one join short of being saved: the scene fails for that cause, exactly that join is in memory only, those before it are saved, nobody is woken |
| `SceneAnswers.SavedJoinsWake` | eidolon/channel_provider/endpoint_preparation.py:129-137 | with every join saved the scene waits, each selected device about to be sent its own |
| `SceneAnswers.ActivatesIff` | eidolon/channel_provider/endpoint_preparation.py:141-157 | the worker is activated exactly when a waiting scene is prepared and not stopped, with exactly the bound conversations; a stopped one fails |
| `SceneAnswers.ReceiptsDecide` | eidolon/channel_provider/endpoint_preparation.py:158-167 | receipts in: ready once that is saved, serving unless already stopped; failed for the first cause if it cannot be saved |
| `SceneAnswers.TaskFails` | eidolon/channel_provider/endpoint_preparation.py:170-174 | a task that fails while it awaits something fails its visit for the first cause recorded |
| `SceneAnswers.TaskEnds` | eidolon/channel_provider/endpoint_preparation.py:167-180 | what cancelling, a seen stop and unwinding do: a stopped visit's task ends, closing unless it failed |
| `SceneAnswers.CleanupBegins` | eidolon/channel_provider/endpoint_preparation.py:191-198 | a close attempt begins only when the task is over and no other is under way, with the producers to quiesce or else exactly the devices that may have been woken and have not confirmed |
| `SceneAnswers.QuiescingDecides` | eidolon/channel_provider/endpoint_preparation.py:194-197 | producers that confirm are recorded gone before any end is asked; if that cannot be saved the attempt fails there |
| `SceneAnswers.EndsDecide` | eidolon/channel_provider/endpoint_preparation.py:200-213 | each device's end, confirmed and recorded or not, and whether the attempt can still complete |
| `SceneAnswers.InterruptedFails` | eidolon/channel_provider/endpoint_preparation.py:87-93 | a failed attempt leaves the visit failed, its first cause kept, the reason beside it, and that saved if it can be |
| `SceneAnswers.CompletionDecides` | eidolon/channel_provider/endpoint_preparation.py:222-237 | with every device confirmed the visit is closed and shows what first went wrong; unsaved it is a failed attempt and the row stays as it was |
| `SceneAnswers.LostEndpointsClose` | eidolon/channel_provider/service.py:538-550 | a ready visit whose endpoints are gone closes for that reason, stopped once that is saved; any other visit is left alone |
| `SceneAnswers.CloseCallsMark` | eidolon/channel_provider/service.py:551-582 | what a close call and its return do to the visit and its row |
| `SceneAnswers.RestoreRefusesIff` | eidolon/channel_provider/endpoint_preparation.py:56-65 | a row is refused if and only if it names a device not selected, ended or bound without being asked, holds an empty id, or claims a completion it does not prove |
| `SceneAnswers.RestoredShowsRow` | eidolon/channel_provider/endpoint_preparation.py:66-77 | a row that is not refused comes back whole, closed or closing whatever state was saved, nothing signalled |
| `SceneAnswers.ProcessComesBack` | eidolon/channel_provider/service.py:493-529 | a crash forgets what is in memory and nothing else; a restart installs the row it can read, its task over and no close under way, and writes it back |
| `SceneTheorems.SavedRowNeverForgets` | eidolon/channel_provider/endpoint_preparation.py:123-237 | in every run, crashes included, each device ever sent room.join is in the saved command ids, and a saved completion means producers gone and every such device confirmed |
| `SceneTheorems.RecoveryCoversEveryWokenDevice` | eidolon/channel_provider/service.py:493-529 | a crash at any point and a restart bring back a visit that will end every woken device, if and only if no saved conversation id is empty |
| `SceneTheorems.ActivatedAtMostOnce` | eidolon/channel_provider/endpoint_preparation.py:141-157 | over every run the worker is activated at most once, with a session for exactly every endpoint |
| `SceneTheorems.SessionsAreWriteOnce` | eidolon/channel_provider/endpoint_preparation.py:100-117 | a bound conversation is never replaced, and only a device asked to join can be bound |
| `SceneTheorems.RecordsOnlyGrow` | eidolon/channel_provider/endpoint_preparation.py:182-237 | commands, confirmed ends and the producers' revocation are never taken back within a process |
| `SceneTheorems.RunsOnlyAddRecords` | eidolon/channel_provider/endpoint_preparation.py:95-237 | over every run of one process commands, confirmed ends and the producers' revocation only grow and no bound conversation changes |
| `SceneTheorems.RetriesNeverRegress` | eidolon/channel_provider/endpoint_preparation.py:182-237 | over every run of close attempts, failures, retries and late callbacks, what is still to obtain never grows |
| `SceneTheorems.EndsAreAskedAfterQuiesce` | eidolon/channel_provider/endpoint_preparation.py:194-207 | an end is asked only after the producers confirmed, and never of a device whose end is on record in memory or saved |
| `SceneTheorems.ClosingNeverRegresses` | eidolon/channel_provider/endpoint_preparation.py:182-237 | what a close still has to obtain never grows across steps and retries |
| `SceneTheorems.RecoveryResumesWhereSaved` | eidolon/channel_provider/endpoint_preparation.py:66-77 | recovery resumes with exactly what the saved row left outstanding |
| `SceneTheorems.SmoothAttemptCompletes` | eidolon/channel_provider/endpoint_preparation.py:222-237 | from every reachable point an attempt whose calls all succeed completes: closed, saved, nothing outstanding, the failure kept as outcome |
| `SceneTheorems.CheckpointRoundTrip` | eidolon/channel_provider/endpoint_preparation.py:49-77 | restoring a visit's own checkpoint is accepted if and only if its conversation ids are non-empty, and gives it back with the state normalised |
| `SceneTheorems.FirstCauseIsKept` | eidolon/channel_provider/service.py:538-550 | wherever a run from opening has got to, crashes and restarts included, every step of the process keeps the recorded first cause; a visit that reads as ready has none, so the read that finds its endpoints gone never replaces one |
| `SceneTheorems.FirstCauseSurvives` | eidolon/channel_provider/endpoint_preparation.py:79-93 | over every run from opening: a cause that was saved survives every callback, status read, failure, retry, failed checkpoint, crash and restart, in the row and in memory; one in memory survives as long as the process |
| `SceneTheorems.CauseSurvivesCrashIff` | eidolon/channel_provider/endpoint_preparation.py:66-77 | a recorded cause survives a crash and a restart if and only if the row holds one by then; if not, nothing has been written since it appeared |
| `SceneTheorems.CauseLostToCrash` | eidolon/channel_provider/endpoint_preparation.py:170-174 | the losing input, for every selection: a task that fails while it waits records its cause without a checkpoint; after a crash the visit comes back without one, and its close ends without an error |
| `SceneTheorems.LostReadStopsIff` | eidolon/channel_provider/service.py:544-550 | a read that finds a serving visit's endpoints gone ends its task if and only if the read could save that; otherwise the visit says closing, its task serves on, and no later read changes that |
| `SceneTheorems.GivenIdsAreRecovered` | eidolon/channel_provider/endpoint_preparation.py:56-65 | over every run in which no device answers with an empty conversation id, a crash and a restart bring the visit back if and only if it was ever saved |
| `SceneTheorems.EmptyIdIsNotRecovered` | eidolon/channel_provider/endpoint_preparation.py:95-117 | the failing input, for every selection and any device of it: the device answers its own join with an empty id, which is accepted and saved; the restart then refuses the row |
| `SceneTheorems.SmoothPreparationServes` | eidolon/channel_provider/endpoint_preparation.py:123-167 | for every selection, a preparation in which every command is recorded, every device answers and every call succeeds ends serving: ready, saved so, and activated once with exactly the conversation each device answered |
| `ReservationSoundness.MoveKeepsSound` | eidolon/channel_provider/service.py:416-842 | every move whatever, crashes, restarts and badly timed writes included, keeps: holders hold whole selections, scenes in memory hold theirs or are idle, no device is engaged twice |
| `ReservationSoundness.DevicesAreEngagedOnce` | eidolon/channel_provider/service.py:416-529 | over every run, no device is engaged by two scenes |
| `ReservationSoundness.SelectionsAreHeldWhole` | eidolon/channel_provider/service.py:485-490 | over every run, a reserved device's selection is reserved as a whole for one holder, for scenes and shared visits |
| `ReservationSoundness.EngagedIsReserved` | eidolon/channel_provider/service.py:735-755 | over every run, while the service listens an engaged device is reserved for its scene, so no shared visit and no other scene can have it |
| `ReservationSoundness.ReservationOutlivesClosure` | eidolon/channel_provider/service.py:462-467 | over every run, a scene loses a device while the process lives only when its completed closure is saved, the producers gone and every woken device ended |
| `ReservationAnswers.SharedVisitIsReservedIff` | eidolon/channel_provider/service.py:718-751 | a listening service reserves a shared visit's whole selection if and only if the visit is new, the selection was admitted, its devices are some, distinct and held by nobody; otherwise nothing changes |
| `ReservationAnswers.SharedVisitReleasesIff` | eidolon/channel_provider/service.py:757-767 | a shared visit gives back exactly its own devices, exactly when its transport was closed |
| `ReservationAnswers.SceneIsOpenedIff` | eidolon/channel_provider/service.py:416-492 | the same for a scene, with how it starts and what it holds when its intent is written and when it is not |
| `ReservationAnswers.SceneStepReleasesIff` | eidolon/channel_provider/service.py:462-467 | a scene's step moves it alone, and its devices are given back exactly when it is the saved end of a cleanup that succeeded |
| `ReservationAnswers.CrashKeepsRows` | eidolon/channel_provider/service.py:493-529 | after a crash exactly the saved scenes are left, with their rows, and no reservation |
| `ReservationAnswers.RestoringDecides` | eidolon/channel_provider/service.py:493-529 | which failure gives a start up, and what a restored scene holds |
| `ReservationSafety.PersistedScenesStayApart` | eidolon/channel_provider/service.py:416-529 | over every run without an orphan write, persisted incomplete scenes share no device and a restart never meets conflicting reservations |
| `ReservationSafety.MoveKeepsInvIff` | eidolon/channel_provider/service.py:447-529 | every move keeps persisted scenes apart and recoverable, exactly unless it persists an unreserved visit as incomplete |
| `ReservationSafety.RunKeepsWorldInv` | eidolon/channel_provider/service.py:416-842 | the same over every run |
| `ReservationSafety.RecoveryFindsDevicesFree` | eidolon/channel_provider/service.py:487-490 | recovery finds the devices of every incomplete scene free |
| `ReservationSafety.RestingIff` | eidolon/channel_provider/service.py:551-582 | a visit that holds nothing stays safely at rest exactly unless a close call writes it incomplete |
| `ReservationHazards.OrphanWriteRefusesRestart` | eidolon/channel_provider/service.py:487-490 | after any orphan write of a readable row, opening its devices again and restarting is refused |
| `ReservationHazards.UnwrittenIntentOrphans` | eidolon/channel_provider/service.py:482-489 | a visit whose intent could not be written holds nothing, and closing it is an orphan write |
| `ReservationHazards.RepeatedCleanupOrphans` | eidolon/channel_provider/service.py:379-396 | so is closing a released scene after a repeated cleanup failed its last write |
| `SceneService.RecoverySucceedsIff` | eidolon/channel_provider/service.py:493-529 | the service comes back listening if and only if every unrestored row holds no empty conversation id and can be written back; otherwise the start is refused, never for conflicting reservations |
| `SceneService.Scenes.OpenPreparedScene` | eidolon/channel_provider/service.py:416-492 | known key, refused selection, reserved selection, and the visit left without a reservation |
| `SceneService.Scenes.FinishScene` | eidolon/channel_provider/service.py:462-480 | the end of a cleanup is the scene's own step; devices are given back, one by one, exactly when its closure is saved, and then every woken device has ended; otherwise no reservation moves |
| `SceneService.Scenes.RouteRequest` | eidolon/channel_provider/service.py:1082-1090 | a device's request goes exactly to the scene its reservation names, is refused without an active channel, and is the scene's own step there |
| `SceneService.Scenes.ReadStatus` | eidolon/channel_provider/service.py:538-550 | a ready visit whose endpoints are gone is told to close for that reason, its task signalled only once that is saved; any other read changes nothing |
| `SceneService.Scenes.SettleClose` | eidolon/channel_provider/service.py:551-567 | a close call settles the visit exactly when nothing is still reserved for it, which looking at its own devices decides |
| `SceneService.Scenes.ReserveAll` | eidolon/channel_provider/service.py:487-490 | the loop reserves exactly the selection |
| `SceneService.Scenes.ReleaseOwn` | eidolon/channel_provider/service.py:463-467 | the loop releases exactly what the scope holds and nothing of another holder |
| `SceneService.Scenes.ReserveShared` | eidolon/channel_provider/service.py:735-751 | a shared visit reserves its whole selection or is refused, as `SharedVisitIsReservedIff` says in terms of who holds what |
| `SceneService.Scenes.RetireShared` | eidolon/channel_provider/service.py:757-767 | its devices are released only when the transport closed |
| `SceneService.Scenes.RestorePreparedScenes` | eidolon/channel_provider/service.py:493-529 | the rows in order, up to the first that cannot be read, written back or reserved |
| `SharedAdmission.Barrier.Ready` | eidolon/channel_provider/shared_admission.py:50-57 | true if and only if everything said so far admits the session: before the deadline, never closed, every invited device accepted its own invitation, never failed it and was in the last observation |
| `SharedAdmission.Barrier.Acknowledge` | eidolon/channel_provider/shared_admission.py:29-38 | keeps accepted and failed devices equal to what the acknowledgements say |
| `SharedAdmission.Barrier.ObserveMembers` | eidolon/channel_provider/shared_admission.py:40-44 | the last complete observation replaces the one before |
| `SharedAdmission.Barrier.Close` | eidolon/channel_provider/shared_admission.py:59-62 | closes and forgets acceptances and presence |
| `SharedAdmission.Barrier.Convene` | eidolon/channel_provider/shared_admission.py:15-27 | a barrier exactly for at least two named devices with distinct invitations and a positive deadline |
| `SharedAdmission.CountingTellsApart` | eidolon/channel_provider/shared_admission.py:18-19 | counting distinct ids decides whether each belongs to one device |
| `SharedAdmission.RefusalIsPermanent` | eidolon/channel_provider/shared_admission.py:29-62 | once closed or failed, nothing said later admits the session |
| `SharedAdmission.LatePollIsFinal` | eidolon/channel_provider/shared_admission.py:50-52 | a late poll closes for good, even against an earlier clock |
| `SharedAdmission.OrderOfAnswersIsImmaterial` | eidolon/channel_provider/shared_admission.py:29-38 | the order of two acknowledgements never matters |
| `SharedAdmission.AnswersAreOwn` | eidolon/channel_provider/shared_admission.py:29-31 | no acknowledgement speaks for two devices |
| `PanelProjection.ReachedPanelFollows` | eidolon/capability_runtime/smarthome/runtime.py:104-340 | a panel none of whose messages is lost agrees with the runtime at every release of the owner's lock, whoever attaches, syncs or detaches meanwhile |
| `PanelProjection.PanelsAgreeOrCanTell` | eidolon/capability_runtime/smarthome/runtime.py:326-340 | whatever is lost, every attached panel agrees, or will see a gap, or missed a snapshot that carried no new sequence number |
| `PanelProjection.TranslationAgrees` | eidolon/capability_runtime/smarthome/runtime.py:166-190 | what panels are told of a batch brings an agreeing replica to the runtime's new states |
| `PanelProjection.LastObservationDecides` | eidolon/capability_runtime/smarthome/runtime.py:174-187 | for a registered device the last observation of the batch decides: offline if unreachable, else online with the state it carries, or, if it carries none, the one that stood just before it |
| `PanelProjection.UnsaidStateStands` | eidolon/capability_runtime/smarthome/runtime.py:181-189 | a device observed once in the batch, reachable and without a state, keeps the state it had before the batch, or is empty if it had none |
| `PanelProjection.ToldOfEach` | eidolon/capability_runtime/smarthome/runtime.py:172-188 | what panels are told of each observation: nothing of an unregistered device, otherwise whether it is reachable and the state it carries or that stood before it, unreachable devices included |
| `PanelProjection.RereadAdopts` | eidolon/capability_runtime/smarthome/runtime.py:279-295 | a re-read takes over the registry and the states read |
| `PanelProjection.RereadShows` | eidolon/capability_runtime/smarthome/runtime.py:279-295 | when a re-read takes a new number and what it shows its panels |
| `PanelProjection.PanelsComeAndGo` | eidolon/capability_runtime/smarthome/runtime.py:104-113 | which panels are attached after attaching, syncing and detaching |
| `PanelProjection.OnlyKnownChange` | eidolon/capability_runtime/smarthome/runtime.py:174-179 | an unregistered device's state does not change |
| `PanelProjection.DeltasPartitionTheBatch` | eidolon/capability_runtime/smarthome/runtime.py:191-200 | a batch is cut into non-empty deltas within the limit with consecutive sequence numbers, together exactly the batch |
| `PanelProjection.ChunksAreTheWhole` | eidolon/capability_runtime/smarthome/runtime.py:191-200 | receiving the chunks does to a replica what the whole batch would |
| `PanelProjection.GapStaysVisible` | eidolon/capability_runtime/smarthome/runtime.py:326-340 | over every run after a panel fell behind, whatever deltas reach it, it applies none of them and its number stays behind until a snapshot reaches it |
| `PanelProjection.LostRefreshShowsIff` | eidolon/capability_runtime/smarthome/runtime.py:279-295 | a lost refresh shows as a gap if and only if registry and online set stayed and states changed |
| `PanelProjection.LostRegistryRefreshIsUnseen` | eidolon/capability_runtime/smarthome/runtime.py:285-289 | a panel that lost a new device's registry refresh is wrong, has a current number and applies the next delta |
| `SmartHomeRuntime.OwnerProjection.ApplyChanges` | eidolon/capability_runtime/smarthome/runtime.py:166-200 | the owner's fields and every replica after a batch, chunk by chunk, panels detaching in between |
| `SmartHomeRuntime.OwnerProjection.FoldObservations` | eidolon/capability_runtime/smarthome/runtime.py:172-188 | the loop's states and items, which `LastObservationDecides`, `UnsaidStateStands`, `OnlyKnownChange` and `ToldOfEach` describe |
| `SmartHomeRuntime.OwnerProjection.SendToAll` | eidolon/capability_runtime/smarthome/runtime.py:326-340 | a send that fails costs only its own panel, in any order |
| `SmartHomeRuntime.OwnerProjection.ReadRegistry` | eidolon/capability_runtime/smarthome/runtime.py:279-295 | when a re-read is broadcast and when it takes a new sequence number |
| `SmartHomeRuntime.OwnerProjection.AttachPanel` | eidolon/capability_runtime/smarthome/runtime.py:104-113 | attach and sync: re-read, then the panel's own snapshot; the panel stays attached if that is lost |
| `SmartHomeRuntime.OwnerProjection.BuildSnapshot` | eidolon/capability_runtime/smarthome/runtime.py:297-324 | exactly the registered devices, online exactly those with a state |
| `BargeInLatency.ReceiverAttenuation` | benchmark/barge_in_latency.py:64-95 | none without reference audio; otherwise the start, relative to the onset, of the first run at or below the threshold to last 100 ms with no gap over 60 ms, and none exactly when there is no such run |
| `BargeInLatency.Scan` | benchmark/barge_in_latency.py:80-95 | the single pass with two variables refines that declarative answer |
| `BargeInLatency.InOrderAnyStretchCounts` | benchmark/barge_in_latency.py:80-95 | for frames in time order a run exists if and only if some quiet stretch without a gap spans 100 ms |
| `BargeInLatency.RunStartUnique` | benchmark/barge_in_latency.py:89-92 | the beginning of a run is determined by any frame of it |
| `BargeInBaseline.ReferenceFilters` | benchmark/barge_in_latency.py:75-76 | the reference frames are exactly those of the 120 ms before the onset, in order |
| `BargeInBaseline.MedianIsMiddle` | benchmark/barge_in_latency.py:80-81 | the median is the middle of any ascending arrangement of the values, or halfway between the two in the middle |
| `BargeInBaseline.BaselineDecides` | benchmark/barge_in_latency.py:75-81 | a baseline exists if and only if there are four recent frames, the last at most 40 ms old, with a median of at least 120; the threshold is twelve decibels below it |
| `SettledTurns.SettledTurnRecords` | benchmark/timeline.py:79-112 | the loop's result is the selection the lemmas below describe |
| `SettledTurns.ChosenIsEarliestBest` | benchmark/timeline.py:110-124 | each turn's record is the earliest of its group that no other outdoes: a final record outdoes one that is not, and among equals the one with more marks |
| `SettledTurns.OrderIsFirstAppearance` | benchmark/timeline.py:99-112 | exactly one record per turn, in the order turns first appear |
| `SettledTurns.AnonymousStandsAloneIff` | benchmark/timeline.py:102-105 | a row naming no turn keeps a turn of its own if and only if no row really has the id made up for it |
| `SettledTurns.AnonymousRecordsApart` | benchmark/timeline.py:102-105 | two rows naming no turn are never filed together unless an earlier row really has that id |
| `SettledTurns.DecimalRoundTrip` | benchmark/timeline.py:105 | the number in a made-up id can be read back, so different numbers give different ids |
| `SettledTurns.RealIdSwallowsAnonymous` | benchmark/timeline.py:102-111 | a row naming no turn is dropped when an earlier turn is really called what it would be |
| `SettledTurns.SettlingTwiceIsSettlingOnce` | benchmark/timeline.py:79-112 | when no row has an id of the made-up form, selecting again changes nothing |

## Left out

- Adapter calls of serving: which channel a start or stop acts on is decided, what opening or closing its session answers is not.
- `ChannelProviderService.Provider.RevokeOnce`: a second process writing between the close and the commit; interference is modelled around provision.
- In `ProviderSystem` a locked call is one step. A scope released by another task while `adapter.open` is awaited is not a step inside the attempt: like the code, the attempt keeps to the reservation it saw before (`eidolon/channel_provider/service.py`, lines 233-256).
- Requests, fingerprints and JSON: `derive_spec`, request parsing and hashing are opaque values; two requests have the same content when their fingerprints are equal.
- SQLite itself: connection handling, WAL, file modes, schema validation and the migration of older databases.
- Owner checks, channel and adapter lookups before a selection is reserved are one argument (`admitted`) of opening a scene or a shared visit.
- The conversion of checkpoints written by older versions, and the defaults for keys such rows lack.
- Two scene catalogs are one here: the key includes the scenario.
- A shared visit's body between reserving and releasing its devices: presence polling, invitations and the lease are not steps of the reservation world; `SharedAdmission` models its barrier on its own.
- A restore that finds a conflict part-way leaves the devices before it reserved in a process that then fails to start; here such a start simply fails.
- `command_status_from_ack` is not part of this model: acknowledgements arrive normalised.
- `MAX_DELTA_CHANGES` is not part of this model: the limit is any positive number.
- Panels are taken to replace what they hold on a snapshot, apply the next delta in sequence and leave one after a gap; a snapshot's area names, scenes and clock offset are one opaque value.
- `PreparedVisit.Preparation.EndPending`: the ends of one attempt come back in selection order; every other order is a run of the scene protocol.
- `BargeInLatency.ReceiverAttenuation`: arithmetic over reals; the attenuation constant is written to fifteen digits.
- `SceneTheorems.SmoothAttemptCompletes`: conditional on the calls succeeding; whether a device ever answers is not decided by this code.
- Observed-change polling, presence reads, session traces, logging and timeouts: best-effort input and output.
- Summaries, percentiles and reports of the benchmark: single functions without state.
