# Nexus Control: the identity authority, verified

This project models the identity authority of Nexus Control (`internal/storage/auth` and
the service code that drives it) and proves what it promises about whole runs:
nothing revoked comes back, every organization has one owner, no invalidation event is
missed, and nobody loses authority silently. A small second part does the same for the `.env`
parser (`internal/config/loadenv.go`).

## How it is built

*Records, InvalidationLog, Schema* hold the rows, the append-only log and the joins; `Schema.Inv`
collects the database constraints (primary and foreign keys, the two partial unique indexes, the
invitation CHECKs) and the facts the transactions are meant to keep (an active organization has an
owner, a published agent has a live seat behind it, an unrevoked device has live agents behind it).

*Organizations, Accounts, Invitations, Sessions, Devices, Entitlements* give every repository
transaction as a function from the state before to a commit or a fault, together with the service's rules for
usernames, display names and plans (*Texts*). *Control* turns
them into steps and runs: timestamps are arbitrary inputs, generated ids are new, and the order of an
unordered SELECT is any order.

*Repository* is the imperative side: a class with one field per table, statements that write one table
each, and one method per transaction with the branches, loops and rollbacks of the code. Each
method is proved to leave exactly the state its transaction function gives, so every theorem about runs
is a theorem about these methods. The statement that writes a membership may only be called where
both unique indexes hold afterwards; the transfer of ownership verifies because the old owner steps
down first. *PasswordService* is the password change of the service on top of it.

*SessionEffects, AccountEffects, OrganizationEffects, DeviceEffects, PlanEffects* say what those transaction functions
mean, without naming how they compute it: when each transaction commits, which rows it leaves, that no other row has
changed, and exactly which events stand behind the old log. Together with the contracts of *Repository* this
fixes what every method does to every table.

*OrganizationInvariant, Preservation, Frames* prove that every step keeps the invariant and which
tables it can touch. *Coherence, Machines, Fences, Returns, Departures, Suspension, InvitationLife, Provenance,
Setup, Replay, Profiles* hold the results about runs. *EventSequence*, *PasswordProtocol* and *PublishRace* are
protocols whose steps interleave; *Migration* and *LegacyImport* are the two imports. *DotEnv* is the parser,
and *EnvLines* says what it makes of any input and of every form a line can take.

Atomic transactions match SQLite as it is configured here (one connection, immediate
transactions: `internal/storage/database.go:74`, `internal/storage/database.go:181`).

## Where the code differs from what it says

- The comment at `internal/storage/auth/node.go:149` says that a late registration must not restore the
  authorization a revocation took. It holds for the same parent session, in every run
  (`Fences.CancelledForGood`), and for every session as long as the parent session's row is there
  (`Returns.RefusedWhileSessionStands`). After a sign-in the device id comes back exactly when that sign-in
  purged its session and every device with the same credential (`Returns.ReturnsExactly`);
  `Returns.DeviceReturns` is a run from empty tables that does it.
- The comment at `internal/storage/auth/agent.go:61` says a stale request cannot publish after a revocation
  has committed, because both take the deployment row. That holds for the member updates, which take it
  (`internal/storage/auth/member.go:95`), but `MutateOrganization` takes only the `control_state` row
  (`internal/storage/auth/organization.go:19`). `PublishRace.LeavingOvertakes` is an interleaving that ends
  with an active agent and no seat, `PublishRace.LeavingOvertakesUpdate` one for a source published before,
  whose publication first waits for the leave (`PublishRace.ExistingSourceWaits`).
  `PublishRace.BackedExactly` says which publications do that, and `PublishRace.RunBacked` that there is
  none when every revocation takes the row.
- The guard against revoking oneself (`internal/storage/auth/member.go:114`,
  `internal/storage/auth/deployment_member.go:131`) is never reached: the rank rule already refuses every
  update of oneself (`Provenance.MemberUpdateByRank`, `Provenance.AccessUpdateByRank`).
- A password change for an unknown user ends in the foreign-key error of the receipt, not in the
  wrong-password answer (`PasswordService.ChangePassword`).
- The import from a single-organization Nexus copies names unchecked and does not ask for an active owner. The
  state it commits is sound exactly when an active owner arrives (`LegacyImport.SoundWithAnOwner`), and a
  later migration accepts it exactly when besides every copied username and display name fits
  (`LegacyImport.AcceptedWithFittingNames`). A username that does not fit can never be repaired
  (`Migration.NeverMigrates`).

- In the `.env` parser an inline comment never becomes part of a value, except where the value is empty: the
  blanks in front of the comment are skipped with those behind the delimiter (`internal/config/loadenv.go:97`), and
  `KEY= # note` binds `# note` (`EnvLines.EmptyTakesComment`).

Cache coherence speaks of users who have access now: a committed access update is silent exactly when it
renames somebody without access (`Coherence.SilentExactlyWhenSuspended`), as the code intends.

## Model

| member | source | states |
|---|---|---|
| `Preservation.RunKeeps` | internal/storage/auth/organization.go:18-136 | In every state of every run: one active owner per active organization, one active seat per user, live seats behind agents, live agents behind devices, all keys and CHECKs, an ordered log |
| `Preservation.StepKeeps` | db/migrations/sqlite/00005_organizations.sql:11-22 | Each of the 22 transactions, committed or rolled back, keeps the invariant |
| `SessionEffects.SignsIn` | internal/storage/auth/session.go:42-72 | Signing in succeeds exactly with an account and a token no surviving session has; the session is added, exactly the unspared ones go with their devices, and the new one resolves until it expires |
| `SessionEffects.SignsOut` | internal/storage/auth/session.go:74-114 | Signing out revokes exactly the session of the token and writes exactly one event, which names it; of a revoked session it does nothing |
| `SessionEffects.SignOutIsFinal` | internal/storage/auth/session.go:85-89 | After a sign-out the session never resolves again and no device under it is ever exchanged, in any later state of any run |
| `SessionEffects.SwapsPassword` | internal/storage/auth/password.go:33-74 | The swap succeeds exactly for an unclaimed request with the stored hash; then only the new password fits, the receipt is there, the user's devices are revoked, and nothing else has changed |
| `SessionEffects.Settles` | internal/storage/auth/password.go:76-83 | Settling writes a not-applied receipt exactly where there is none |
| `AccountEffects.Registers` | internal/storage/auth/registration.go:10-45 | Registration commits exactly for an allowed, free name in an active deployment and gives exactly a plain member with the given hash |
| `AccountEffects.CreatesMember` | internal/storage/auth/deployment_member.go:50-95 | Creation commits exactly for an actor above the role and gives exactly that role |
| `AccountEffects.AcceptsInvitation` | internal/storage/auth/invitation.go:157-234 | An open invitation of an active organization gives exactly a plain platform member without the web, in the invited seat |
| `AccountEffects.Invites` | internal/storage/auth/invitation.go:10-37 | Who outranks the role may invite with a new token; the row is as asked for and no other changes |
| `AccountEffects.Withdraws` | internal/storage/auth/invitation.go:87-155 | An invitation is revoked exactly while it is open and deleted exactly when it is not, by somebody above its role in its organization |
| `AccountEffects.SetsUp` | internal/storage/auth/account.go:17-55 | Setup commits exactly without a deployment; the first account owns platform and organization, works there and has the free plan |
| `AccountEffects.UpdatesAvatar` | internal/storage/auth/account.go:91-110 | An avatar update changes only the avatar and tells exactly users with active access |
| `AccountEffects.UpdatesAccess` | internal/storage/auth/deployment_member.go:97-180 | A committed access update saw the current version and writes exactly role, status and name asked for, with exactly the events for them; access afterwards is what was asked for, and nobody else's changes |
| `AccountEffects.SuspendsAtOnce` | internal/storage/auth/deployment_member.go:134-174 | After a suspension no session of the user resolves and no device of theirs is exchanged |
| `AccountEffects.SuspensionLasts` | internal/storage/auth/deployment_member.go:134-174 | A suspended user stays shut out in every later state until a committed access update lifts it, whatever else happens |
| `AccountEffects.AccessFaults` | internal/storage/auth/deployment_member.go:97-132 | Which fault an access update ends in |
| `OrganizationEffects.Creates` | internal/storage/auth/organization.go:43-49 | Founding commits exactly for somebody who works here without a seat; the name is stored, the founder owns the organization, has just that place, and is told |
| `OrganizationEffects.Joins` | internal/storage/auth/organization.go:50-63 | Joining commits exactly with a usable invitation and no seat; the place is the invited one |
| `OrganizationEffects.Leaves` | internal/storage/auth/organization.go:64-68 | Leaving ends exactly the leaver's seat, agents and devices there and writes one revoking event |
| `OrganizationEffects.Transfers` | internal/storage/auth/organization.go:69-87 | A transfer changes exactly the two roles and tells the new owner, then the old one |
| `OrganizationEffects.Renames` | internal/storage/auth/organization.go:88-95 | After a rename every active member reads the new name at the old role and is told exactly once; nothing else has changed |
| `OrganizationEffects.Dissolves` | internal/storage/auth/organization.go:96-123 | Dissolving ends exactly what the active members have there, tells each once, disables the organization and keeps its name |
| `OrganizationEffects.UpdatesMember` | internal/storage/auth/member.go:76-156 | A committed member update saw the current version and writes exactly seat and name asked for, with exactly the events for them; the user is an admin afterwards exactly if asked for |
| `OrganizationEffects.MemberFaults` | internal/storage/auth/member.go:90-112 | Which fault a member update ends in |
| `OrganizationEffects.NameStays` | internal/storage/auth/organization.go:88-95 | In every run an organization keeps its name until the next committed rename of it |
| `OrganizationEffects.NameLasts` | internal/storage/auth/organization.go:88-95 | So after a committed rename the name is the one given, until the next |
| `OrganizationEffects.SeatStays` | internal/storage/auth/member.go:114-133 | In every run a seat keeps role, status and time until a committed command that writes it |
| `OrganizationEffects.RoleLasts` | internal/storage/auth/member.go:114-133 | So after a committed member update the seat is the one asked for, until the next such command |
| `DeviceEffects.Publishes` | internal/storage/auth/agent.go:55-102 | Publishing commits exactly with the owner's standing; the source's one row, also a revoked one, is active under the given name and avatar, and no other row has changed |
| `DeviceEffects.Registers` | internal/storage/auth/node.go:39-87 | Registration commits exactly under a live session with live agents for a free device or the stored one itself; the row is as asked for, and it can be exchanged wherever the deployment is active |
| `DeviceEffects.Revokes` | internal/storage/auth/node.go:143-171 | Revocation commits exactly for the owner's row or from a live session; the device cannot be exchanged afterwards, and exactly an unrevoked one is announced |
| `PlanEffects.Assigns` | internal/storage/auth/entitlement.go:152-211 | Any active plan can be assigned to anybody with access; the user then has exactly its name and limit, and nobody else's entitlement changes |
| `PlanEffects.WritesPlan` | internal/storage/auth/entitlement.go:117-150 | After a plan change exactly the users of the plan have its new name and limit, and those with active access are told once |
| `PlanEffects.Imports` | internal/storage/auth/account.go:263-333 | An import commits exactly if every row is allowed and assignable; of several rows for one key the last counts, and everybody active is told once |
| `PlanEffects.ImportedQuota` | internal/storage/auth/account.go:263-333 | Whoever an import assigns a plan has the plan of their last row, as last imported |
| `OrganizationInvariant.MutateKeeps` | internal/storage/auth/organization.go:18-136 | Create, join, leave, transfer, rename and dissolve keep the invariant |
| `OrganizationInvariant.HandoverKeeps` | internal/storage/auth/organization.go:69-87 | After a transfer the target alone owns the organization and the old owner is an admin |
| `OrganizationInvariant.EvictSeats` | internal/storage/auth/organization.go:159-170 | Revocation ends exactly the listed users' seats and breaks neither unique index |
| `Preservation.UpdateMemberKeeps` | internal/storage/auth/member.go:76-156 | Rewriting or revoking a seat keeps the invariant |
| `Preservation.UpdateAccessKeeps` | internal/storage/auth/deployment_member.go:97-180 | An access update never removes the last platform owner or breaks a key |
| `Preservation.CreateSessionKeeps` | internal/storage/auth/session.go:42-72 | Purge and delete cascade leave no device without its session |
| `Preservation.RegisterNodeKeeps` | internal/storage/auth/node.go:39-87 | A registered device is backed by live agents of its owner, and its credential is nobody else's |
| `Preservation.AcceptInvitationKeeps` | internal/storage/auth/invitation.go:157-234 | A new account with a seat through an invitation keeps the invariant |
| `Preservation.SubscriptionsKeep` | internal/storage/auth/account.go:263-333 | A subscription import leaves every grant with its plan and the free plan active |
| `Preservation.BlankWhenRequired` | internal/storage/auth/account.go:11-32 | Setup is required exactly when there is no deployment, and then every table is empty |
| `Preservation.MigratedKeeps` | internal/storage/auth/account.go:140-260 | What a migration keeps is a sound authority |
| `Coherence.CacheCoherence` | internal/storage/auth/identity_invalidation.go:39-80 | No event for a user behind the cursor and access now: platform role and status, profile, organization and entitlement are what they were at the cursor |
| `Coherence.StepCoherent` | internal/storage/auth/identity_invalidation.go:23-37 | No transaction changes what a user with access reads without an event for that user |
| `Coherence.MutateCoherent` | internal/storage/auth/organization.go:43-134 | Everybody whose organization, its name or their role changes by an organization command is told |
| `Coherence.ChangeSeatCoherent` | internal/storage/auth/member.go:114-150 | A member update tells the member of every visible change |
| `Coherence.ChangeAccessCoherent` | internal/storage/auth/deployment_member.go:134-174 | An access update tells the user unless access is gone |
| `Coherence.UpsertPlanCoherent` | internal/storage/auth/entitlement.go:117-150 | A plan change tells every active user whose effective plan it is |
| `Coherence.MergeCoherent` | internal/storage/auth/account.go:320-332 | A subscription import tells every active user |
| `Coherence.OnePlace` | internal/storage/auth/session.go:132-162 | The organization join behind a principal has at most one row |
| `Coherence.SilentExactlyWhenSuspended` | internal/storage/auth/deployment_member.go:134-174 | A committed access update changes the view without an event exactly when it renames a user without access and leaves role and status alone |
| `Coherence.LogGrows` | internal/storage/auth/identity_invalidation.go:23-37 | In every run the log only grows at its end |
| `Machines.ExchangeDecided` | internal/service/auth/node.go:122-169 | In every sound state all checks of the exchange pass exactly when device and parent session are unrevoked and the owner works here |
| `Machines.NoSilentLoss` | internal/storage/auth/node.go:94-171 | A device that could exchange once and cannot later was announced to its owner in between; session expiry is no exception |
| `Machines.GrantsOutlive` | internal/storage/auth/session.go:125-130 | Without an event for the owner behind the cursor, device, session and owner's standing are still there, under the same session |
| `Machines.PurgeHeld` | internal/storage/auth/session.go:48-54 | The purge takes no session, expired or not, that a live device hangs on |
| `Machines.StepHeld` | internal/storage/auth/organization.go:159-170 | No single transaction takes a grant without an event for its owner |
| `Fences.CancelledForGood` | internal/storage/auth/node.go:143-171 | A revoked or tombstoned registration never commits again from its session and is never exchanged under it, in any later state |
| `Fences.RevokeNodeFences` | internal/storage/auth/node.go:149-161 | Every successful revocation leaves such a fence, also for a device that was never registered |
| `Fences.StepFencing` | internal/storage/auth/session.go:48-54 | No step revives a session or a revoked device or rewrites a registered row |
| `Returns.RefusedWhileSessionStands` | internal/storage/auth/node.go:63-86 | While the parent session's row is there, a revoked device id is refused to every session in every later state |
| `Returns.ReturnsExactly` | internal/storage/auth/session.go:48-54 | After a committed sign-in a revoked device id registers exactly when the sign-in purged its session and every device with that credential, and the usual conditions hold |
| `Returns.SignedIn` | internal/storage/auth/session.go:42-72 | The live sessions after a sign-in are the new one and the old ones that were not dead |
| `Returns.DeviceReturns` | internal/storage/auth/session.go:48-54 | A run from empty tables registers a device, revokes it, signs in again and registers it again under the same id and credential |
| `Returns.RevokedAndBack` | internal/storage/auth/node.go:149-161 | In that run the device's credential can be exchanged, cannot after the revocation, and can again at the end |
| `Fences.DeadHoldsNone` | db/migrations/sqlite/00009_execution_nodes.sql:7 | The delete cascade takes only revoked devices |
| `Departures.LeavingIsPermanent` | internal/storage/auth/organization.go:96-123 | A device granted before its owner lost the seat is never exchanged or registered again under that session, even after rejoining |
| `Departures.DissolvedForGood` | internal/storage/auth/organization.go:96-123 | A disabled organization never again has an active member, agent or device |
| `Departures.OnlyPublishingRestores` | internal/storage/auth/agent.go:55-102 | A revoked agent becomes active only through publication by its owner, for the same organization and source |
| `PublishRace.BackedExactly` | internal/storage/auth/agent.go:55-102 | In any interleaving the only step that leaves an agent without its seat is a publication whose seat is gone or already swept, and every such one does |
| `PublishRace.RunBacked` | internal/storage/auth/member.go:90-97 | If every revocation also takes the deployment row, or no publication comes too late, every published agent has its seat in every state |
| `PublishRace.LeavingOvertakes` | internal/storage/auth/organization.go:19 | An interleaving of a publication and a leave that ends with an active agent and no seat |
| `PublishRace.ExistingSourceWaits` | internal/storage/auth/agent.go:76-82 | The publication of an existing source waits exactly while a revocation of its seat that has updated the agents is under way; otherwise it comes too late exactly when the seat is gone |
| `PublishRace.LeavingOvertakesUpdate` | internal/storage/auth/organization.go:159-170 | The same for an existing source: its publication waits for the leave to end, then switches the agent on without the seat |
| `Departures.DissolveAnnounces` | internal/storage/auth/organization.go:96-123 | Dissolving empties the organization and writes exactly one revoking event per active member |
| `Departures.LeaveAnnounces` | internal/storage/auth/organization.go:64-68 | Leaving ends seat, agents and devices of the leaver and writes one revoking event for them |
| `Departures.RemovalAnnounces` | internal/storage/auth/member.go:135-150 | Removing a member empties the seat; the last event revokes it and at most a profile event precedes |
| `Departures.OwnerStays` | internal/storage/auth/organization.go:64-99 | Leaving is refused exactly to the owner; dissolving, and handing over to another member with access, is the owner's alone; owner and admins rename |
| `Departures.NoSeatNoDevice` | internal/storage/auth/organization.go:159-170 | Without the seat every device of the pair is revoked |
| `Suspension.SuspensionIsFinal` | internal/storage/auth/deployment_member.go:153-174 | Sessions present when access is taken never resolve again and carry no exchange, whatever is restored later |
| `Suspension.PasswordChangeRevokes` | internal/storage/auth/password.go:57-73 | A committed change leaves the user no live device, nobody else loses one, and there is exactly one event per revoked device |
| `InvitationLife.UsedAtMostOnce` | internal/storage/auth/organization.go:50-63 | In any run an invitation is used or revoked at most once, never both, and before its expiry |
| `InvitationLife.DeletionIsFinal` | internal/storage/auth/invitation.go:118-143 | Only terminal invitations are deleted, nobody's seat changes, and the id is never used again |
| `InvitationLife.StepLives` | internal/storage/auth/invitation.go:87-234 | What each event does to the row; use gives exactly the invited seat; every other transaction leaves the row alone |
| `Provenance.OwnersTrace` | internal/storage/auth/organization.go:69-87 | Every later owner founded the organization or received it from the owner of that moment, and has owned it since |
| `Provenance.AdminsTrace` | internal/storage/auth/invitation.go:10-37 | Every later admin got the role by the owner's rewrite, by handing over ownership, or by an invitation the then owner made |
| `Provenance.MemberUpdateByRank` | internal/storage/auth/organization.go:144-157 | A member update passes exactly when the actor's live rank is above the current and the next role; never on oneself |
| `Provenance.AccessUpdateByRank` | internal/storage/auth/deployment_member.go:201-217 | The same for platform access |
| `Provenance.StepCaused` | internal/storage/auth/member.go:108-120 | No other step makes an owner or an admin |
| `Setup.PlatformOwnersFixed` | internal/storage/auth/deployment_member.go:125-137 | After setup nobody becomes or stops being an active platform owner |
| `Setup.SetupOnce` | internal/storage/auth/account.go:11-32 | Once there is a deployment, setup is never required and never succeeds again |
| `Setup.AlwaysEntitled` | internal/storage/auth/entitlement.go:10-28 | Every deployment member has an effective entitlement: the assigned plan, else the free one |
| `Profiles.StepTexts` | internal/service/auth/validate.go:15-27 | No transaction stores a username, display name or plan that a migration scan would refuse |
| `Profiles.RunTexts` | internal/service/auth/entitlement.go:139-169 | Names and plans that fit once fit in every later state of a run |
| `Profiles.UsernamesNeverChange` | internal/storage/auth/account.go:424-457 | A username never changes, in any run |
| `Texts.UsernameFixed` | internal/service/auth/validate.go:15-27 | The allowed usernames are exactly those that normalization accepts and leaves alone |
| `Texts.BlankTrims` | internal/service/auth/import.go:446-451 | Trimming leaves nothing exactly of blank texts |
| `Replay.ReplayIsIdempotent` | internal/storage/auth/node.go:63-86 | While session, device and access live, repeating a registration with the same agents in any order changes nothing and is accepted; anything else is refused; the stored scope stays the registered one |
| `Replay.CanonicalForgets` | internal/service/auth/node.go:66-68 | Sorting and compacting forgets exactly order and repetition |
| `EventSequence.CommitOrderIsIdOrder` | internal/storage/auth/identity_invalidation.go:10-37 | In every interleaving a later commit has larger ids than everything visible before |
| `EventSequence.ExactlyOnce` | internal/storage/auth/identity_invalidation.go:45-80 | Every replica has received the committed events between its start and its cursor, each once, in order; a short page brings it level |
| `EventSequence.PollDelivers` | internal/storage/auth/identity_invalidation.go:45-80 | A poll returns as much of what waits as its limit allows, and moves the cursor forward whenever anything waits |
| `EventSequence.EverythingArrives` | internal/handler/auth/http.go:190-199 | Once commits pause, polls whose limits add up to what waits deliver every event, whatever runs between them |
| `EventSequence.ReceivedGrows` | internal/handler/auth/http.go:195-198 | The cursor never moves back and received events stay received |
| `EventSequence.DoKeeps` | internal/storage/auth/repository.go:31-37 | Only the holder of the row has ids pending, all beyond the table; every step keeps it |
| `EventSequence.WithoutTheLock` | internal/storage/auth/identity_invalidation.go:9 | Without the lock there is a run in which a replica passes an event for good |
| `InvalidationLog.Batch` | internal/service/auth/identity_invalidation.go:21-23 | A limit in 1..256 is used as given; the effective limit always lies there |
| `InvalidationLog.ForUsersShape` | internal/storage/auth/organization.go:88-95 | One event per listed user, with consecutive ids behind the old log |
| `PasswordProtocol.ReceiptsAreImmutable` | internal/storage/auth/password.go:76-83 | Over any interleaving a receipt never changes once written |
| `PasswordProtocol.ReceiptsMatchSwaps` | internal/storage/auth/password.go:33-74 | Committed receipts and credential swaps are the same keys, each swap once, and a user's hash is that of their last swap |
| `PasswordProtocol.AnswersAreTrue` | internal/service/auth/user.go:12-82 | Success only with a committed receipt, refusal after the first read only with a not-applied one and no swap; the missing-outcome branch is unreachable |
| `PasswordProtocol.SwapKnowsThePassword` | internal/service/auth/user.go:33-47 | The hash a swap replaces is the one the call verified, and the current password fits it |
| `PasswordProtocol.StepKept` | internal/storage/auth/password.go:57-63 | No other transaction changes a stored credential or writes a committed receipt |
| `PasswordService.ChangePassword` | internal/service/auth/user.go:12-55 | An undisturbed call: its exact answer, the receipt behind every answer, and the full state of a success |
| `PasswordService.AnswersExactly` | internal/service/auth/user.go:12-55 | Each answer of an undisturbed call, exactly by receipt, account, password and input |
| `PasswordService.AloneAnswers` | internal/service/auth/user.go:12-82 | The steps of the interleaved protocol, undisturbed, end in the very answer of the service method |
| `PasswordService.RejectPasswordChange` | internal/service/auth/user.go:57-66 | Reports success for a receipt that says committed, the rejection for one that says not applied; without one it writes not applied and rejects, or fails for an unknown user |
| `Migration.ScanRebuilds` | internal/service/auth/import.go:252-354 | Whatever order the queries answer in, importing the scan gives back the source's tables and log |
| `Migration.MigrationRoundTrip` | internal/service/auth/import.go:118-228 | A reachable source is imported exactly when its names and plans fit: then every insert succeeds and every principal and entitlement reads the same, without sessions, devices and receipts; else the target stays |
| `Migration.AlwaysMigrates` | internal/service/auth/import.go:252-354 | A source whose names and plans fit at one state is accepted at every later one |
| `Migration.BornHereMigrates` | internal/service/auth/import.go:252-354 | An authority that began with blank tables is accepted in every state that has a deployment |
| `Migration.BlankIsUntouched` | internal/storage/auth/account.go:158-177 | The import's row counts find a sound target untouched exactly when setup would find it blank |
| `Migration.ImportControlSQLite` | internal/service/auth/import.go:118-157 | Scan and inserts together: for any sound source and target, in any query order, exactly the import transaction of the runs |
| `Migration.NeverMigrates` | internal/service/auth/import.go:446-469 | A username the rules refuse shuts the migration for good |
| `Migration.ImportControlDeployment` | internal/storage/auth/account.go:140-260 | Refuses a used target, stops at the first violated constraint, else builds exactly the scanned rows |
| `Migration.InsertAll` | internal/storage/auth/account.go:190-259 | An insert loop succeeds exactly when each row is new and admitted beside the rows before it |
| `Migration.SeatRowsInsert` | internal/service/auth/import_organization.go:28-44 | Membership rows of a sound source pass both unique indexes in any order |
| `Migration.ScanControlUsers` | internal/service/auth/import.go:252-354 | Accepts exactly one password identity and membership per user, a username and display name that fit, and an active platform owner |
| `Migration.ScanControlPlans` | internal/service/auth/import.go:356-412 | Accepts exactly a nonempty list of plans whose key, name, notes and status pass |
| `Migration.ReachableAccepted` | internal/service/auth/import.go:446-469 | The validation accepts a reachable source exactly when its names and plans fit |
| `Migration.CursorSurvives` | internal/storage/auth/account.go:234-245 | Of every page the target ever gives, the moved part is the source's own page and the rest has larger ids than everything moved |
| `Migration.ScanControlSnapshot` | internal/service/auth/import.go:159-228 | Accepts exactly the valid sources and returns every scanned row |
| `LegacyImport.SoundWithAnOwner` | internal/storage/auth/account.go:359-421 | The imported state is sound exactly when some user arrives as an active owner |
| `LegacyImport.AcceptedWithFittingNames` | internal/storage/auth/account.go:359-378 | An authority born this way is accepted by a later migration exactly when an active owner arrived and every copied name fits |
| `LegacyImport.CapitalOwnerIsStuck` | internal/service/auth/import.go:25-72 | One owner named "A" makes a sound authority that no migration accepts |
| `LegacyImport.UserArrives` | internal/storage/auth/account.go:359-421 | Every user arrives with exactly the account, hash, platform access and seat of its item, second active owners as admins, and nobody else arrives |
| `LegacyImport.SeatsOfItemsFit` | internal/storage/auth/account.go:405-420 | The fold keeps both indexes at every insert: at most one active owner, and one exactly if an active owner arrives |
| `LegacyImport.FirstOwnerKeeps` | internal/storage/auth/account.go:405-415 | The first active owner is the one who keeps the organization |
| `LegacyImport.ImportMembers` | internal/storage/auth/account.go:405-420 | The loop with its owner count computes that fold |
| `Repository.Repository.MutateOrganization` | internal/storage/auth/organization.go:18-136 | Leaves exactly the state of the command's transaction, which `OrganizationEffects` describes, or the unchanged state and the fault |
| `Repository.Repository.TransferOrganization` | internal/storage/auth/organization.go:69-87 | Demote, then promote: both indexes hold after each statement |
| `Repository.Repository.DissolveOrganization` | internal/storage/auth/organization.go:96-123 | The loop over the members evicts them all, then the organization is disabled |
| `Repository.Repository.RevokeOrganizationMember` | internal/storage/auth/organization.go:159-170 | Three updates and one event |
| `Repository.DemotedIndexes` | db/migrations/sqlite/00010_organization_owner.sql:10 | Both unique indexes hold between and after the two statements of a transfer |
| `Repository.FoundIndexes` | db/migrations/sqlite/00005_organizations.sql:21 | Founding fits both indexes because the founder has no seat and the organization is new |
| `Repository.InvitedIndexes` | internal/storage/auth/organization.go:138-142 | Joining fits both indexes because the joiner has no seat and no invitation makes an owner |
| `Repository.Repository.UpdateMember` | internal/storage/auth/member.go:76-156 | The statements of a member update leave exactly its transaction's state, which `OrganizationEffects.UpdatesMember` describes |
| `Repository.SeatGone` | internal/storage/auth/member.go:114-150 | Seat, name, profile event and eviction, in this order, are the closed form of a removal |
| `Repository.Repository.UpdateDeploymentMember` | internal/storage/auth/deployment_member.go:97-180 | The statements of an access update leave exactly its transaction's state, which `AccountEffects.UpdatesAccess` describes |
| `Repository.AccessStatements` | internal/storage/auth/deployment_member.go:134-174 | Access row, name, profile event, session fence and principal event, in this order, are the closed form |
| `Repository.Repository.CreateOwner` | internal/storage/auth/account.go:17-55 | First deployment, organization, account, seat and plans, only where no membership is active |
| `Repository.Repository.AcceptInvitation` | internal/storage/auth/invitation.go:157-234 | Account, seat and acceptance together, under both indexes |
| `Repository.Repository.CreateSession` | internal/storage/auth/session.go:42-72 | Purge, insert and sign-in time, all rolled back when the insert fails |
| `Repository.Repository.RevokeSession` | internal/storage/auth/session.go:74-114 | Leaves the state `SessionEffects.SignsOut` describes; returns the session the token names exactly if that changed something |
| `Repository.Repository.TryCommitPasswordChange` | internal/storage/auth/password.go:33-74 | Claim, compare-and-swap, device revocation; a failed swap takes the claim back |
| `Repository.Repository.RevokeUserNodes` | internal/storage/auth/node.go:94-120 | Revokes the user's devices and appends one event per row it returned |
| `Repository.Repository.RegisterNode` | internal/storage/auth/node.go:39-87 | Canonical agents, live session and agents, then insert, replay or conflict; returns the stored row |
| `Repository.Repository.RevokeNode` | internal/storage/auth/node.go:143-171 | Tombstone, idempotent repeat, or revocation with one event |
| `Repository.Canonicalise` | internal/service/auth/node.go:66-68 | The loop computes the canonical list |
| `Repository.Repository.UpsertSubscriptionPlan` | internal/storage/auth/entitlement.go:117-150 | The plan, and one event per active user it is effective for |
| `Repository.Repository.ImportSubscriptions` | internal/storage/auth/account.go:263-333 | Plans, grants, events; a row without access or plan rolls everything back |
| `Repository.Repository.ListIdentityInvalidations` | internal/service/auth/identity_invalidation.go:13-38 | For any cursor and limit: in id order, nothing skipped, nothing twice, at most the effective limit |
| `Repository.Repository.VerifyOwnedAgents` | internal/service/auth/agent.go:63-95 | All or nothing over the distinct ids, each with its record |
| `Repository.Repository.NodeByCredential` | internal/storage/auth/node.go:89-92 | The unrevoked device with this credential, or none |
| `Repository.Repository.ExchangeNodeToken` | internal/service/auth/node.go:122-169 | Succeeds exactly for a granted device; the token's scope is the registered one; the organization and agent refusals are unreachable |
| `DotEnv.ParseEnvBytes` | internal/config/loadenv.go:39-60 | Ends on every input, the rest strictly shrinking, and computes the statement-by-statement meaning that `EnvLines` characterises |
| `DotEnv.LocateKeyName` | internal/config/loadenv.go:82-112 | The byte loop finds the key and the rest, or the exact error |
| `DotEnv.ExtractVarValue` | internal/config/loadenv.go:115-167 | The byte loop finds value and rest, or reports the missing quote, as `EnvLines.PlainValue` and `EnvLines.QuotedValue` have them |
| `DotEnv.StartSkips` | internal/config/loadenv.go:63-79 | Before a statement nothing but white-space runes and whole comment lines is skipped; where none starts at most an unfinished comment is left |
| `EnvLines.PlainValue` | internal/config/loadenv.go:145-166 | Any unquoted value ends before the first ` #` of its line, unless the line begins with it, without blanks at its end and with variables expanded |
| `EnvLines.QuotedValue` | internal/config/loadenv.go:118-143 | Any quoted value is what stands before the first unescaped quote, in double quotes with escapes and then variables expanded; without one it is an error |
| `EnvLines.KeyIs` | internal/config/loadenv.go:82-112 | Any key is the name behind `export ` and blanks, without white space at its end, or exactly which error |
| `EnvLines.UnixIs` | internal/config/loadenv.go:40 | Every CRLF becomes a line feed and every other byte stays |
| `EnvLines.LinesReadBack` | internal/config/loadenv.go:39-60 | Every file of assignments in any quotes, with `export`, blanks, either delimiter and comments, reads back as its bindings, expanded in order |
| `EnvLines.EmptyTakesComment` | internal/config/loadenv.go:95-97 | An empty value with a comment behind it takes the comment for its value |
| `EnvLines.FileReadsBack` | internal/config/loadenv.go:39-60 | The same through the whole parser |
| `DotEnv.EnvRoundTrip` | internal/config/loadenv.go:39-60 | Printing any list of valid keys and values as quoted lines and parsing gives the last-wins map |
| `DotEnv.QuotedReadsBack` | internal/config/loadenv.go:121-143 | A single-quoted value reads back as itself exactly when inner quotes are escaped and it does not end in a backslash |
| `DotEnv.UnixSpares` | internal/config/loadenv.go:40 | The line-ending replacement spares a text exactly when it has no CRLF |
| `DotEnv.LastWinsIs` | internal/config/loadenv.go:57 | A key is bound exactly if some line has it, to the value of the last such line |

## Left out

- HTTP handlers, cookies, origin checks and JSON envelopes; only the cursor rule of the event listing is kept.
- Password hashing, token signing, digests and random ids: hashes and digests are injective opaque values, generated ids are new values.
- Several deployments: the model has at most one, and drops deployment ids, identity ids, credential ids and creation times.
- Columns without a property: last seen, last login, client address, user agent, organization and plan creation times.
- Listing functions, their sort orders and limits, the agent directory of an exchange, and `TouchSession`: they change nothing the results speak of.
- The remaining handlers of Repository.Repository (registration, member creation, avatar, invitations, settling, publishing, entitlements): each is proved to leave its transaction's state and keep the invariant, but they have few branches and get no row.
- Service checks on the caller's role that the transaction repeats on live rows; trimming and lower-casing before the username, display name and plan rules; length and character rules of other texts (organization, deployment, agent and device names).
- Migration.ScanControlUsers: ids, hashes and the algorithm name are plain values of the model and never blank or unknown, so those refusals have no counterpart.
- Migration.ScanControlPlans: a token limit is never negative in the model, as the column's CHECK has it.
- The microsecond version check is modelled as equality of the version; that it prevents lost updates would need a strictly increasing clock.
- Interleaved steps of PostgreSQL other than the event sequence, the password protocol and publishing; the results about runs are about serialized transactions.
- Migration.ImportControlDeployment: works on the values of the target's tables, not on the class fields; rollback is returning the fault.
- Migration.InsertEvents: refuses events that do not come in increasing id order; the scan reads them in that order, so this is the primary key's refusal.
- Repository.Repository.VerifyOwnedAgents: takes ids that are already trimmed and nonempty.
- DotEnv.ExtractVarValue: variable and escape expansion are parameters, so nothing is said about what they compute.
- DotEnv.EnvRoundTrip: is about keys of letters, digits, `_` and `.`; the parser also accepts keys with inner white space.
- EnvLines.LinesReadBack: keys are printed from letters, digits, `_` and `.`; what the parser makes of other keys is in EnvLines.KeyIs.
- Reading the files, setting the process environment, server start-up, configuration and schema migrations.
