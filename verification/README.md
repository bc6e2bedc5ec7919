# Kamaji, modelled and verified in Dafny

Kamaji is a Kubernetes operator that runs the control planes of tenant clusters as pods of a management
cluster. This project models the parts of it where correctness is hard to see from one function, and
proves what they are for:

- **Data store migration** (`Migration*`): the main reconcile pass, the migration Job, the tenant-side
  controller and the tenants' own writes interleave around the recorded status and the freeze webhook.
- **Tenant-side managers and trigger channels** (`SootManager`, `SootReconciler`, `TriggerChannel`): one
  in-memory manager per tenant, and the one-slot channels that wake its controllers.
- **The reconcile pipeline** (`OptimisticWrites`, `StatusWriter`, `StatusNames`, `Certificate*`):
  optimistic writes, status names handed from handler to handler, and everything that hangs off a
  certificate authority which may be rotated in any pass.
- **The Deployment builder** (`NamedLists`, `Pod*`, `ApiServerFlags`, `ExtraArguments`,
  `ArgumentTables`): in-place edits of the pod specification and the merge of kube-apiserver flags.
- **Versions, ports, key ranges, quoting, printing, addresses** (`Versions`, `UpgradeRuns`,
  `ServicePorts`, `KonnectivityPort`, `EtcdRanges`, `SqlQuoting`, `JsonStrings`, `JsonValues`, `JsonPatch`,
  `DnsDefaults`, `DnsNetworks`).

Protocols are state machines on values: `Step(w, a)` gives the state after action `a`, or `None` where
the action is not possible, and a run is any sequence of steps, so every interleaving, failure and early
return is covered. Code that works by changing things is modelled as classes and methods with loops, and
proved to do what the step functions say. `dafny verify dfyconfig.toml` checks the whole project.

Conventions: the API server commits a write only over the version it was based on and reads see the
latest commit; MD5 is injective; keys of certificates are numbers and a certificate names the key that
signed it; a text that does not parse is `None`; wall-clock time, retry limits and back-off are choices
of the environment.

## What the code does not give

Each of these is a lemma below, with the exact condition where there is one.

- A tenant write can be lost in a migration if the desired data store moves back and forth while a complete
  Job stands (`MigrationLimits.SpecMovedBack`), if a tenant-side step still remembers Ready when Migrating
  is recorded (`SootRemembersReady`), if writes are limited (`WriteLimitedThawsEarly`), if the pass that
  created the Job is cut short before it records Migrating (`AbortedPassStaysReady`), or if a version edit is
  taken back under the upgrade handler, which then records Ready (`UpgradeWithdrawnThawsEarly`). With each of
  these excluded nothing is lost, whatever else is edited (`MigrationSafety.MigrationLosesNothing`).
- The clean-up handler of the migration never deletes a Job, because the Deployment handler has just
  rewritten the status it tests (`MigrationSafety.CleanUpNeverDeletes`).
- A forged `super-admin.conf` that trusts the CA and is valid is kept when the other file in its Secret has
  to be rendered and the configuration's checksum agrees (`CertificateSafety.AdulteratedSuperAdminIsKept`);
  its in-cluster variant, once deleted, then stays missing
  (`CertificateSafety.MissingVariantComesBackExactly`). A Konnectivity kubeconfig forged under its recorded
  annotation is kept, too (`CertificateSafety.KonnectivityConfigIssuedExactly`). A Konnectivity certificate
  that is signed again under the same CA does not reach its kubeconfig
  (`CertificateSafety.KonnectivityCertificateEmbeddedExactly`).
- With kine, mounts that start from scratch settle in the second build only
  (`PodMounts.OneBuildSettlesMountsExactly`), and an extra argument can outlive its list when the digest
  does not tell two lists apart (`ExtraArguments.StaleExactlyOnEqualDigests`).
- An object without a checksum may go unrecorded (`StatusNames.UnmarkedObjectIsNotRecorded`).
- The minor version may wrap around on a change of the major version (`Versions.MinorWrapsAround`), and
  the recorded version may skip a minor, exactly after an edit that nothing checks any more
  (`UpgradeRuns.SkipNeedsUnsafeEdit`).
- One pass over the Service's ports may lose an additional port (`ServicePorts.OnePassSettlesExactly`), and
  Konnectivity's port is never removed (`KonnectivityPort.PortIsNeverRemoved`).
- With host bits the default DNS address may leave its network (`DnsDefaults.DefaultInNetworkExactly`).
- The JSON Patch printer drops bytes of every character outside ASCII (`JsonStrings.AccentIsLost`,
  `JsonStrings.StringRoundTrip`).

## Model

| member | source | states |
|---|---|---|
| `MigrationSafety.SwitchNeedsCompleteJob` | internal/resources/datastore/datastore_storage_config.go:107-116 | In every run the recorded data store moves from A to B only in the storage handler of a pass connected to B, while a complete Job with target B and origin A stands. |
| `MigrationSafety.JobCreatedAfterFreeze` | internal/resources/datastore/datastore_migrate.go:102-182 | In every run each Job was created in a pass that installed the freeze webhook before, with nothing of that pass in between. |
| `MigrationSafety.GuardedStep` | controllers/soot/controllers/migrate.go:46-77 | While Migrating is recorded and no tenant-side step remembers another status, no step removes the webhook. |
| `MigrationSafety.FreezeHolds` | controllers/soot/controllers/migrate.go:46-77 | In every run, once frozen under Migrating, the webhook stays at least until the status becomes Ready or WriteLimited. |
| `MigrationSafety.ThawNeedsRollout` | internal/resources/k8s_deployment_resource.go:90-152 | Without write limitation and withdrawn upgrades, a freeze is lifted only after a pass found the last change observed, no replica unavailable, and all replicas asked for updated, ready and alone, with no pod of another data store left. |
| `MigrationSafety.StatusExactly` | internal/resources/k8s_deployment_resource.go:90-166 | For each of the seven statuses, exactly when it is reported, on the fields of the specification and of the Deployment. |
| `MigrationSafety.MigrationLosesNothing` | internal/resources/datastore/datastore_migrate.go:102-213 | End to end, from the creation of the Job, however fast it is. Provided that pass records Migrating while no tenant-side step remembers Ready, and, until the webhook goes, the target stays the same, writes are not limited and no upgrade is withdrawn under the upgrade handler (any other edit is allowed): the first state without the webhook has the record on the target, runs only API servers of the target, and the target holds every object the origin held when the Job was created. |
| `MigrationSafety.LaunchHolds` | internal/resources/datastore/datastore_migrate.go:149-198 | From the creation of the Job to the write of the status nothing is lost, whatever the Job does, as long as the webhook stands, the target stays the same and writes are not limited. |
| `MigrationSafety.CleanUpNeverDeletes` | internal/resources/datastore/datastore_migrate.go:85-100 | The clean-up handler at the end of a pass never deletes the Job. |
| `MigrationSafety.InvHolds` | controllers/tenantcontrolplane_controller.go:243-280 | Every reachable state of the migration protocol satisfies the invariant the results above rest on. |
| `MigrationLimits.SpecMovedBack` | internal/resources/datastore/datastore_migrate.go:102-182 | A run in which the specification moves to B, back to A and to B again loses an accepted write. |
| `MigrationLimits.SootRemembersReady` | controllers/soot/controllers/migrate.go:62-68 | A run in which a stale read of Ready removes the freeze during the copy and a write is lost. |
| `MigrationLimits.WriteLimitedThawsEarly` | internal/resources/k8s_deployment_resource.go:90-107 | A run in which a write-limited tenant is unfrozen before the rollout. |
| `MigrationLimits.AbortedPassStaysReady` | internal/resources/datastore/datastore_migrate.go:172-178 | A run in which the pass is cut short before it records Migrating: Ready stays recorded, the freeze is lifted and a write is lost. |
| `MigrationLimits.UpgradeWithdrawnThawsEarly` | internal/resources/kubeadm_upgrade.go:110-120 | A run in which a version edit is taken back under the upgrade handler: a conflict makes it record Ready in the middle of the migration, the freeze is lifted and a write is lost. |
| `MigrationLimits.SettledIsReachable` | controllers/tenantcontrolplane_controller.go:243-302 | The tenant these runs start with is reached from its creation. |
| `MigrationProgress.UndisturbedMigrationArrives` | internal/resources/datastore/datastore_migrate.go:102-198 | From any state in which a migration is due, two passes and the Job take the record to the target with the origin's objects copied. |
| `MigrationProgress.FrozenPassDecides` | internal/resources/datastore/datastore_migrate.go:119-182 | Behind the freeze exactly one thing can happen to the Job: it is created, deleted because its arguments differ, waited for, or accepted. |
| `MigrationProgress.StaleJobIsReplaced` | internal/resources/datastore/datastore_migrate.go:149-157 | A Job made for something else is deleted by one pass and replaced by the next. |
| `MigrationProgress.PassLaunches` | internal/resources/datastore/datastore_migrate.go:102-198 | A pass that finds no Job leaves the tenant frozen and Migrating, with the wanted Job. |
| `MigrationProgress.JobCopies` | cmd/migrate/cmd.go:100-118 | The Job leaves the origin's objects in the target, next to what it held unless it was to be cleaned. |
| `MigrationProgress.PassSwitches` | internal/resources/datastore/datastore_storage_config.go:107-116 | A pass that finds the wanted Job complete records the new data store. |
| `MigrationProgress.SootFollowsStatus` | controllers/soot/controllers/migrate.go:46-77 | A tenant-side reconciliation brings the webhook in line with the status: there under Migrating, gone under Ready and WriteLimited, else as it was. |
| `MigrationProgress.FinishedRolloutThaws` | internal/resources/k8s_deployment_resource.go:109-126 | A finished rollout is reported Ready, and the freeze ends. |
| `MigrationProgress.ChangedTemplateRollsOut` | internal/resources/k8s_deployment_resource.go:128-152 | A changed template starts a rollout, which is not Ready before it is observed. |
| `MigrationProgress.UpgradeHandlerRecords` | internal/resources/kubeadm_upgrade.go:57-120 | Exactly when the upgrade handler records Upgrading. |
| `MigrationProgress.RotationShows` | internal/resources/ca_certificate.go:86-130 | A rotation of the CA is reported unless the tenant was never up. |
| `MigrationProgress.VersionIsRecorded` | internal/resources/k8s_deployment_resource.go:109-115 | The version is recorded exactly when the tenant is asleep, or fully rolled out and writable. |
| `MigrationProgress.PassUsesDefault` | controllers/tenantcontrolplane_controller.go:509-526 | A pass starts exactly when a data store is named or there is a default, which stands in where none is named. |
| `MigrationHandlers.HandlerStepIsStep` | internal/resources/datastore/datastore_migrate.go:53-182 | What the imperative handler does, freeze and Job in one go, is a sequence of protocol steps. |
| `MigrationHandlers.MigrateHandler.Define` | internal/resources/datastore/datastore_migrate.go:53-83 | Reads the recorded and the desired data store unless none is recorded. |
| `MigrationHandlers.MigrateHandler.CreateOrUpdate` | internal/resources/datastore/datastore_migrate.go:102-182 | Every outcome of the handler is the protocol step of that outcome, and `inProgress` says exactly when a Job is under way. |
| `MigrationHandlers.MigrateHandler.UpdateStatus` | internal/resources/datastore/datastore_migrate.go:192-198 | Records Migrating as the protocol step does. |
| `MigrationHandlers.MigrateHandler.Handle` | internal/resources/resource.go:69-115 | Undisturbed, the handler leaves the tenant frozen and Migrating when it launches a Job, and goes on only with nothing to move or a complete Job. |
| `MigrationHandlers.SootMigrate.Reconcile` | controllers/soot/controllers/migrate.go:46-77 | The tenant-side step installs or removes the webhook by the status it was given, as the protocol step does. |
| `SootManager.InvHolds` | controllers/soot/manager.go:156-432 | Every reachable state: live managers are mapped, entries carry the finalizer, the worker's memory is sound. |
| `SootManager.OneManagerPerTenant` | controllers/soot/manager.go:156-252 | In every reachable state a tenant has at most one manager that is not cancelled, and it is the map entry. |
| `SootManager.VanishedTenantIsStopped` | controllers/soot/manager.go:85-134 | A tenant object disappears only after every manager it ever had was cancelled. |
| `SootManager.CancelIsFinal` | controllers/soot/manager.go:387-432 | A cancelled manager is never brought back. |
| `SootManager.EntryMatchesKubeconfig` | controllers/soot/manager.go:156-252 | A reconciliation that read the tenant leaves an entry if and only if it is alive and online and either has a healthy one for the kubeconfig that was read, or has none and carries the finalizer; a new entry is a fresh manager. |
| `SootManager.OthersStay` | controllers/soot/manager.go:156-252 | The entries of other tenants stay. |
| `SootReconciler.ManagerIsStarted` | controllers/soot/manager.go:212-252 | From any reachable state a live, online tenant without an entry has its manager after one or two undisturbed reconciliations. |
| `SootReconciler.ManagerIsReplaced` | controllers/soot/manager.go:177-200 | A failed manager is replaced in two, one for a former kubeconfig in three. |
| `SootReconciler.CrashedManagerIsReplaced` | controllers/soot/manager.go:388-410 | A manager that crashes has its tenant marked and is replaced in two reconciliations. |
| `SootReconciler.ManagerIsReleased` | controllers/soot/manager.go:85-134 | A deleted or sleeping tenant loses its manager and then the finalizer in one. |
| `SootReconciler.UndisturbedExactly` | controllers/soot/manager.go:156-252 | What one undisturbed reconciliation does, case by case. |
| `SootReconciler.Manager.StopManager` | controllers/soot/manager.go:107-134 | Cancels and forgets the entry, and nothing else. |
| `SootReconciler.Manager.Cleanup` | controllers/soot/manager.go:85-105 | Stops the manager and removes the finalizer, as the state machine does. |
| `SootReconciler.Manager.Reconcile` | controllers/soot/manager.go:156-252 | An undisturbed reconciliation equals the sequence of state machine steps, and nudges the controllers if and only if a healthy entry for the current kubeconfig of a live, online tenant is found. |
| `TriggerChannel.Channel.Coalesce` | controllers/utils/trigger_channel.go:32-37 | A send that never blocks: the event is stored if there is room, else the channel is unchanged. |
| `TriggerChannel.NudgeIsNeverLost` | controllers/utils/trigger_channel.go:12-37 | In every interleaving a consumer behind the last nudge has an event in the channel or in hand, a marked key, or is about to read. |
| `TriggerChannel.RefinesUnboundedQueue` | controllers/utils/trigger_channel.go:12-37 | Every schedule of a buffered channel is one of the unbounded queue, with the same reads at the same points. |
| `TriggerChannel.AgreesWithUnboundedQueue` | controllers/soot/manager.go:202-211 | Both come to rest having seen the same final state. |
| `TriggerChannel.LosesExactlyWhenUnbuffered` | controllers/utils/trigger_channel.go:12-30 | A nudge can be lost if and only if the channel has no slot. |
| `TriggerChannel.ConsumerComesToRest` | controllers/utils/trigger_channel.go:12-37 | Left alone, the consumer comes to rest, and if anything was pending it has then read the current state. |
| `TriggerChannel.NudgeLeadsToRead` | controllers/utils/trigger_channel.go:32-37 | A nudge into a buffered channel always leaves something pending. |
| `OptimisticWrites.StoredIsFoldOfCommits` | controllers/utils/update_status.go:18-38 | For any interleaving of writers the stored object is the fold, in commit order, of the committed mutations. |
| `OptimisticWrites.SuccessOverwritesNobody` | controllers/utils/update_status.go:18-38 | A successful write is the writer's mutation of the object stored just before; every other field is as it was. |
| `OptimisticWrites.FieldsSurvive` | internal/utilities/create_or_update_conflict.go:19-33 | Stored fields stay until somebody commits a mutation of them. |
| `OptimisticWrites.SendExactly` | controllers/utils/update_status.go:18-38 | An update goes through if and only if its copy is of the stored version; else nothing changes. |
| `OptimisticWrites.UndisturbedWriteCommits` | controllers/utils/update_status.go:18-38 | A writer that nobody disturbs stores its mutation. |
| `StatusWriter.UpdateStatus` | controllers/utils/update_status.go:18-38 | The retry loop commits its mutation once, over the others' commits, or commits nothing; it gives up only when others committed during each of the five attempts, and is refused only by the handler. |
| `StatusWriter.Send` | controllers/utils/update_status.go:19-34 | One attempt: exactly when it stores, is refused or conflicts, and that memory is current afterwards. |
| `StatusWriter.Attempt` | internal/utilities/create_or_update_conflict.go:19-33 | One attempt of get, mutate and write: exactly when it creates, updates, changes nothing, is denied, clashes or conflicts. |
| `StatusWriter.CreateOrUpdateWithConflict` | internal/utilities/create_or_update_conflict.go:19-33 | The retry loop around it: success means committed on what was read; it gives up only on five conflicts, a refusal or a clash. |
| `CertificateSafety.CompletePassIssuesEverything` | controllers/resources.go:56-79 | In every run, with CAs rotated, Secrets edited and passes cut short anywhere, a pass through all handlers leaves every certificate and kubeconfig issued by the authorities then stored. |
| `CertificateSafety.CutWritesTheObject` | controllers/tenantcontrolplane_controller.go:243-262 | A handler whose status write fails has written the same objects as one that goes on, and recorded nothing. |
| `CertificateSafety.ApiServerAnswersForNames` | internal/resources/api_server_certificate.go:134-191 | In every run, the API server's certificate answers for every wanted name after its handler, when kubeadm puts those names in. |
| `CertificateSafety.HandlerKeepsInv` | internal/resources/resource.go:69-115 | In a sound state no certificate handler fails, and each keeps the invariant and adds its object to what is issued. |
| `CertificateSafety.CAIsSound` | internal/resources/ca_certificate.go:97-161 | A CA ends usable and not about to expire; it is kept if and only if it is whole, valid and no rotation is asked for, and a rotation brings a new key. |
| `CertificateSafety.LeafIsIssued` | internal/resources/api_server_certificate.go:98-191 | The handler's certificate ends signed by the given authority, with its key, not about to expire, covering the wanted names or freshly signed; a rotation brings a new key. |
| `CertificateSafety.AdminFileIsIssued` | internal/resources/kubeconfig.go:142-253 | Whatever was done to them, `admin.conf` and its in-cluster variant end issued, and the other files are not touched. |
| `CertificateSafety.SuperAdminFileIsIssued` | internal/resources/kubeconfig.go:142-253 | A `super-admin.conf` that was not forged ends issued with its variant, and `admin.conf` stays so. |
| `CertificateSafety.RecordedFileIsIssued` | internal/resources/kubeconfig.go:132-253 | Any change to the other two kubeconfig Secrets is caught by the recorded checksum. |
| `CertificateSafety.InvHolds` | controllers/tenantcontrolplane_controller.go:243-280 | Every reachable state of the certificate pipeline satisfies its invariant. |
| `CertificateSafety.AdulteratedSuperAdminIsKept` | internal/resources/kubeconfig.go:115-190 | When `admin.conf` has to be rendered, the other file of the Secret is kept, whoever signed it, if and only if it trusts the CA, is valid and the configuration's checksum agrees. |
| `CertificateSafety.MissingVariantComesBackExactly` | internal/resources/kubeconfig.go:187-242 | A deleted in-cluster variant of the super administrators' file comes back if and only if that file itself has to be rendered, when `admin.conf` had to be. |
| `CertificateSafety.KonnectivityConfigIssuedExactly` | internal/resources/konnectivity/kubeconfig_resource.go:127-131 | With a sound CA and an issued certificate the Konnectivity kubeconfig ends issued if and only if it is rendered or was not forged. |
| `CertificateSafety.KonnectivityCertificateEmbeddedExactly` | internal/resources/konnectivity/kubeconfig_resource.go:127-131 | The Konnectivity kubeconfig ends with the stored certificate if and only if it is rendered or had it already. |
| `CertificateStability.LeafKeptExactly` | internal/resources/api_server_certificate.go:136-164 | Exactly when a certificate is kept: no rotation, its own key, signed by the CA, neither expired, beyond the threshold, names covered. |
| `CertificateStability.KonnCertKeptExactly` | internal/resources/konnectivity/certificate_resource.go:134-147 | The same for the Konnectivity certificate, which must also be the recorded one. |
| `CertificateStability.KubeconfigKeptExactly` | internal/resources/kubeconfig.go:188-204 | Exactly when a kubeconfig is kept. |
| `CertificateStability.KubeconfigKeptWhole` | internal/resources/kubeconfig.go:204-250 | What is kept is kept with its record; what is rendered gets a new key and leaves the other files alone. |
| `CertificateStability.KonnectivityGoes` | internal/resources/konnectivity/certificate_resource.go:47-65 | Without the add-on the Konnectivity Secrets go exactly while it is still recorded as enabled. |
| `CertificateStability.SecondPassChangesNothing` | controllers/resources.go:56-79 | From any state of the Secrets a pass goes through, and a second one, with the same configuration and nothing near its expiry, leaves every Secret and record as it was. |
| `CertificateHandlers.CertificateSecret.GenerateCA` | internal/resources/ca_certificate.go:86-161 | The Secret is rewritten in place as specified, and the rotation flag is raised exactly for a regenerated CA of a tenant past provisioning. |
| `CertificateHandlers.CertificateSecret.Sign` | internal/resources/api_server_kubelet_client_certificate.go:93-173 | The certificate is kept or signed again as specified; a failed signature leaves the Secret alone. |
| `CertificateHandlers.KubeconfigSecret.RenderFile` | internal/resources/kubeconfig.go:142-253 | Files, rotation request and checksum annotation end as specified. |
| `Ordering.SortedUnique` | internal/builders/controlplane/deployment.go:851-854 | A multiset of strings has exactly one sorted listing. |
| `Ordering.Sort` | internal/utilities/args.go:38-40 | Sorting gives a sorted permutation. |
| `Ordering.LeIsLexicographic` | internal/utilities/args.go:38-40 | The order is that of the first difference. |
| `ApiServerFlags.MergeIsIdempotent` | internal/builders/controlplane/deployment.go:792-855 | Merging the flags into one's own result changes nothing. |
| `ApiServerFlags.ManagedAppearsOnce` | internal/builders/controlplane/deployment.go:792-855 | A managed flag appears exactly once, with its managed value, whatever the user or the container say. |
| `ApiServerFlags.DefaultAppearsOnce` | internal/builders/controlplane/deployment.go:839-845 | A default appears exactly once unless the user set its flag. |
| `ApiServerFlags.UserArgumentsStand` | internal/builders/controlplane/deployment.go:792-810 | The user's unmanaged arguments form the verbatim, in-order suffix behind a sorted list, occurrence by occurrence. |
| `ApiServerFlags.ForeignArgumentsStay` | internal/builders/controlplane/deployment.go:821-837 | An argument whose flag nobody claims stays, as often as the container had it. |
| `ApiServerFlags.DropLaws` | internal/builders/controlplane/deployment.go:798-810 | The filter behind the merge keeps arguments as they stand and in order. |
| `ApiServerFlags.FlagExactly` | internal/builders/controlplane/deployment.go:799-800 | The flag of an argument is what stands before its first equals sign. |
| `ApiServerFlags.MergeArguments` | internal/builders/controlplane/deployment.go:792-855 | The loops compute the merge in whatever order the two maps are visited. |
| `ApiServerFlags.Sanitize` | internal/builders/controlplane/deployment.go:792-810 | Drops the user's arguments that touch managed flags and collects the flags of the rest. |
| `ApiServerFlags.AppendForeign` | internal/builders/controlplane/deployment.go:821-837 | Keeps the container's arguments that nobody claims. |
| `ApiServerFlags.AppendTable` | internal/builders/controlplane/deployment.go:839-849 | Adds each flag of a table once, in any order of iteration. |
| `ExtraArguments.RenderIsIdempotent` | internal/builders/controlplane/deployment.go:689-783 | Rendering the arguments into one's own result changes nothing, also while the egress flag is being removed. |
| `ExtraArguments.FlagsSettle` | internal/builders/controlplane/deployment.go:1212-1244 | The arguments settle with the first build, the annotation with the second. |
| `ExtraArguments.NoStaleArguments` | internal/builders/controlplane/deployment.go:1212-1244 | From the build that first stored the annotation, over any changes that the digest tells apart, every argument is one of the current extra arguments or was rendered by Kamaji itself. |
| `ExtraArguments.NulFreeIsTold` | internal/utilities/checksum.go:44-57 | Lists without NULs are always told apart. |
| `ExtraArguments.StaleExactlyOnEqualDigests` | internal/builders/controlplane/deployment.go:1229-1241 | An extra argument that the next setup neither asks for nor claims survives it if and only if the two lists have the same digest. |
| `ExtraArguments.DigestIsInjective` | internal/utilities/checksum.go:44-57 | The hashed text tells apart lists of arguments without NULs. |
| `ExtraArguments.DigestConfusesNuls` | internal/utilities/checksum.go:44-57 | With NULs it does not. |
| `ExtraArguments.NulKeepsStaleArgument` | internal/builders/controlplane/deployment.go:1212-1244 | With a NUL that happens, whatever the tables of flags. |
| `ExtraArguments.EgressFlagGoes` | internal/builders/controlplane/konnectivity_server.go:171-187 | While Konnectivity is being removed no egress flag is left, whoever set it. |
| `ExtraArguments.OverridesFlagGoes` | internal/builders/controlplane/deployment.go:766-774 | Without overrides their flag is left only if the user set it. |
| `ArgumentTables.FromSlice` | internal/utilities/args.go:13-23 | Reads arguments into a table. |
| `ArgumentTables.ToSlice` | internal/utilities/args.go:27-41 | The sorted rendering of a table, whatever the order of iteration. |
| `ArgumentTables.TableRoundTrip` | internal/utilities/args.go:13-41 | Reading back a rendered table, in any order, gives the same table. |
| `ArgumentTables.LastOneCounts` | internal/utilities/args.go:13-23 | Of several arguments with one flag the last one counts. |
| `NamedLists.HasNamed` | internal/utilities/container.go:9-17 | The linear search finds the first item of a name, and its index is where overwriting, cutting out and splitting happen. |
| `NamedLists.ApplyTwice` | internal/builders/controlplane/deployment.go:232-244 | A second run of a script of repeatable edits changes nothing. |
| `NamedLists.RefreshTwice` | internal/builders/controlplane/deployment.go:389-398 | Renewing the user's items and editing the system's part is idempotent, if that part starts with its first item. |
| `PodMounts.MountsSettle` | internal/builders/controlplane/deployment.go:580-677 | The kube-apiserver mounts are fixed after one build with etcd, after two with kine. |
| `PodMounts.OwnMountsSettle` | internal/builders/controlplane/deployment.go:596-606 | The mounts of the other components are fixed after one build, the user's first. |
| `PodSafety.BuildContainersSplits` | internal/builders/controlplane/deployment.go:184-193 | A build of the containers is the user's containers followed by a function of the system's part alone. |
| `PodSafety.SystemAgain` | internal/builders/controlplane/deployment.go:158-163 | A further build touches at most the kube-apiserver container. |
| `PodSettles.DeploymentSettles` | internal/builders/controlplane/deployment.go:121-156 | The pod specification is fixed after one build with etcd; the whole Deployment, annotation included, after two with any driver. |
| `PodSettles.UserItemsComeFirst` | internal/builders/controlplane/deployment.go:167-193 | After every build each list of containers, init containers, volumes and mounts is exactly the current specification's items followed by Kamaji's, whatever earlier specifications held. |
| `PodSettles.SystemContainersAreCurrent` | internal/builders/controlplane/deployment.go:158-163 | After every build each of Kamaji's containers carries the image, arguments and settings specified for it, and kine and Konnectivity are there exactly when they should be. |
| `PodSettles.SystemVolumesAreCurrent` | internal/builders/controlplane/deployment.go:232-244 | After every build each volume of the setup has its source, and those of kine and Konnectivity come and go with them. |
| `PodMounts.MountsAreCurrent` | internal/builders/controlplane/konnectivity_server.go:140-229 | The kube-apiserver mounts its volumes at their paths, kine's and Konnectivity's only with them. |
| `PodContents.SchedulerExactly` | internal/builders/controlplane/deployment.go:400-468 | The scheduler's container after any build, its mount included. |
| `PodContents.ManagerExactly` | internal/builders/controlplane/deployment.go:470-577 | The controller manager's container after any build, its five mounts included. |
| `PodContents.KineExactly` | internal/builders/controlplane/deployment.go:971-1105 | Kine is there if and only if its driver is used, with its mounts, and with the image that was set first. |
| `PodContents.KonnectivityExactly` | internal/builders/controlplane/konnectivity_server.go:49-138 | Konnectivity's server container, its mounts included, and its removal. |
| `PodContents.ChmodExactly` | internal/builders/controlplane/deployment.go:984-1026 | The init container is there if and only if kine is used over TLS, with its mounts. |
| `PodContents.AddonMountsExactly` | internal/builders/controlplane/konnectivity_server.go:200-229 | The mounts Konnectivity adds to the kube-apiserver. |
| `PodSettles.InvHolds` | internal/builders/controlplane/deployment.go:121-156 | Builds of any specifications keep the Deployment well formed. |
| `PodSettles.RunsFromNothing` | internal/builders/controlplane/deployment.go:121-156 | So is every Deployment that builds of any specifications lead to from none. |
| `PodSettles.FlagsAfter` | internal/builders/controlplane/deployment.go:609-621 | Arguments and annotation of the whole build evolve as `ExtraArguments` says. |
| `PodSettles.VolumesSettle` | internal/builders/controlplane/deployment.go:889-945 | Volumes are fixed after one build, the volumes of a former kine included. |
| `PodSettles.InitsSettle` | internal/builders/controlplane/deployment.go:167-180 | Init containers are fixed after one build. |
| `PodMounts.OneBuildSettlesMountsExactly` | internal/builders/controlplane/deployment.go:644-660 | One build settles the kube-apiserver mounts if and only if the driver is etcd or the PKI is already mounted. |
| `PodEditor.PodSpec.Build` | internal/builders/controlplane/deployment.go:121-156 | The in-place build leaves what the specification describes. |
| `PodEditor.PodSpec.ResetKubeAPIServerFlags` | internal/builders/controlplane/deployment.go:1212-1244 | Clears the arguments and stores the annotation exactly as specified. |
| `PodEditor.PodSpec.BuildKubeAPIServer` | internal/builders/controlplane/deployment.go:609-687 | Rewrites or appends the kube-apiserver container as specified. |
| `PodEditor.PodSpec.BuildKonnectivity` | internal/builders/controlplane/konnectivity_server.go:140-229 | Adds or removes Konnectivity's mounts and flag on the kube-apiserver container. |
| `PodEditor.RunScript` | internal/builders/controlplane/deployment.go:580-594 | Overwriting in place, appending and cutting out by index carry out the script. |
| `PodEditor.Renew` | internal/builders/controlplane/deployment.go:596-606 | The user's items, then the system's from its first on. |
| `PodEditor.RemoveEgress` | internal/builders/controlplane/konnectivity_server.go:171-187 | Drops the arguments that begin with the egress flag. |
| `StatusNames.EveryNameIsRecorded` | controllers/resources.go:56-79 | In every run, passes cut short anywhere included, a handler that is reached finds every name it looks up recorded. |
| `StatusNames.HandlersAreSound` | controllers/resources.go:56-341 | For any number of overridden resources, whatever a handler records comes behind everything it relies on. |
| `StatusNames.HandleRecords` | internal/resources/resource.go:104-115 | A handler that succeeds leaves its field recorded. |
| `StatusNames.RecordedIsCurrent` | internal/resources/kubeconfig.go:52-61 | What a handler that succeeds leaves recorded: the current value, except that an unchanged kubeconfig's is written only while missing. |
| `StatusNames.RefreshReachesPass` | controllers/utils/update_status.go:18-38 | Whether a pass takes Konnectivity for enabled changes only with a status write that fetched the tenant again. |
| `StatusNames.HandleTouchesOneField` | internal/resources/resource.go:104-115 | Other fields are left alone. |
| `StatusNames.KonnectivityRecordIsCurrent` | internal/resources/konnectivity/certificate_resource.go:90-100 | The Konnectivity certificate is recorded with the add-on, and its record goes without it. |
| `StatusNames.UnmarkedObjectIsNotRecorded` | internal/resources/front_proxy_ca_certificate.go:39-41 | With nothing recorded and nothing changed, a handler goes on without recording if and only if it compares checksums only and the object has none. |
| `StatusNames.Reconciler.Reconcile` | controllers/tenantcontrolplane_controller.go:243-280 | The loop over the handlers, with its early returns, leaves what the handlers' steps leave. |
| `StatusNames.PlayKeepsInv` | controllers/tenantcontrolplane_controller.go:243-280 | A whole pass, with any outcomes, keeps every later lookup met. |
| `Versions.PrecedenceOrder` | internal/webhook/handlers/tcp_version.go:86-93 | Precedence after section 11 of Semantic Versioning 2.0.0 is a total order. |
| `Versions.PrecedenceRules` | internal/webhook/handlers/tcp_version.go:86-93 | The rules of that section: numbers as numbers and below text, a release above its pre-releases, major, minor and patch first. |
| `Versions.FirstDifferenceDecides` | internal/webhook/handlers/tcp_version.go:86-93 | The first identifiers that differ decide. |
| `Versions.SpecificationExample` | internal/webhook/handlers/tcp_version.go:86-93 | The example chain of section 11.4. |
| `Versions.AdmittedEditMovesOneMinor` | internal/webhook/handlers/tcp_version.go:59-97 | An admitted edit never falls back to an earlier release line nor passes the supported one, and moves the minor by zero or one exactly unless it wraps around. |
| `Versions.AdmittedEditsExactly` | internal/webhook/handlers/tcp_version.go:86-93 | Exactly the edits of a live tenant that are admitted, in terms of release lines, pre-releases and the wrap-around. |
| `Versions.AdmissionExactly` | internal/webhook/handlers/tcp_version.go:24-97 | Which new tenants are admitted, and what deletion and unreadable versions do to an edit. |
| `Versions.MinorWrapsAround` | internal/webhook/handlers/tcp_version.go:91-92 | The wrap-around is reachable. |
| `UpgradeRuns.VersionsNeverFallBack` | internal/resources/k8s_deployment_resource.go:109-114 | Over every run neither the desired nor the recorded version falls back a release line, and neither passes the supported one. |
| `UpgradeRuns.SpecMovesOneMinor` | internal/webhook/handlers/tcp_version.go:59-97 | Every step of a run leaves the desired minor or raises it by one, wrap-around apart. |
| `UpgradeRuns.PassPastUpgradeMovesOneMinor` | internal/resources/kubeadm_upgrade.go:57-146 | Exactly when a pass goes past the upgrade handler with no upgrade under way, and that it then moves zero or one minor. |
| `UpgradeRuns.UndisturbedPassMovesOneMinor` | internal/resources/k8s_deployment_resource.go:109-114 | A pass that found no upgrade under way, and whose version is still the desired one when it is recorded, moves the recorded version by zero or one minor. |
| `UpgradeRuns.RecordedMovesOneMinor` | internal/resources/kubeadm_upgrade.go:57-100 | In every run whose edits are safe the recorded version moves one minor at a time. |
| `UpgradeRuns.SkipNeedsUnsafeEdit` | internal/resources/kubeadm_upgrade.go:57-100 | An edit makes a skip possible if and only if it is not safe: it lands further than one minor away while Upgrading is recorded or between the handlers of a pass that goes on. |
| `UpgradeRuns.RecordedMaySkipAMinor` | internal/resources/kubeadm_upgrade.go:70-73 | A run, from the tenant's creation, in which the recorded version advances two minors under Upgrading. |
| `UpgradeRuns.SleepingTenantMaySkipAMinor` | internal/resources/k8s_deployment_resource.go:109-114 | The same with no replicas, where Upgrading is never recorded. |
| `UpgradeRuns.UpgradeHandler.CreateOrUpdate` | internal/resources/kubeadm_upgrade.go:57-100 | The branches of the handler agree with its verdict. |
| `UpgradeRuns.UpgradeHandler.IsUpgradable` | internal/resources/kubeadm_upgrade.go:122-146 | Allows the same minor and the next one. |
| `ServicePorts.TwoPassesSettle` | internal/resources/k8s_service_resource.go:104-134 | From any port list two passes give the API server's port, Konnectivity's and the additional ones in order. |
| `ServicePorts.OnePassSettlesExactly` | internal/resources/konnectivity/service_resource.go:141-160 | One pass does if and only if there are no additional ports or the second port has Konnectivity's name. |
| `ServicePorts.SettledForGood` | internal/resources/konnectivity/service_resource.go:141-160 | However the two handlers interleave, once the first has come behind the second the list is right for good. |
| `ServicePorts.OnePassMayLoseAPort` | internal/resources/konnectivity/service_resource.go:141-160 | Otherwise the first additional port is overwritten and the others stay. |
| `ServicePorts.OtherFieldsStay` | internal/resources/konnectivity/service_resource.go:152-156 | The fields that are not compared stay, apart from a specified node port. |
| `KonnectivityPort.CleanUpIsNeverReached` | internal/resources/konnectivity/service_resource.go:77-79 | In every run, whatever is edited, fails or is fetched again, the guard of the clean-up is false whenever it is reached, since the flag was just recorded. |
| `KonnectivityPort.PortIsNeverRemoved` | internal/resources/konnectivity/service_resource.go:77-107 | In every run the port, once there, is there for good. |
| `KonnectivityPort.InvHolds` | internal/resources/k8s_deployment_resource.go:40-48 | Behind the Deployment handler the recorded flag is the specification's. |
| `KonnectivityPort.GuardHoldsBeforeDeployment` | internal/resources/k8s_deployment_resource.go:109-126 | In front of that handler the guard holds if and only if Konnectivity was just switched off. |
| `KonnectivityPort.PassBringsPort` | internal/resources/konnectivity/service_resource.go:133-160 | An undisturbed pass puts the port there when Konnectivity is on, and records the flag either way. |
| `ServicePorts.CleanUpWouldRemove` | internal/resources/konnectivity/service_resource.go:81-107 | What the clean-up does where it is reached: the first such port goes, the others keep their order. |
| `ServicePorts.MutateService` | internal/resources/k8s_service_resource.go:100-134 | The loop computes the specified list. |
| `ServicePorts.MutateKonnectivity` | internal/resources/konnectivity/service_resource.go:141-160 | Appends or overwrites the second port, or fails on a Service without ports. |
| `EtcdRanges.RangeIsPrefix` | internal/datastore/etcd.go:60-77 | A prefix range holds exactly the keys that start with the prefix. |
| `EtcdRanges.RangeEnd` | internal/datastore/etcd.go:66-68 | The loop over the bytes computes the end of the range. |
| `EtcdRanges.GrantedIsPrefix` | internal/datastore/etcd.go:60-77 | A tenant is granted exactly the keys under its prefix. |
| `EtcdRanges.RangesMeet` | internal/datastore/etcd.go:178-187 | Two tenants' ranges meet if and only if the key of one starts with the key of the other. |
| `EtcdRanges.SlashFreeRangesAreDisjoint` | internal/datastore/etcd.go:178-187 | Names without slashes never share a key. |
| `EtcdRanges.SlashNests` | internal/datastore/etcd.go:185-187 | With slashes one tenant may hold all keys of another. |
| `EtcdRanges.MigrationCopiesExactly` | cmd/migrate/cmd.go:100-118 | With clean-up the target's range ends equal to the source's and nothing else changes. |
| `EtcdRanges.MigrationWithoutCleanUp` | cmd/migrate/cmd.go:100-118 | Without it that holds if and only if the target had no key of the tenant that the source lacks. |
| `EtcdRanges.RetryConverges` | cmd/migrate/cmd.go:100-118 | An interrupted migration can simply be repeated. |
| `EtcdRanges.OtherTenantsUntouched` | internal/datastore/etcd.go:189-208 | Every key another tenant is granted stays as it was. |
| `EtcdRanges.Etcd.DeleteDB` | internal/datastore/etcd.go:135-142 | Deletes exactly the keys under the prefix, or nothing when refused. |
| `EtcdRanges.Etcd.Migrate` | internal/datastore/etcd.go:189-208 | The loop of puts adds the source's range; a failing check, read or put leaves the rest of the target alone. |
| `EtcdRanges.RunMigration` | cmd/migrate/cmd.go:100-118 | Clean-up and copy together, with the target's state for each way to fail: the clean-up, the check of the target, the first read, a put. |
| `SqlQuoting.MySQLIdentifierRoundTrip` | internal/datastore/mysql.go:433-437 | A quoted identifier reads back as the original without NULs, and one without NULs as itself, and ends at its closing quote, if and only if no further quote follows. |
| `SqlQuoting.StripLaws` | internal/datastore/mysql.go:434-434 | NULs go and every other character stays, in order. |
| `SqlQuoting.NameRoundTrip` | internal/datastore/mysql.go:433-437 | A name without NULs reads back as itself, for any quote. |
| `SqlQuoting.PostgreSQLIdentifierRoundTrip` | internal/datastore/postgresql.go:308-312 | The same with PostgreSQL's quote. |
| `SqlQuoting.IdentifierRoundTrip` | internal/datastore/mysql.go:427-437 | The same for any quote. |
| `SqlQuoting.QuoteIsInjective` | internal/datastore/postgresql.go:308-312 | Different names, NULs aside, stay different. |
| `SqlQuoting.LiteralRoundTrip` | internal/datastore/mysql.go:447-472 | Under default escapes a literal reads back as the original and ends at its closing quote, if and only if no further quote follows. |
| `SqlQuoting.LiteralWithoutBackslashes` | internal/datastore/mysql.go:439-472 | With backslash escapes off it ends at the same quote under the same condition, and its value is the original if and only if nothing needed a backslash. |
| `SqlQuoting.EscapeMySQLString` | internal/datastore/mysql.go:447-472 | The loop builds the specified literal. |
| `JsonStrings.StringRoundTrip` | api/v1alpha1/tenantcontrolplane_jsonpatch.go:66-83 | A printed string reads back as itself, after section 7 of RFC 8259, if and only if it is ASCII without control characters other than newline, return and tab. |
| `JsonStrings.AppendEscapedString` | api/v1alpha1/tenantcontrolplane_jsonpatch.go:66-83 | The loop over runes writes one byte for each. |
| `JsonStrings.AccentIsLost` | api/v1alpha1/tenantcontrolplane_jsonpatch.go:66-83 | A character of two bytes comes out as one that is no character. |
| `JsonStrings.RuneOfCodePoint` | api/v1alpha1/tenantcontrolplane_jsonpatch.go:67-67 | The loop takes every character as a whole. |
| `JsonStrings.FirstByteOnly` | api/v1alpha1/tenantcontrolplane_jsonpatch.go:66-83 | Of every character exactly the first byte is written. |
| `JsonPatch.DocumentRoundTrip` | api/v1alpha1/tenantcontrolplane_jsonpatch.go:24-64 | Reading the printed document, after section 4 of RFC 6902, gives the same operations in order if and only if all their strings are such and their values are complete JSON value texts. |
| `JsonPatch.PatchReads` | api/v1alpha1/tenantcontrolplane_jsonpatch.go:32-58 | What a reader makes of one operation with a complete value, whatever its strings. |
| `JsonPatch.PatchRoundTrip` | api/v1alpha1/tenantcontrolplane_jsonpatch.go:32-58 | The same for one operation, whatever follows it. |
| `JsonValues.ValueExtends` | api/v1alpha1/tenantcontrolplane_jsonpatch.go:53-56 | A JSON value stays one, with the same end, in front of a comma or a brace. |
| `JsonValues.TakenIsComplete` | api/v1alpha1/tenantcontrolplane_jsonpatch.go:53-56 | Conversely, what a reader takes for a value in front of one is a complete value. |
| `JsonPatch.Print` | api/v1alpha1/tenantcontrolplane_jsonpatch.go:24-64 | Appending to the buffer gives the specified document. |
| `DnsDefaults.DefaultsAccepted` | internal/webhook/handlers/tcp_dns.go:54-98 | With one CIDR per family, written with its network address, the defaults are accepted if and only if the prefixes are at most 28 and 124. |
| `DnsDefaults.DefaultsAcceptedExactly` | internal/webhook/handlers/tcp_dns.go:54-98 | With one CIDR per family and any host bits, the defaults are accepted if and only if each last byte is free or its block has room for ten more. |
| `DnsDefaults.DefaultsWithHostBits` | internal/webhook/handlers/tcp_defaults.go:31-58 | With any host bits, byte wrap-around included, they are accepted for prefixes up to 24 and 120. |
| `DnsDefaults.CanonicalDefault` | internal/webhook/handlers/tcp_defaults.go:43-55 | The same equivalence for a single network. |
| `DnsDefaults.DefaultInNetworkExactly` | internal/webhook/handlers/tcp_defaults.go:43-55 | For any host bits the default lies in its network if and only if the last byte is free or its block has room for ten more. |
| `DnsDefaults.HostBitsMayWrap` | internal/webhook/handlers/tcp_defaults.go:52-53 | An address whose default leaves its own network. |
| `DnsNetworks.ContainsExactly` | internal/webhook/handlers/tcp_dns.go:80-89 | A network contains exactly the addresses of its family from its first one on, as many as the prefix leaves, as numbers. |
| `DnsNetworks.TenthValue` | internal/webhook/handlers/tcp_defaults.go:52-53 | The default is the address ten further, unless the last byte wraps around. |
| `DnsDefaults.ComputeDefaults` | internal/webhook/handlers/tcp_defaults.go:31-58 | The loop changes the last byte in place and fails exactly on an unreadable CIDR. |
| `DnsDefaults.Validate` | internal/webhook/handlers/tcp_dns.go:54-98 | The loops accept exactly when every address is covered. |

## Left out

- Kubernetes, etcd, SQL and NATS clients, informer caches and controller wiring: represented by the store, queues and nondeterministic failures above.
- X.509, PEM, RSA and MD5 internals: a certificate is its key, signer, expiry and names; verification against a root that equals the certificate itself is left out, and checksums over concatenated data are taken as injective.
- Forged files of super administrators, and a Konnectivity kubeconfig forged under its recorded annotation, are not among the edits in the runs of `CertificateSafety`, because the handlers keep them under the conditions stated above; every other edit is. Secrets are not edited while a pass runs, rotation requests apart.
- Migration: the freeze webhook takes effect at once and guards every object in `data` (the exempted `kube-system` objects and leases are not in it); pods left over from a deleted Job are not modelled.
- Users do not remove the finalizer of the tenant-side manager by hand; the ten-second deadline of a stop is a choice of the environment.
- Probes, resources, affinity, security contexts, labels and other copied fields of the Deployment are one opaque field per container; names of containers and volumes are compared as constructors, not as text.
- Switching the driver of a tenant is refused by the migration command, so a mount left by kine in an etcd-backed Deployment is not discussed.
- Versions and addresses are modelled after parsing; two texts of one version (a leading `v`, build metadata) count as equal. IPv6 networks that embed IPv4 addresses are left out.
- Text is a sequence of code points in `SqlQuoting` and of bytes in `JsonStrings`; the MySQL loop's replacement of invalid UTF-8 is left out, as is the joining of adjacent literals.
- The reference reader of patch documents accepts no whitespace between tokens and does not combine surrogate escapes; the printer writes neither.
- API server validation of ports, node port allocation, IP families and external addresses of the Service.
- Gateway and Ingress handlers, add-ons, telemetry, metrics, command-line entry points other than the migration, deep copies and generated code.
