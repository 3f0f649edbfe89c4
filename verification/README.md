# A verified model of kube-dns-manager

kube-dns-manager is a Kubernetes operator. A `Record` asks for a DNS entry; every `Provider` (or
`ClusterProvider`) whose selector matches it gets its own external entry, kept in a zone at Cloudflare, AliDNS
or AdGuard, or made by a Kubernetes Job. The Record's status holds one ledger line per provider: the id of the
external entry, some data, and a message that is empty when all is well. Generators watch objects such as
Ingresses and keep one `ResourceWatcher` for each match; a ResourceWatcher renders a template and keeps the
Records it owns in line with the output.

The project models these reconcilers and backends in Dafny and proves what they promise together. Where the
Go code changes objects step by step the model is a class whose methods have the same branches and loops;
each is proved equal to a function of the old state, and the properties are proved about those functions, for
all inputs, all runs, or all reachable states.

| file | content |
|---|---|
| Strings, Names, Domains | splitting and joining, slash-joined index keys, domain selection, relative names |
| Api | record and provider objects, finalizers |
| RecordSync, RecordLaws | one Record reconcile as a function of the ledger, and its laws |
| RecordCalls | which calls a Record reconcile makes and what it books, in the terms of what it reads |
| RecordReconciler, ProviderReconciler | the two reconcilers as imperative code |
| Protocol, ProtocolSafety | the Record/Provider lifecycle as a transition system, its invariants, and their consequences over whole runs |
| LostWrites | reconciles whose calls were made and whose new ledger was not saved |
| ProviderLaws | what a Provider reconcile leaves in the cache, and that a built Provider serves its Records over whole runs |
| ProviderDeletion | who holds ids at a deleted Provider, and when it is let go |
| Contract | what the lifecycle needs of a backend, reduced to one condition on its zone |
| Cloudflare, AdGuard (with Json), AliDns | three backends against a zone |
| LiveZones | the lifecycle over real Cloudflare, AliDNS and AdGuard zones and over jobs, call by call |
| Publishing | from a live Record's spec to the entry in the zone, through a whole reconcile over real zones |
| JobProvider, JobCalls, JobLaws | the Job backend, each call in the fields of the job, and its ledger of jobs over whole runs |
| WatcherSync, WatcherLaws | the record half of the ResourceWatcher reconcile |
| ResourceList, GeneratorSync, GeneratorRuns, GeneratorLaws | the Go slice kept by a Generator, its reconcile, what each run does to the watchers however the API answers, and convergence |
| Templates, TemplateAnswers, TemplateLaws, TemplateCache | accessors that record what they read, what they answer in the fields of the objects, soundness of the recording, the cache of parsed templates |

## What the theorems rest on

- Each Reconcile is one atomic step, and `Takes` in Protocol lists all steps: users create, edit or delete
  objects, either reconciler runs, the controller restarts, entries vanish from a zone by other hands. A sync
  by a watcher is not a step of its own: `WatcherLaws.SyncIsLifecycleRun` shows it is a run of such steps.
- The status write at the end of a Record reconcile succeeds, and selectors are well formed. The source only
  logs a failed write, and a malformed selector returns before the write. `LostWrites.LostWriteExactly`, with the
  release of the finalizer that may still follow, and `LostWrites.CutShortExactly` say exactly when either leaves an
  orphaned entry; `LostWrites.LostWriteHarmlessExactly` says it before the calls are made.
- An edit of a Provider does not point it at another zone while a Record holds an id there. The API does not
  prevent it; `ProtocolSafety.RetargetExactly` says exactly when it orphans an entry.
- Users do not take the operator's finalizer off an object, and names contain no `/`.
- Backend errors have a text and are definite: a call that returns an error has the effect the model gives it.
- The zones of the lifecycle hold the entries that the controller created or adopted. `LiveZones` derives them
  from real zones, where anybody may add and remove entries, and derives the replies of the backends as well;
  it rests only on servers that issue unused ids and list what exists, on AdGuard Deletes that do not let go of a
  live entry, and on Job providers that do not panic.
- A Job does what its action says when it completes, and nothing when it fails.

## Where the code does less than it seems to

- AdGuard's Delete removes the entry of the current spec, not the one its id spells
  (`internal/controller/dns/provider/adguard/adguard.go:134`), so a rename followed by a deletion, or by the
  loss of the provider's selection, leaves the old entry behind: `AdGuard.AdGuardIsSafeExactly`.
- AdGuard's Update trusts the id when it spells the wanted entry. After an Update that removed the old entry
  and failed to add the new one, going back to the old spec reports success with nothing in the zone:
  `AdGuard.SuccessIsLiveExactly`.
- The Job backend takes any completed job for the deletion it waits for, which orphans the entry:
  `JobLaws.JobOrphansExactly`. An Update takes a job that was started for an older spec in the same way, and
  the Record counts as ready: `JobLaws.NilIsCurrentExactly`. A failed update or delete job makes every later
  Delete fail until somebody removes the job: `JobLaws.DeletionStuckExactly`. A failed create job is abandoned
  in the cluster. The data is written even if the finished job cannot be removed. A data strategy without a
  data template makes the operator panic whenever it would save data
  (`internal/controller/dns/provider/job/job.go:79`, `:95`, `:133`), and then a deleted Record may never be
  released: `JobLaws.PanicsExactly`, `JobLaws.DeletionStuckExactly`.
- Cloudflare's adoption of a duplicate can come up empty, because the list call is made after the refusal
  (`internal/controller/dns/provider/cloudflare/cloudflare.go:33-35`). Create then returns nil with an empty
  id, the Record counts as ready, and nothing was published by it: `Cloudflare.SuccessNamesLiveEntry`.
- AliDNS's Delete treats an entry that is already gone as an error, so a Record whose entry was removed by
  other hands keeps its finalizer: `AliDns.DeleteStuck`.
- `RemoveResource` ranges over the old slice header while it shifts the backing array. On lists with
  duplicates it can keep an occurrence or slice out of bounds; on lists kept by `AddResource` it does neither.
- Watchers do not watch their Generator. After an edit of its template nothing is rendered until some recorded
  object changes: `TemplateLaws.EditedTemplateIsUnnoticed`. For Node and Service generators the same goes for
  the object itself: `TemplateLaws.BarePrimaryIsUnnoticed`. `TemplateLaws.TrackingExactly` says when tracking
  is sound.
- A Generator's list keeps, or even gains, a matching object that is deleted without ever carrying a deletion
  timestamp (`internal/controller/dns/generator_controller.go:265`), until the next reconcile finds it
  missing: `GeneratorLaws.NotingOverRunsExactly`.
- The template cache is keyed by name and generation, so an object that was deleted and made again can be
  rendered from its old text, and a text that turns blank leaves the old tree in place.
- A template output that repeats a new name makes the watcher's sync fail; repeated syncs settle all the same.
- A deleted Record waits for every selected provider to be ready, even one at which it holds no id
  (`RecordLaws.ReadyExactlyWhenSettled`).

## Model

| member | source | states |
|---|---|---|
| Strings.JoinSplit | api/dns/v1/custom_funcs.go:11-13 | joining the parts a string was split into gives the string back |
| Strings.SplitJoin | internal/controller/dns/provider/job/job.go:63 | splitting joined separator-free parts recovers exactly those parts |
| Names.NameKeyInjective | api/dns/v1/custom_funcs.go:7-13 | two slash-free names have the same key exactly when they are equal |
| Names.WatchKeyInjective | api/dns/v1/resourcewatcher_funcs.go:28-30 | the same for kind, namespace and name of a watched object |
| Names.KeyText | api/dns/v1/custom_funcs.go:11-13 | the key is the namespace, a slash and the name |
| Names.WatchKeyText | api/dns/v1/resourcewatcher_funcs.go:28-30 | the key is kind, namespace and name with slashes between |
| Names.ParseIdKey | internal/controller/dns/provider/job/job.go:63-65 | a job id written on creation is read back as the same namespace and name |
| Names.ParseIdIgnoresRest | internal/controller/dns/provider/job/job.go:63-65 | what follows a second separator of an id is not looked at |
| Names.ParseIdFails | internal/controller/dns/provider/job/job.go:63-65 | reading an id runs past the parts exactly when it holds no separator |
| Names.NameIndexIsScan | internal/controller/dns/record_controller.go:281-290 | the providers index finds a record exactly when one of its statuses is for that provider |
| Names.WatchIndexIsScan | internal/controller/dns/resourcewatcher_controller.go:316-323 | the resources index finds a watcher exactly when it recorded the object |
| Domains.SelectsIsSubdomain | api/dns/v1/provider_funcs.go:10-15 | the string test holds exactly when the domain is empty or its labels are a tail of the name's labels |
| Domains.SelectionTransitive | api/dns/v1/provider_funcs.go:10-15 | what a zone selects is selected by every zone that selects the zone |
| Domains.SelectingZonesNest | api/dns/v1/provider_funcs.go:10-15 | two zones that select the same name are nested |
| Domains.RelativeNameRoundTrip | internal/controller/dns/provider/alidns/alidns.go:24-31 | qualifying the relative name of a selected name gives the name back, exactly unless the name is the zone with a leading dot |
| Domains.RelativeNameCuts | internal/controller/dns/provider/alidns/alidns.go:24-31 | the relative name is what stands before the zone and its dot, nothing for the zone itself, and any other name unchanged |
| Domains.RelativeNameInjective | internal/controller/dns/provider/alidns/alidns.go:24-31 | two selected names share a relative name exactly when they are equal or the two spellings of the apex |
| Api.RemoveFinalizerTakesOne | internal/controller/dns/common.go:33-40 | exactly one occurrence of the operator's finalizer goes, and no other finalizer |
| Api.RemoveFinalizerCutsFirst | internal/controller/dns/common.go:33-40 | the one that goes is the first, and the others keep their order |
| Api.Finalizers.Add | internal/controller/dns/common.go:23-31 | adds the finalizer once, and reports a change exactly when it was absent |
| Api.Finalizers.Remove | internal/controller/dns/common.go:33-40 | the loop removes the first occurrence |
| RecordSync.TrimmedLines | internal/controller/dns/record_controller.go:195-203 | appending each message with a newline and trimming one newline is the newline-join of the messages |
| RecordSync.NoComplaints | internal/controller/dns/record_controller.go:195-202 | no line is written exactly when every message is empty |
| RecordLaws.ReconciledByKey | internal/controller/dns/record_controller.go:103-193 | append, nil-out and compaction leave one status per provider, and what remains for a provider depends on that provider alone |
| RecordLaws.CallsByKey | internal/controller/dns/record_controller.go:118-179 | each provider gets at most one backend call, the one its key alone decides; which one that is, `RecordCalls.CallsExactly` says |
| RecordLaws.DyingOnlyDeletes | internal/controller/dns/record_controller.go:125-136 | a deleted record, or a deleted provider, gets nothing but Deletes, and only for an id |
| RecordLaws.StoppedCallsByKey | internal/controller/dns/record_controller.go:104-110 | a reconcile that a malformed selector ends has made exactly the calls at the selected providers listed before it |
| RecordLaws.KeptUnselectedComplains | internal/controller/dns/record_controller.go:156-183 | a status kept although its provider is not selected existed before and has a message |
| RecordLaws.ReadyExactlyWhenSettled | internal/controller/dns/record_controller.go:195-210 | the record is ready exactly when every provider it concerns could be reached and every call returned nil |
| RecordLaws.ReleaseIsClean | internal/controller/dns/record_controller.go:125-183 | when a deleted record becomes ready no id is left, and each id was deleted by a nil call or its provider is missing |
| RecordLaws.PendingShrinks | internal/controller/dns/record_controller.go:111-183 | during deletion no provider gains an id, and a nil Delete takes one away |
| RecordLaws.DeletionFinishes | internal/controller/dns/record_controller.go:103-218 | a deleted record becomes ready once more reconciles than it has ids were productive, however many unproductive ones came in between |
| RecordLaws.EachDeleteSometimeFinishes | internal/controller/dns/record_controller.go:103-218 | if each pending Delete returns nil at some reconcile, each in its own time, and a later reconcile reaches every provider, the deleted record becomes ready |
| RecordCalls.CallsExactly | internal/controller/dns/record_controller.go:118-179 | a Create is made exactly at a usable selected provider when neither it nor the record is dying and no id is held, an Update exactly when one is held; a Delete exactly for a held id when the record or provider is dying, or the provider is unselected, found and usable |
| RecordCalls.ServingGetsOneCall | internal/controller/dns/record_controller.go:118-153 | at a usable selected provider a live record gets exactly one call, which carries the id and data of its status |
| RecordCalls.CalledIsBooked | internal/controller/dns/record_controller.go:129-182 | the answer of a call is stored, with a message exactly on an error; a nil Delete at an unselected provider drops the status |
| RecordCalls.UncalledIsKept | internal/controller/dns/record_controller.go:111-128 | without a call a selected provider keeps its id and data and says whether it is ready, and an unselected one is dropped, kept with the error of the lookup, or kept as not ready |
| RecordCalls.LedgerKeepsOrder | internal/controller/dns/record_controller.go:111-193 | the old statuses that stay keep their order, and new ones follow in the order of the listed providers |
| RecordCalls.ComplaintsAreMessages | internal/controller/dns/record_controller.go:195-202 | the lines of the record's message are the non-empty messages of its statuses, all of them and in order |
| RecordReconciler.ProviderStatus.Success | api/dns/v1/record_funcs.go:48-52 | stores id and data and clears the message |
| RecordReconciler.ProviderStatus.Error | api/dns/v1/record_funcs.go:54-58 | stores id, data and the error text |
| RecordReconciler.Record.Find | api/dns/v1/record_funcs.go:39-46 | returns the status of the key, or null exactly when there is none |
| RecordReconciler.Record.VisitOne | internal/controller/dns/record_controller.go:116-153 | what the matched loop does to one status object, and the call it makes: the one of `RecordCalls.CallsExactly` |
| RecordReconciler.Record.VisitMatched | internal/controller/dns/record_controller.go:103-154 | the matched loop updates statuses in place, appends the missing ones, and stops at a malformed selector after the calls before it |
| RecordReconciler.Record.SweepOne | internal/controller/dns/record_controller.go:162-183 | what the unmatched loop does to one status, and when it asks for the entry to be dropped |
| RecordReconciler.Record.SweepUnmatched | internal/controller/dns/record_controller.go:156-183 | the unmatched loop leaves null exactly for dropped statuses, and its counter is the number that remain |
| RecordReconciler.Record.Compact | internal/controller/dns/record_controller.go:185-193 | compaction keeps the remaining statuses in order, with no null |
| RecordReconciler.Record.Summarise | internal/controller/dns/record_controller.go:195-203 | readiness and message are those of the remaining complaints |
| RecordReconciler.Record.Reconcile | internal/controller/dns/record_controller.go:103-218 | the whole reconcile leaves the specified ledger, calls and message, which `RecordCalls` gives in the terms of what is read, and releases the finalizer exactly when a deleted record is ready; a malformed selector ends it with the calls before it and nothing saved |
| ProviderReconciler.Reconciler.CanDelete | internal/controller/dns/provider_controller.go:102-113 | the nested loops decide exactly whether no listed record holds an id at the provider |
| ProviderReconciler.Reconciler.Build | internal/controller/dns/provider_controller.go:88-95 | a successful build is cached under the current generation, a failed one leaves the cache alone |
| ProviderReconciler.Reconciler.Reconcile | internal/controller/dns/provider_controller.go:67-136 | cache, finalizers, readiness, reason and requeueing after a reconcile, spelled out in every branch, also when the records cannot be listed |
| ProviderReconciler.ListedIsBusy | internal/controller/dns/provider_controller.go:98-113 | the index query misses no record that holds an id at the provider |
| ProviderLaws.ReconcileWarms | internal/controller/dns/provider_controller.go:88-130 | after a reconcile of a provider with the finalizer that is live, or deleted and held, a backend built from its current spec and generation is cached exactly when the build succeeded or it was there before; no other backend changes |
| ProviderLaws.ReconcileMovesFinalizer | internal/controller/dns/provider_controller.go:67-121 | the finalizer goes on a live provider that lacks it and comes off a deleted one exactly when nobody holds an id there and the write succeeds; no other object changes |
| ProviderLaws.WarmStays | internal/controller/dns/provider_controller.go:88-130 | over every run a built backend stays current until a spec change, a mark for deletion or a restart |
| ProviderLaws.SeesProvidersAsTheyAre | internal/controller/dns/record_controller.go:79-110 | a Record reconcile sees the providers of its namespace and the cluster-scoped ones as they are, and selects exactly those whose domain and labels fit |
| ProviderLaws.FetchesProvidersAsTheyAre | internal/controller/dns/record_controller.go:223-237 | the lookup of an unselected provider fails, or yields the provider as it is, or nothing |
| ProviderLaws.BuiltProviderServes | internal/controller/dns/record_controller.go:118-153 | over every run, after a successful reconcile of a live provider and until it is edited, marked or the controller restarts, each reconcile of a live record that fits it makes an Update there if the record holds an id, and a Create otherwise |
| ProtocolSafety.BusyExactly | internal/controller/dns/provider_controller.go:97-113 | the scan finds the provider busy exactly when some record holds an id there |
| ProtocolSafety.IdAfter | internal/controller/dns/record_controller.go:103-193 | the id a record holds at a provider after a reconcile is the one its call left, or empty if the provider is missing and unselected, or the old one |
| ProtocolSafety.ReleasedHoldsNothing | internal/controller/dns/record_controller.go:208-218 | a reconcile that releases the finalizer leaves no id |
| ProtocolSafety.FirstReconcileWrites | internal/controller/dns/record_controller.go:72-77 | the first reconcile puts the finalizer on a record that is not being deleted, and does nothing else |
| ProtocolSafety.ReconcileWrites | internal/controller/dns/record_controller.go:203-218 | every later one stores the new ledger and takes the finalizer off exactly when the record is being deleted, no status has a message and the write succeeds; no other object changes |
| ProtocolSafety.StepKeeps | internal/controller/dns/record_controller.go:79-220 | every step of the lifecycle keeps the invariants |
| ProtocolSafety.NoOrphansOverRuns | internal/controller/dns/record_controller.go:79-220 | over every run, each live entry is named by a status of an existing record that bears the finalizer, at an existing provider of that zone |
| ProtocolSafety.DisappearanceIsClean | internal/controller/dns/record_controller.go:208-218 | when a record disappears, no entry it named is left, unless another record names it |
| ProtocolSafety.ProviderOutlivesIds | internal/controller/dns/provider_controller.go:97-120 | over every run, a status with an id names a provider that exists and bears the finalizer |
| ProtocolSafety.CacheHitIsCurrent | internal/controller/dns/record_controller.go:118-122 | over every run, a call uses the backend built from the provider's current spec, and a deleted selected provider gets only Deletes |
| LostWrites.LostWriteExactly | internal/controller/dns/record_controller.go:204-218 | after a lost status write, whether or not the finalizer is released all the same, nothing is orphaned exactly when every entry the calls added was named already |
| LostWrites.CutShortExactly | internal/controller/dns/record_controller.go:104-110 | the same for a reconcile that ended after any part of its calls with nothing saved |
| LostWrites.LostWriteHarmlessExactly | internal/controller/dns/record_controller.go:204-207 | losing the status write is harmless, however the calls may be answered, exactly when there are no calls to make |
| ProtocolSafety.RetargetExactly | internal/controller/dns/provider_controller.go:130-133 | pointing a provider at another zone leaves no orphan exactly when every live entry of the old zone is named at another provider too |
| ProviderDeletion.HoldersShrink | internal/controller/dns/record_controller.go:125-136 | no step gives a record an id at a deleted provider, and a Delete that returns nil takes it away |
| ProviderDeletion.HoldersNeverGrow | internal/controller/dns/provider_controller.go:97-113 | over every run, the records that hold an id at a deleted provider never grow in number |
| ProviderDeletion.OnlyReconcileReleases | internal/controller/dns/provider_controller.go:97-120 | a deleted provider loses the operator's finalizer in its own reconcile when nobody holds an id there, and in no other step |
| ProviderDeletion.HeldOrReleased | internal/controller/dns/provider_controller.go:97-120 | over every run, a deleted provider stays held until such a reconcile |
| ProviderDeletion.ProviderIsReleased | internal/controller/dns/provider_controller.go:97-120 | over every run, if each holder's Delete returns nil at some step and the provider is reconciled later, its finalizer is taken off while nobody holds an id there |
| Contract.SafeExactlyWhenZoneSafe | internal/controller/dns/provider/provider.go:26-30 | a backend call is acceptable to the lifecycle, whichever entries of the zone are the controller's, exactly when every entry it created is named by the id it leaves and it does not let go of an id whose entry is live |
| Cloudflare.CloudflareProvider.Find | internal/controller/dns/provider/cloudflare/cloudflare.go:24-37 | an exact match, or the empty id when the list holds none |
| Cloudflare.CloudflareProvider.Create | internal/controller/dns/provider/cloudflare/cloudflare.go:39-60 | payload and zone after a Create, with adoption of a duplicate that may be gone again; nothing is created unnamed |
| Cloudflare.CloudflareProvider.Update | internal/controller/dns/provider/cloudflare/cloudflare.go:62-83 | payload and zone after an Update, falling back to Create; no live id is let go |
| Cloudflare.CloudflareProvider.Delete | internal/controller/dns/provider/cloudflare/cloudflare.go:85-94 | payload and zone after a Delete; an entry that is not found counts as deleted, and no live id is let go |
| Cloudflare.CloudflareIsSafe | internal/controller/dns/provider/cloudflare/cloudflare.go:39-94 | every call the reconciler makes is acceptable to the lifecycle, whichever entries are the controller's |
| Cloudflare.SuccessNamesLiveEntry | internal/controller/dns/provider/cloudflare/cloudflare.go:39-83 | a nil Create or Update names a live entry for the record exactly unless an adoption came up empty, and then the id is empty |
| Cloudflare.SuccessTouchesOne | internal/controller/dns/provider/cloudflare/cloudflare.go:39-94 | a nil call touches the one entry it names or named, and no other |
| Cloudflare.AdoptionComesUpEmpty | internal/controller/dns/provider/cloudflare/cloudflare.go:33-55 | a Create that returns nil with an empty id |
| Cloudflare.FailureLosesNothing | internal/controller/dns/provider/cloudflare/cloudflare.go:39-94 | on an error the zone is as before and the id unchanged, or its entry was already gone |
| Cloudflare.SettingsMatchExactly | internal/controller/dns/provider/cloudflare/cloudflare.go:52-55 | a nil Create or Update leaves exactly the wanted entry, unless it adopted one with other settings, or none |
| Cloudflare.CallsKeepNoTwins | internal/controller/dns/provider/cloudflare/cloudflare.go:39-94 | no call makes two entries that are duplicates of each other |
| Cloudflare.AdoptionIsMadeGood | internal/controller/dns/provider/cloudflare/cloudflare.go:52-83 | after an adoption the next successful Update leaves exactly the wanted entry; where nothing was adopted the next call is a Create again |
| Cloudflare.CallsBySpecExactly | internal/controller/dns/provider/cloudflare/cloudflare.go:28-94 | in the fields of the spec: what each call leaves in the zone and in the id, and exactly when it returns nil |
| Json.DecodeEncode | internal/controller/dns/provider/adguard/adguard.go:78-97 | the pair written into an id, as a JSON object of two strings, is read back unchanged |
| Json.EncodeInjective | internal/controller/dns/provider/adguard/adguard.go:78-79 | different pairs have different ids, and no id is empty |
| Json.EncodedText | internal/controller/dns/provider/adguard/adguard.go:77-90 | the id of a name and an answer without special characters, letter by letter |
| AdGuard.AdguardProvider.Create | internal/controller/dns/provider/adguard/adguard.go:77-89 | payload and zone after a Create: a nil one adds the spec's name and value, and the id spells them |
| AdGuard.AdguardProvider.Update | internal/controller/dns/provider/adguard/adguard.go:91-107 | payload and zone after an Update: a nil one leaves the spec's name and value in the zone and in the id, unless the id spelled them already, which changes nothing; no live id is let go |
| AdGuard.AdguardProvider.Delete | internal/controller/dns/provider/adguard/adguard.go:133-142 | payload and zone after a Delete: a nil one takes the spec's name and value from the zone; a live id is let go exactly when it spells another rewrite |
| AdGuard.UpdateSwaps | internal/controller/dns/provider/adguard/adguard.go:91-107 | success replaces exactly the old entry by the new one; after a failure the id still spells the old entry and nothing else is lost |
| AdGuard.RetryReachesSameZone | internal/controller/dns/provider/adguard/adguard.go:91-107 | after any number of failed Updates the one that succeeds ends where a single successful one would have |
| AdGuard.SuccessIsLiveExactly | internal/controller/dns/provider/adguard/adguard.go:77-107 | after a nil Create or Update the wanted entry is live exactly unless the id already spelled it and the zone had lost it |
| AdGuard.RevertAfterFailedAdd | internal/controller/dns/provider/adguard/adguard.go:98-104 | going back to the old spec after a failed add reports success with the entry missing |
| AdGuard.AdGuardIsSafeExactly | internal/controller/dns/provider/adguard/adguard.go:77-142 | a call is acceptable to the lifecycle, whichever entries are the controller's, exactly unless it is a nil Delete under another spec than the live one in the id |
| AdGuard.OrphansOverRunsExactly | internal/controller/dns/provider/adguard/adguard.go:77-142 | over every run from an empty id, with other hands in the zone, every id is one this backend wrote, and an entry is orphaned exactly at such a Delete |
| AdGuard.CallsBySpecExactly | internal/controller/dns/provider/adguard/adguard.go:77-142 | in the fields of the spec: what each call leaves in the zone and in the payload, and exactly when it returns nil |
| AliDns.AliyunDNSProvider.Create | internal/controller/dns/provider/alidns/alidns.go:62-86 | payload and zone after a Create, with adoption of a search hit; nothing is created unnamed |
| AliDns.AliyunDNSProvider.Update | internal/controller/dns/provider/alidns/alidns.go:88-110 | payload and zone after an Update, which takes a duplicate for success; no live id is let go |
| AliDns.AliyunDNSProvider.Delete | internal/controller/dns/provider/alidns/alidns.go:112-121 | payload and zone after a Delete; an entry that is not found is an error, and no live id is let go |
| AliDns.AliDnsIsSafe | internal/controller/dns/provider/alidns/alidns.go:62-121 | every call the reconciler makes is acceptable to the lifecycle, even when the keyword search finds a stranger |
| AliDns.OutcomeIsExact | internal/controller/dns/provider/alidns/alidns.go:62-121 | on success the id names a live entry, or after Delete nothing, and other entries are untouched; on an error nothing changed |
| AliDns.SuccessIsWantedExactly | internal/controller/dns/provider/alidns/alidns.go:62-110 | the entry named after success is the wanted one exactly unless a duplicate blocked the update or the search adopted a stranger |
| AliDns.CollisionsExactly | internal/controller/dns/provider/alidns/alidns.go:62-79 | two selected records ask for the same entry exactly when type, value and line agree and the names are equal or the two spellings of the apex |
| AliDns.UpdatePublishesName | internal/controller/dns/provider/alidns/alidns.go:88-110 | an unobstructed Update publishes the record's own name, exactly unless it is the dotted apex |
| AliDns.DeleteStuck | internal/controller/dns/provider/alidns/alidns.go:112-121 | once the entry is gone no number of Deletes returns nil or changes anything |
| AliDns.DeletionEndsExactly | internal/controller/dns/provider/alidns/alidns.go:112-121 | of any series of Deletes, one returns nil exactly when the entry is there and one of them is answered |
| AliDns.CallsBySpecExactly | internal/controller/dns/provider/alidns/alidns.go:62-121 | in the fields of the spec, with the relative name: what each call leaves in the zone and in the id, and exactly when it returns nil |
| JobProvider.JobProvider.Execute | internal/controller/dns/provider/job/job.go:56-148 | payload, jobs and error after executeJob, in every branch, with its panics |
| JobProvider.JobProvider.Call | internal/controller/dns/provider/job/job.go:150-166 | the same for Create, Update and Delete, where a nil Delete clears the payload |
| JobCalls.CompletedJobExactly | internal/controller/dns/provider/job/job.go:75-91 | a job whose first condition says it completed is removed with nil, the data is written by OnComplete and OnCompleteOrFailed, and a nil Delete clears the payload |
| JobCalls.FailedJobExactly | internal/controller/dns/provider/job/job.go:92-104 | a job whose first condition says it failed stays, with an error, and only a create job gives the id up |
| JobCalls.WaitsExactly | internal/controller/dns/provider/job/job.go:66-74 | any other job is waited for, and a failing lookup changes nothing |
| JobCalls.StartsExactly | internal/controller/dns/provider/job/job.go:111-148 | without such a job the rendered one is started with the label of the operation, and its namespace and name become the id |
| JobLaws.JobLedgerOverRuns | internal/controller/dns/provider/job/job.go:62-148 | over every run, jobs started are those consumed, those of failed creates given up, those removed by others, and the one outstanding |
| JobLaws.OneUnfinishedOverRuns | internal/controller/dns/provider/job/job.go:62-148 | over every run, an unfinished job of a status is the one its id names, so there is at most one |
| JobLaws.NeverStartsTwo | internal/controller/dns/provider/job/job.go:62-148 | a job is started only when the job the id names does not exist |
| JobLaws.PanicsExactly | internal/controller/dns/provider/job/job.go:63-136 | a call panics exactly on a non-empty id without a separator, or when it needs a data template that was never given |
| JobLaws.DataWrittenDespiteFailedRemoval | internal/controller/dns/provider/job/job.go:75-91 | after a completed job the data is written whether or not the job could be removed, or without a template the call panics |
| JobLaws.JobCallsAreSafe | internal/controller/dns/provider/job/job.go:56-166 | with unfinished jobs as its entries, every call is acceptable to the lifecycle |
| JobLaws.DeletionIsHonestExactly | internal/controller/dns/provider/job/job.go:62-166 | over every run of Deletes, the id is given up only for a completed delete job, exactly when the first one finds the named job absent, deleting, or such that no Delete can give the id up for it |
| JobLaws.JobOrphansExactly | internal/controller/dns/provider/job/job.go:62-166 | over every run, the entry the jobs made is left without an id exactly when some Delete takes a completed create or update job for the deletion |
| JobLaws.NilIsCurrentExactly | internal/controller/dns/provider/job/job.go:75-91 | after every run, a nil Create or Update leaves the entry at the record's current spec exactly when the job it consumed was rendered from that spec and was no deletion |
| JobLaws.NilForOldSpec | internal/controller/dns/provider/job/job.go:75-91 | an edit while the create job runs: the next Update returns nil with the entry at the old spec |
| JobLaws.DeletionStuckExactly | internal/controller/dns/provider/job/job.go:75-136 | while nobody else removes jobs, the id can never be got rid of exactly when the named job failed in an update or a deletion, or a missing data template is needed |
| LiveZones.ServedIsSafe | internal/controller/dns/provider/provider.go:26-30 | every call at any of the four backends creates only what it names and lets go of no live id |
| LiveZones.BackendsAnswer | internal/controller/dns/record_controller.go:118-179 | the calls of one reconcile, made one after another on zones that providers may share, give the replies and the zones that the lifecycle takes for granted |
| LiveZones.ReconcileGoesThrough | internal/controller/dns/record_controller.go:103-193 | the calls a reconcile makes do not depend on their replies, so for all fair servers there is a reconcile that gets its replies from them |
| LiveZones.RealRunIsRun | internal/controller/dns/record_controller.go:79-220 | every run over real zones is a run of the lifecycle whose entries are live |
| LiveZones.NoOrphansInRealZones | internal/controller/dns/record_controller.go:79-220 | over every run over real zones and jobs with other hands in them, an entry that a reconcile created and that is live ever since is named by a record with the finalizer, at an existing provider of that zone |
| Publishing.NilPublishesExactly | internal/controller/dns/provider/provider.go:26-30 | a nil Create or Update leaves the spec's name, type and value in the zone under the id it answers, exactly unless an adoption came up empty or took a stranger, an entry was in the way, or AdGuard's zone had lost it |
| Publishing.CallPublishesExactly | internal/controller/dns/record_controller.go:137-153 | in a reconcile over real zones, a Create or Update that returns nil puts into the ledger an id under which the spec is in its zone, exactly unless that call falls short in one of these ways |
| Publishing.ReconcilePublishesExactly | internal/controller/dns/record_controller.go:103-193 | when no other call of the reconcile goes to that zone, the same of the zone as the reconcile found it and leaves it |
| Publishing.LiveUnlessTaken | internal/controller/dns/record_controller.go:103-193 | an entry that is live after some call is live after the whole reconcile unless a later call took it |
| ResourceList.Slice.AddResource | api/dns/v1/generator_funcs.go:17-25 | appends an absent element and keeps the list free of duplicates |
| ResourceList.Slice.RemoveResource | api/dns/v1/generator_funcs.go:27-35 | the shifting loop over the old header panics or leaves exactly the specified list |
| ResourceList.RemoveExactlyOne | api/dns/v1/generator_funcs.go:27-35 | without duplicates nothing panics, exactly the element goes, and order and uniqueness stay |
| ResourceList.RemoveCuts | api/dns/v1/generator_funcs.go:27-35 | what is left is what stood before the element and what stood behind it, in order |
| ResourceList.KeptMissesAdjacent | api/dns/v1/generator_funcs.go:27-35 | with duplicates an occurrence survives exactly when two are adjacent |
| GeneratorSync.Get | api/dns/v1/resourcewatcher_funcs.go:3-11 | the first listed watcher of a resource, or none exactly when there is none |
| GeneratorSync.Reconciler.Visit | internal/controller/dns/generator_controller.go:98-143 | the loop over the resources hires missing watchers and marks listed ones, until a resource stops it |
| GeneratorSync.Reconciler.Sweep | internal/controller/dns/generator_controller.go:145-151 | the unmarked watchers are deleted |
| GeneratorSync.Reconciler.Reconcile | internal/controller/dns/generator_controller.go:74-162 | status and watchers after a run, in every branch; `GeneratorRuns` says for each branch which watchers stay, go and come |
| GeneratorRuns.StoppedRunExactly | internal/controller/dns/generator_controller.go:98-143 | however the API answers: a run that a resource stops keeps every watcher, has hired one for each resource before it that had none, and its status loses exactly a missing resource or asks for a rematch at a differing one |
| GeneratorRuns.SweepingRunExactly | internal/controller/dns/generator_controller.go:98-153 | a run that reaches the sweep removes exactly the listed watchers that are not the first of a listed resource, up to the first removal that fails; each listed resource that had none gets one; the status stays |
| GeneratorRuns.RematchingRunExactly | internal/controller/dns/generator_controller.go:74-96 | every other run changes no watcher, and notes what is listed, once each and in order, exactly when both calls succeed |
| GeneratorRuns.RunKeepsConsistent | internal/controller/dns/generator_controller.go:74-153 | every run, however the API answers, keeps the list free of duplicates and identities unused |
| GeneratorLaws.RunRematches | internal/controller/dns/generator_controller.go:74-90 | a run after a spec change lists exactly the matching resources |
| GeneratorLaws.RunMeetsStale | internal/controller/dns/generator_controller.go:99-109 | a run that meets a stale entry drops a missing one or asks for a rematch, and every watcher stays with its resource |
| GeneratorLaws.RunSettles | internal/controller/dns/generator_controller.go:92-153 | a run over a list without stale entries ends with exactly one watcher for each |
| GeneratorLaws.RunLowersRank | internal/controller/dns/generator_controller.go:74-162 | every run that is not settled brings the state closer |
| GeneratorLaws.SettledIsIdle | internal/controller/dns/generator_controller.go:92-153 | in a settled state a run changes nothing |
| GeneratorLaws.Converges | internal/controller/dns/generator_controller.go:74-162 | with the cluster at rest, as many runs as there are stale entries and two more always settle, and stay settled |
| GeneratorLaws.NotingKeepsListExactly | internal/controller/dns/generator_controller.go:261-280 | noting one event keeps the list equal to the matching objects, without a panic, exactly unless it is a deletion of a matching object that shows no timestamp |
| GeneratorLaws.DeletedObjectStaysListed | internal/controller/dns/generator_controller.go:265-276 | such a deletion leaves the object in the list, or puts it there |
| GeneratorLaws.NotingOverRunsExactly | internal/controller/dns/generator_controller.go:261-280 | over every series of events the list ends equal to the matching objects exactly unless the last event of some object was such a deletion |
| WatcherSync.Get | api/dns/v1/record_funcs.go:5-13 | the position of a record in the list, or none exactly when it is not listed |
| WatcherSync.Sync | internal/controller/dns/resourcewatcher_controller.go:152-184 | records after a sync, however it ends; by the names of the items in `WatcherLaws.SyncFollowsItems` |
| WatcherLaws.SyncBringsInLine | internal/controller/dns/resourcewatcher_controller.go:152-184 | after success every output name has an owned record with its last content and its old ledger, every other owned record is marked or gone, and strangers are untouched; names are those of the items, as `WatcherLaws.SyncFollowsItems` says |
| WatcherLaws.SyncFollowsItems | internal/controller/dns/resourcewatcher_controller.go:152-184 | after success, for each item that no later one of its name follows, the Record of that name in the watcher's namespace is owned and has its labels and spec; a listed Record that no item names is gone or marked; no other Record changed |
| WatcherLaws.SyncSpares | internal/controller/dns/resourcewatcher_controller.go:156-184 | however a sync ends, no record loses a finalizer or its ledger, and strangers are untouched |
| WatcherLaws.SyncSucceedsExactly | internal/controller/dns/resourcewatcher_controller.go:152-184 | a sync succeeds exactly when no API call fails and no new name is repeated or held by somebody else |
| WatcherLaws.SecondSyncKeepsContent | internal/controller/dns/resourcewatcher_controller.go:152-184 | a second sync with the same output succeeds and changes no content |
| WatcherLaws.SecondSyncIsIdle | internal/controller/dns/resourcewatcher_controller.go:152-184 | when items of one name agree, the second sync changes nothing at all |
| WatcherLaws.SyncIsLifecycleRun | internal/controller/dns/resourcewatcher_controller.go:152-184 | a sync is a run of record creations, edits and deletions, so it keeps the invariants of the lifecycle |
| WatcherLaws.FailedSyncGains | internal/controller/dns/resourcewatcher_controller.go:171-175 | a sync that fails although every API call was answered has created a record for a name that had none |
| WatcherLaws.SyncsSettle | internal/controller/dns/resourcewatcher_controller.go:152-184 | one sync more than there are names without a record is always enough |
| Templates.Watcher.AddResource | api/dns/v1/resourcewatcher_funcs.go:13-26 | adds one resource to the recorded set, without duplicates |
| Templates.TemplateData.GetNamespace | internal/controller/dns/template.go:23-30 | the watcher's Namespace, and what is recorded |
| Templates.TemplateData.Primary | internal/controller/dns/template.go:37-40 | the primary object, which is recorded |
| Templates.TemplateData.GetService | internal/controller/dns/template.go:47-55 | the Service that this path of this rule names, in the Ingress's namespace, or an error for other indexes; and what is recorded |
| Templates.TemplateData.GetEndpoints | internal/controller/dns/template.go:62-69 | the Endpoints of the Service's own name, and what is recorded |
| Templates.TemplateData.Nodes | internal/controller/dns/template.go:76-100 | one node per name that an address gives, in any order, and what is recorded |
| Templates.TemplateData.Pods | internal/controller/dns/template.go:102-129 | one pod per uid, of the first name given for it, in any order, and what is recorded |
| Templates.TemplateData.GetNode | internal/controller/dns/template.go:136-146 | the Node the Pod names, nothing when it names none, and what is recorded |
| TemplateAnswers.AnswersByFields | internal/controller/dns/template.go:23-69 | in the fields of the objects: which Namespace, Service, Endpoints, Node or primary object each accessor answers and records, and when it fails |
| TemplateAnswers.NodesExactly | internal/controller/dns/template.go:76-100 | a node is in the result exactly when some address names it; the accessor fails exactly when one of those is missing |
| TemplateAnswers.PodsExactly | internal/controller/dns/template.go:102-129 | a pod is in the result exactly when the first Pod reference to some uid names it; the accessor fails exactly when one of those is missing |
| TemplateAnswers.TextByFields | internal/controller/dns/resourcewatcher_controller.go:110-144 | the text is the generator's own, or that of the Template in the watcher's namespace or of the ClusterTemplate it refers to, which is recorded |
| TemplateAnswers.PrimaryByFields | internal/controller/dns/resourcewatcher_controller.go:249-278 | the primary object is the one of the generator's kind that the watcher names, and a Node has no namespace |
| TemplateLaws.AskedAgrees | internal/controller/dns/template.go:23-146 | an accessor answers alike on clusters that agree on what it recorded |
| TemplateLaws.TrackingIsSound | internal/controller/dns/resourcewatcher_controller.go:102-150 | on a later cluster that agrees on every recorded object a rendering gives the same output and records the same, if the generator gives the same kind and source and the primary object exists, unchanged for Node and Service; for Ingress and Record exactly if it exists |
| TemplateLaws.TrackingExactly | internal/controller/dns/resourcewatcher_controller.go:102-150 | over all templates, tracking is sound exactly under these conditions, or when the generator moved between Ingress and Record while the object it left changed too |
| TemplateLaws.ChangeIsNoticed | internal/controller/dns/resourcewatcher_controller.go:316-343 | when a rendering would differ, some recorded object changed, and the index finds the watcher by it, or the generator or the primary object moved |
| TemplateLaws.EditedTemplateIsUnnoticed | internal/controller/dns/resourcewatcher_controller.go:111-117 | an edit of an inline template changes the rendering and no recorded object |
| TemplateLaws.BarePrimaryIsUnnoticed | internal/controller/dns/template.go:194-206 | a change of a Node can change the rendering and no recorded object |
| TemplateCache.ResourceWatcherReconciler.GetTemplate | internal/controller/dns/resourcewatcher_controller.go:233-247 | cache and result of a lookup, in every branch |
| TemplateCache.LookupsAgreeWithParsing | internal/controller/dns/resourcewatcher_controller.go:233-247 | over every run of lookups in which generations determine texts, each returns what parsing its own text returns, exactly unless the text is blank and another tree is held |
| TemplateCache.RecreatedObjectIsStale | internal/controller/dns/resourcewatcher_controller.go:238-246 | a hit is right exactly when the cached text parses like the current one |
| TemplateCache.BlankTextKeepsOldTree | internal/controller/dns/resourcewatcher_controller.go:238-246 | a text that turns blank leaves the old tree to be executed |

## Left out

- Event delivery: which edits enqueue which reconcile, work queues, watch predicates, leader election, `cmd/main.go`.
- Interleaving inside a reconcile, update conflicts, and races on the unlocked map of built backends.
- The decoding of rendered text into Records and Jobs from YAML or JSON, and template execution itself: a template is any strategy that picks its next accessor call from the answers so far.
- Go's `define` blocks inside a template, which could replace another template of the same set.
- Evaluation of match expressions in label selectors: equality labels are modelled, a malformed selector is an error.
- HTTP calls, SDKs and credentials: a zone is a map or a set, and each call succeeds, is refused, or fails.
- Indefinite outcomes, where a call takes effect at the server although it returned an error.
- JSON objects other than the two-string object AdGuard's backend writes: any other text counts as undecodable.
- Template output that names its own owners or finalizers, and finalizers put on watchers by others.
- The provider registry, `NodeData.Ready`, the lookup of a watcher's generator by owner reference.
- JobLaws.JobCallsAreSafe: its entries are the unfinished jobs; the entry that finished jobs made is followed by `JobLaws.JobOrphansExactly`, and what a failed job did outside the cluster is not modelled.
- LiveZones.NoOrphansInRealZones: leaves out AdGuard Deletes that let go of a live entry, because they do orphan it (`AdGuard.OrphansOverRunsExactly`), and panics of a Job provider, after which the reconcile does not go on (`JobLaws.PanicsExactly`).
- GeneratorLaws.Converges: for API calls that all succeed; a failing call ends a run early, and the next run starts over.
