# A verified model of the oVirt machine provider

The repository is a reconciler. Calls of the machine controller (Create, Update, Exists, Delete) and two node
controllers act on two outside stores, the oVirt engine and the Kubernetes API, and a credential service feeds
all of them. Every outside call may fail before or after its effect, and others act in between. This project
models the code that runs against that environment and proves what holds at every moment of every run.

## How the pieces fit

* `Prelude`, `Decimal`, `ProviderSpec`, `Templates`: shared types, the wrapping integers, the provider spec.
* `VMParams`: the parameter builder, a mutable object whose setters replace what was set before, and the
  field-by-field description of what `create` sends.
* `Plan`: `create` as a compiler. A spec and a template give a list of engine writes; running the list on the
  fresh instance gives the VM the spec declares, and every prefix of it keeps its interfaces and disks in order.
* `EngineLog`, `Engine`: the engine as an append-only log of the writes that took effect. A log is legal when
  each write obeys the protocol of the actuator; legality is closed under prefixes, so a property of all legal
  logs holds at every moment. `Engine.Interfere` is what the others may do between two calls. Its body does
  nothing, which is one thing they may do; every proof relies on its contract alone. `budget` counts the faults
  that may still happen, so "no fault" is `budget == 0` and "at most F faults" is a starting budget of F. A VM of the
  machine's name that someone else removes counts as a fault. Templates, hosts, affinity groups and the support of
  autopinning are constants of the engine. `pending` records what the engine is still busy with on a VM.
* `MachineScope`: `create`, `delete`, `exists` as imperative runs against the engine. `secret` is the user data in the
  secret that the spec names, if it is there.
* `VMAddresses`: IPv4 and IPv6 addresses as Go's net package parses and renders them, the addresses a VM reports, those
  the search leaves, and the one the lookup may return.
* `MergePatch`, `MachineDocs`, `ReconciledDocs`: JSON documents, the diff that a patch is made of, the merge of
  section 2 of RFC 7396, the fields that the actuator writes, and what two patches leave in the store.
* `MachineStore`: the API server's record of every version of one Machine; others may store versions between any
  two calls. With `quiet` set nobody else writes; `faults` counts the calls that may still fail, and
  `foreign` says which versions came from others. `infrastructure` holds the cluster's two own addresses.
* `MachineReconcile`, `Actuator`: the Machine-object side of an operation, and the four operations themselves.
  `Actuators.Run` drives any sequence of calls, each on a possibly stale copy of the Machine. `Connection` is the cached
  client as an operation sees it: each Get may fail while `outages` last.
* `Validation`: the acceptance predicate, and what `create` may rely on after it.
* `NodeSystem`, `NodeControllers`: any number of node and ProviderID reconciles as a transition system, and the two
  Reconcile functions as programs whose steps are its actions. `faults` counts the calls that may still fail, and with
  `upToDate` set the manager's cache is.
* `Credentials`, `CachedClients`, `CredentialSystem`: secrets, the cache and the service as objects, and the same
  code interleaved under its mutexes. Whether a client reaches the engine is a state that `Test` reads.
* `DeepCopy`: the provider spec in memory and its generated copy.

## What the environment is assumed to do

* Operations on one machine name are serialized; operations on other names are among the others.
* The engine never reuses a VM id. Nobody else creates VMs under machine names, reconfigures them, or starts a VM
  that an operation stopped; others may remove any VM, and any VM may change its status and the addresses it reports.
* Templates, hosts, affinity groups, the support of autopinning, the user data secret and the Infrastructure object do
  not change during a run.
* Stopping a VM that is already down succeeds. An engine that answers a request with an error of its own, such as an
  unknown tag or interface profile, counts as a fault, and so does a secret that cannot be read at the moment.
* Other writers of a Machine leave `spec.providerID`, the `VmId` annotation and `status.providerStatus.instanceId` alone.
  A new Machine has none of them, or a matching pair and no instance id.
* The Machine resource has a status subresource
  (`vendor/github.com/openshift/api/machine/v1beta1/0000_10_machine.crd.yaml:319`): an ordinary write leaves the status
  alone and a status write leaves everything else alone.
* Other writers of a Node set its provider id only where there is none. Versions are unique in the cluster.
* Listeners are added before the client service starts (`cmd/manager/main.go:66-87`), and create functions are set
  before that too.

## Where the code and its documentation part

* The CPU setter takes cores, threads, sockets; `create` passes cores, sockets, threads. A declared topology arrives
  unchanged only if sockets and threads are equal.
* On a high performance VM the CPU mode replaces the topology and the ballooning setting replaces the guaranteed
  memory, so neither reaches the engine.
* Wrapping a nil error gives nil. Hence a VM without a bootable disk ends `create` without an error and is never
  started, and an engine without autopinning accepts a spec before its huge pages and guaranteed memory are looked at.
  Such a spec with more guaranteed memory than memory, like any spec without a cluster, passes the validation and is
  refused by the client every time.
* For the same reason a VM that reports no address gets an empty one: exactly when every address on every included
  interface is one of the cluster's own. The search excludes a `/32` around each of these; an IPv6 one is a range of many
  addresses, so a VM with addresses of its own may get an empty one.
* A reported address that does not parse, such as one with a zone, is not dropped: `<nil>` is stored as the address.
* An Infrastructure object without one of its addresses makes every reconcile of a VM that is up or migrating fail,
  because the empty address does not parse.
* `handleMachineError` says that it sets the reason and message on the status; it sends an ordinary update, so they are
  not stored, and when that update fails the machine error is lost. With one writer and no fault that happens exactly
  on a stale object.
* The comment on `Create` promises InvalidConfiguration, on which the machine controller gives up for good, for
  validation errors; it is reported for a lost connection as well.
* The OS disk is dereferenced before the test for nil.
* The node controller reports an error after every delete, a successful one included, and its delete carries no
  precondition, so it may hit a Node other than the one it read.
* Repeating an update of an unchanged VM stores nothing new, but its patch is not empty: marshalling the provider status
  adds a null creation timestamp.
* A first patch that stores a new version makes the second one depend on that version.

## Model

| member | source | states |
|---|---|---|
| VMParams.Builder.MustWithCPUParameters | vendor/github.com/ovirt/go-ovirt-client/v2/vm.go:1759-1790 | the setter's order is cores, threads, sockets; a zero panics and leaves the builder alone; success replaces all CPU parameters |
| VMParams.Builder.MustWithDisks | vendor/github.com/ovirt/go-ovirt-client/v2/vm.go:1658-1682 | the last disk list set replaces the one before |
| VMParams.Builder.WithMemoryPolicy | vendor/github.com/ovirt/go-ovirt-client/v2/vm.go:1632-1640 | the last memory policy set replaces the one before, guaranteed memory included |
| VMParams.SettingsAddUp | pkg/actuators/machine/machine.go:80-204 | the setters in the code's order, later ones replacing earlier ones, amount to the field-by-field description of the parameters |
| VMParams.TopologySentExactly | pkg/actuators/machine/machine.go:88-93 | the declared topology is what the engine gets if and only if the VM is not high performance and sockets equal threads |
| VMParams.GuaranteedSentExactly | pkg/actuators/machine/machine.go:99-102 | guaranteed memory reaches the engine if and only if there is no instance type and the VM is not high performance |
| VMParams.PlacementExactly | pkg/actuators/machine/machine.go:105-135 | hosts are sent if and only if the autopinning policy is neither empty nor `none`, and then they are the listed hosts of the cluster |
| VMParams.PerformanceExactly | pkg/actuators/machine/machine.go:188-203 | affinity, soundcard, serial console, CPU mode and ballooning differ from the defaults if and only if the type is `high_performance` |
| VMParams.ClonedExactly | pkg/actuators/machine/machine.go:163-172 | disks are cloned unless the spec says no, or says nothing of a desktop |
| VMParams.DiskOverridesSentExactly | pkg/actuators/machine/machine.go:140-183 | sparse and format reach every template disk if and only if no storage domain is set |
| VMParams.HostsInExactly | pkg/actuators/machine/machine.go:112-117 | the placement hosts are exactly the listed hosts of the machine's cluster |
| MachineScopes.MachineScope.OverrideDisks | pkg/actuators/machine/machine.go:147-159 | the loop that discards the setters' results still builds one override per disk, in order; it fails exactly on a bad format with a disk |
| MachineScopes.MachineScope.PlacementHosts | pkg/actuators/machine/machine.go:105-124 | the loop collects exactly the hosts of the cluster, in listing order, and none without autopinning |
| MachineScopes.MachineScope.BuildParams | pkg/actuators/machine/machine.go:80-204 | a run that gets through sends exactly the described parameters and meets no panic condition; a failure was paid for by a fault or a missing template; a panic meets a stated condition |
| MachineScopes.MachineScope.GetIgnition | pkg/actuators/machine/machine.go:372-389 | the script is the user data of the secret that the spec names, or empty if it names none; without a fault reading it fails exactly if the secret is missing or incomplete |
| PlanProofs.CompilerCorrect | pkg/actuators/machine/machine.go:206-331 | running the compiled commands on the fresh instance yields exactly the VM the spec declares: disks, interfaces, consoles, tag, groups, pinning, start |
| PlanProofs.PinnedExactly | pkg/actuators/machine/machine.go:297-302 | the finished VM is pinned if and only if the autopinning policy is neither empty nor `none` |
| PlanProofs.InterfacesExactly | pkg/actuators/machine/machine.go:273-295 | the finished VM has one interface for each in the spec, in order, named nic1, nic2, ..., under new ids, or the template's if the spec has none |
| PlanProofs.AttachmentsExactly | pkg/actuators/machine/machine.go:223-323 | consoles, tag, affinity groups, cluster and template of the finished VM, in terms of the spec's fields |
| PlanProofs.StartedExactly | pkg/actuators/machine/machine.go:237-253 | the compiled run starts the VM if and only if the spec has an OS disk and no nil interface and the template has a bootable disk |
| PlanProofs.NicsNeverMixed | pkg/actuators/machine/machine.go:273-295 | at every prefix of the run the interface list is a suffix of the template's or a prefix of the spec's |
| PlanProofs.NicNamesDistinct | pkg/actuators/machine/machine.go:288-289 | the names nic1, nic2, ... of a finished VM are pairwise distinct |
| Decimal.RenderInjective | pkg/actuators/machine/machine.go:289 | decimal rendering is injective |
| Decimal.ReadsBack | pkg/actuators/machine/machine.go:289 | decimal rendering gives digits without a leading zero that read as the number |
| PlanProofs.DisksOnlyGrow | pkg/actuators/machine/machine.go:237-271 | at every prefix of the run the disks are the template's, or those with the last bootable one at the larger of its size and the request |
| PlanProofs.DisksNeverShrink | pkg/actuators/machine/machine.go:260-271 | no run makes any disk smaller |
| PlanProofs.RequestedSizeMod | pkg/actuators/machine/machine.go:238 | the requested size is (SizeGB mod 2^34) * 2^30 for every int64 SizeGB |
| PlanProofs.RequestedSizeExact | pkg/actuators/machine/machine.go:238 | the requested size is SizeGB * 2^30 if and only if 0 <= SizeGB < 2^34 |
| MachineScopes.MachineScope.FindBootable | pkg/actuators/machine/machine.go:245-249 | the loop finds the last bootable attachment, or none if there is none |
| MachineScopes.MachineScope.ExtendOSDisk | pkg/actuators/machine/machine.go:237-271 | the OS disk grows exactly when the request exceeds it; without a bootable disk nothing more is to be done |
| MachineScopes.MachineScope.ReplaceNics | pkg/actuators/machine/machine.go:273-295 | the two loops perform the interface commands in order; a nil interface panics after those before it |
| MachineScopes.MachineScope.RemoveConsoles | pkg/actuators/machine/machine.go:223-235 | all graphics consoles of a high performance VM are removed |
| MachineScopes.MachineScope.Finish | pkg/actuators/machine/machine.go:297-331 | pinning, tag, groups in order, start, and the VM is up |
| MachineScopes.MachineScope.Create | pkg/actuators/machine/machine.go:60-332 | whatever fails, the first write under the name comes after a moment at which the name was absent; a nil result means the declared VM, up, or an instance without a bootable disk that was never started, or that nothing was written because a VM was there; a failure needs a fault or one of the listed hindrances, a panic one of the listed conditions |
| MachineScopes.MachineScope.CreateWithoutFaults | pkg/actuators/machine/machine.go:60-332 | refinement: without a fault, with a readable secret, a known template and affinity groups, arguments that the client takes and no panic condition, an absent name ends as exactly the VM declared by spec, template, hosts and secret, with status up, or without a bootable disk as what the command list makes of the instance, not started |
| MachineScopes.MachineScope.Exists | pkg/actuators/machine/machine.go:335-344 | the answer is whether a VM of the name exists at that moment; only a fault makes it fail |
| MachineScopes.MachineScope.Delete | pkg/actuators/machine/machine.go:347-366 | a nil result means no VM of the name; a failure was paid for by a fault; no VM of the name goes back to an earlier stage of its removal |
| EngineLog.AlwaysSafe | pkg/actuators/machine/machine.go:60-332 | at every moment of every legal run names are unique and each live VM is what a prefix of its compiled command list makes of the fresh instance |
| EngineLog.CreatedOncePerAbsence | pkg/actuators/machine/machine.go:62-73 | strictly between two creations under one name the first VM was removed, and the two have different ids |
| EngineLog.DevicesAlwaysConsistent | pkg/actuators/machine/machine.go:260-295 | at every moment of every legal run interfaces are never mixed and no disk is smaller than the template's |
| EngineLog.ConfiguredAfterDown | pkg/actuators/machine/machine.go:215-219 | in every legal run a VM is configured only after it was seen down, its disks copied |
| EngineLog.ConfiguredAfterResize | pkg/actuators/machine/machine.go:260-270 | after a disk was resized the VM is configured further only once the disk is ready |
| EngineLog.RemovedAfterStop | pkg/actuators/machine/machine.go:347-366 | an actuator removes a VM only after stopping it, when it is down |
| EngineLog.FinishedIsExpected | pkg/actuators/machine/machine.go:206-331 | a live VM whose command list is done and whose spec is complete is the declared VM |
| EngineLog.ForeignToOthers | pkg/actuators/machine/machine.go:60-366 | what an operation writes under its own name is among what operations on other names expect of the others |
| Engines.Engine.CreateVM | vendor/github.com/ovirt/go-ovirt-client/v2/vm_create.go:92-135 | without an error the fresh VM exists and is the only one of its name; an error means a fault, which does not say whether the VM exists, or that the arguments are refused, and refused arguments always fail |
| PlanProofs.RefusedExactly | vendor/github.com/ovirt/go-ovirt-client/v2/vm_create.go:254-310 | the client refuses what `create` sends if and only if the name, the cluster or the template id is empty, or the VM has neither instance type nor high performance and its guaranteed memory exceeds its memory, 1 GiB if that is not positive |
| Engines.Engine.Configure | pkg/actuators/machine/machine.go:221-323 | without an error exactly the next command of the VM's list took effect; no other VM of the name changes, and an error means a fault or a VM that is gone |
| Engines.Engine.GetVMIPAddresses | vendor/github.com/ovirt/go-ovirt-client/v2/vm_ip_get.go:24-97 | the answer holds the included interfaces that report an address outside the excluded ones, with those addresses |
| Validations.ValidationExact | pkg/actuators/machine/validations.go:20-129 | a spec is accepted if and only if the basic checks hold, the support check did not fail, and the memory checks hold or a named policy is unsupported |
| Validations.ErrorIsRight | pkg/actuators/machine/validations.go:20-129 | the error that is reported is one the spec has, in the order of the checks |
| Validations.ValidatedPanicsExactly | pkg/actuators/machine/validations.go:20-62 | an accepted spec has an OS disk, and create panics on it in exactly the listed cases |
| Validations.ValidatedSizedOneWay | pkg/actuators/machine/machine.go:85-103 | an accepted spec sends an instance type or a size, never both; a negative memory is dropped |
| Validations.ValidatedBytes | pkg/actuators/machine/machine.go:95-102 | byte counts are exact and below 2^51; guaranteed memory is covered by memory unless the policy was unsupported |
| Validations.ValidatedRefusedExactly | vendor/github.com/ovirt/go-ovirt-client/v2/vm_create.go:254-310 | an accepted spec is refused by the client if and only if an id or the name is empty, or its memory checks were skipped and guaranteed memory exceeds memory |
| Validations.UnsupportedPolicySkipsGuaranteed | pkg/actuators/machine/validations.go:45-61 | counterexample: an accepted spec, complete and without a panic, that guarantees 32 GiB of 16 GiB and is refused by the client |
| Validations.MissingClusterPasses | pkg/actuators/machine/validations.go:20-62 | counterexample: an accepted spec without a cluster, refused by the client on every template |
| Validations.UnsupportedPolicySkipsHugepages | pkg/actuators/machine/validations.go:45-56 | counterexample: an accepted spec with an invalid huge page size, on which create panics |
| Validations.SocketsAndThreadsSwapped | pkg/actuators/machine/machine.go:90-92 | counterexample: an accepted spec whose two sockets and one thread arrive as one socket and two threads |
| Validations.HighPerformanceLosesSettings | pkg/actuators/machine/machine.go:88-102 | counterexample: an accepted high performance spec whose topology and guaranteed memory do not reach the engine |
| Validations.NoBootableDiskNoStart | pkg/actuators/machine/machine.go:251-253 | counterexample: an accepted spec whose run writes nothing after the creation and never starts the VM |
| MergePatch.DiffEmptyIff | vendor/github.com/evanphx/json-patch/merge.go:335-389 | the diff is empty if and only if the documents are equal |
| MergePatch.RoundTrip | vendor/github.com/evanphx/json-patch/merge.go:187-230 | merging the diff into its base gives the modified document without null members |
| MergePatch.UnchangedKept | vendor/sigs.k8s.io/controller-runtime/pkg/client/patch.go:95-140 | a path on which base and modified document agree keeps the value of any store |
| MergePatch.ChangedTaken | vendor/sigs.k8s.io/controller-runtime/pkg/client/patch.go:95-140 | a path on which they differ takes the modified value in any store |
| MachineDocs.StampDiffersInBothOrNeither | pkg/actuators/machine/machine.go:536-547 | a reconciled document differs from a paired base in both the provider id and the annotation or in neither |
| MachineDocs.PatchKeepsPaired | pkg/actuators/machine/machine.go:414-434 | a patch from any paired base, however stale, leaves a paired store paired |
| MachineStores.MachineAPI.Patch | pkg/actuators/machine/machine.go:420-423 | every stored version stays paired and justified; the patch is merged into the version that was stored when it arrived, which only others can have changed since the call |
| MachineStores.MachineAPI.PatchStatus | pkg/actuators/machine/machine.go:429-432 | the instance id is stored only after the provider id was; a patch that carries a version takes effect only on that version, and without a fault it fails only on another one |
| MachineStores.MachineAPI.Update | pkg/actuators/machine/actuator.go:169 | success means that the object's version was the stored one and that everything but the status became the object's; with one writer and without a fault a current version is accepted |
| MachineStores.OthersKeepGood | pkg/actuators/machine/machine.go:414-434 | other writers keep pairing and justification of all versions |
| MachineStores.MainAcceptable | pkg/actuators/machine/machine.go:420 | the first patch yields a paired document with the store's instance id |
| MachineStores.StatusAcceptable | pkg/actuators/machine/machine.go:429 | the second patch yields a paired document whose instance id is the store's or the reconciled one |
| ReconciledDocs.TwoPhase | pkg/actuators/machine/machine.go:414-434 | each field outside the status after the first patch, and each field in it after the second, holds the reconciled value where the reconcile changed it and the store's value elsewhere |
| ReconciledDocs.ReconciledFields | pkg/actuators/machine/machine.go:391-412 | provider id, annotations, instance id and state of a reconciled document all come from one reading |
| ReconciledDocs.ReconciledShows | pkg/actuators/machine/machine.go:391-481 | the reconciled object shows the prefixed id, both annotations, instance id and state, and exactly one InternalDNS with the machine's name and one InternalIP with the address |
| ReconciledDocs.UpToDateShows | pkg/actuators/machine/machine.go:391-481 | so does a stored document that is up to date |
| ReconciledDocs.UnmarshalsExactly | pkg/apis/ovirtprovider/v1beta1/register.go:109-121 | a provider status fails to unmarshal if and only if it is neither an object nor null or one of its members is of another kind |
| ReconciledDocs.MarshalledExactly | pkg/apis/ovirtprovider/v1beta1/register.go:76-91 | what is marshalled, member by member; it always unmarshals |
| ReconciledDocs.MarshalledAgain | pkg/actuators/machine/machine.go:521-534 | marshalling what was marshalled changes nothing but id and state |
| ReconciledDocs.MarshalSettles | pkg/actuators/machine/machine.go:521-534 | a provider status merged over the one it was read from has only known members, with the new id and state |
| ReconciledDocs.QuietPatches | pkg/actuators/machine/machine.go:414-434 | with a single writer and a fresh read the store ends up describing the reading |
| ReconciledDocs.RepeatChangesNothing | pkg/actuators/machine/actuator.go:95-123 | reconciling again with the same reading changes nothing in the store; the patch is empty if and only if the provider status has a creation timestamp |
| ReconciledDocs.RepeatedPatchIsNotEmpty | pkg/actuators/machine/machine.go:521-534 | counterexample: an up-to-date Machine whose next patch is not empty |
| MachineReconcilers.MachineReconciler.ReconcileMachineNetwork | pkg/actuators/machine/machine.go:436-481 | addresses are set for a VM that is up or migrating, left alone for one that is down, and any other status is an error; InternalDNS is the machine's name and InternalIP an address the VM reports outside the cluster's ranges, or empty if and only if it reports none; without a fault a VM that is up or migrating fails only on a cluster address that does not parse |
| MachineReconcilers.MachineReconciler.FindUsableInternalAddress | pkg/actuators/machine/machine.go:496-519 | the loops collect the range of each cluster address, failing on one that does not parse, and return the first address of some interface that has one outside these ranges, or an empty one if none has |
| VMAddresses.EmptyExactly | pkg/actuators/machine/machine.go:505-518 | the address found is empty if and only if every address on every included interface lies in a range of the cluster's own; otherwise it is the text of one that does not |
| VMAddresses.TextReadsBack | pkg/actuators/machine/machine.go:515 | the text that is stored for an IPv4 or IPv6 address parses as that address |
| VMAddresses.OctetExactly | pkg/actuators/machine/machine.go:501 | the parts of a dotted address are exactly the texts of the numbers up to 255 |
| VMAddresses.DottedTailReads | pkg/actuators/machine/machine.go:501 | six groups with a dotted tail parse as those groups and that address |
| VMAddresses.MappedReads | pkg/actuators/machine/machine.go:501 | the mapped form of an IPv4 address parses as that address |
| VMAddresses.RangeExactly | pkg/actuators/machine/machine.go:500-504 | an IPv4 cluster address excludes itself, an IPv6 one all addresses that share its first 32 bits |
| VMAddresses.LongestRunExactly | pkg/actuators/machine/machine.go:515 | the zeros that are shortened in an IPv6 text are the first of the longest runs |
| VMAddresses.InterfacesLookedAt | pkg/actuators/machine/machine.go:498-499 | examples: interfaces that the pattern includes, and others that it does not |
| VMAddresses.OnlyTheClusterAddress | pkg/actuators/machine/machine.go:513-518 | example: a VM whose only routable address is the API server's gets an empty one |
| VMAddresses.WholePrefixExcluded | pkg/actuators/machine/machine.go:500-504 | example: with IPv6 cluster addresses a VM with another address of the same 32 bits gets an empty one |
| VMAddresses.UnparsedIsFound | vendor/github.com/ovirt/go-ovirt-client/v2/vm_ip_get.go:55-60 | example: an address with a zone does not parse and is found as a text that is no address |
| VMAddresses.MissingAddressNeverParses | pkg/actuators/machine/machine.go:498-503 | an Infrastructure object without an address always fails the lookup |
| MachineReconcilers.MachineReconciler.ReconcileMachineProviderStatus | pkg/actuators/machine/machine.go:521-534 | fails if and only if the provider status does not unmarshal; otherwise sets id and state |
| MachineReconcilers.MachineReconciler.ReconcileMachine | pkg/actuators/machine/machine.go:391-412 | success means one reading of the VM as up, migrating or down, and exactly its fields assigned; without a fault a failure means a missing VM, a passing state, a cluster address that does not parse, or a provider status that does not unmarshal, none of which goes with success, and once the VM was read the object identifies it |
| MachineReconcilers.MachineReconciler.PatchMachine | pkg/actuators/machine/machine.go:414-434 | success means both patches, each merged into the version then stored, what lies between stored by others, the second on the very version the first left if that is not the base's; with a single writer an up-to-date Machine is not stored again; a failure was paid for by a fault, or the first patch took effect and somebody else stored a version before the second, which changed nothing |
| MachineReconcilers.MachineReconciler.PatchStatus | pkg/actuators/machine/machine.go:426-433 | the second patch, if it depends on the first one's version, takes effect on that version only, and without a fault fails only if others stored one since |
| MachineReconcilers.ChangedFieldsHeld | pkg/actuators/machine/machine.go:414-434 | after success the store holds the reconciled provider id, annotation and status fields where the reconcile changed them, whoever else wrote in between |
| MachineReconcilers.AllChangedFieldsHeld | pkg/actuators/machine/machine.go:414-434 | if the base was a stored version, after success the store holds every field that the reconcile changed, whoever else wrote in between |
| MachineReconcilers.UnchangedFieldsKept | pkg/actuators/machine/machine.go:414-434 | a field that the reconcile did not change keeps the value that each patch met |
| Actuators.OvirtActuator.HandleMachineError | pkg/actuators/machine/actuator.go:163-176 | outside the status the stored document becomes the object as it is, partial reconcile included; the status and so the error are not stored; with one writer and no fault the machine error is returned if and only if the object's version is the stored one |
| Actuators.StaleObjectLosesError | pkg/actuators/machine/actuator.go:163-176 | counterexample: one writer, no fault, and the machine error of a stale object is lost |
| Actuators.ErrorSet | pkg/actuators/machine/actuator.go:166-169 | the object that is sent carries the reason's own text and the message |
| Actuators.SyncedAddresses | pkg/actuators/machine/machine.go:414-481 | whoever else wrote in between, after success the stored Machine has the one InternalDNS and the one InternalIP, unless the object had them already |
| Actuators.OvirtActuator.Create | pkg/actuators/machine/actuator.go:58-91 | whatever fails, nothing is written while the name has a VM; the reason is InvalidConfiguration for an invalid spec, and otherwise only for a lost connection or a failed support check, with nothing written, and CreateError for everything later; a nil result means one reading of the VM and both patches, and that the VM read is the declared one, finished before it was read, or was there before and nothing was written; without a fault of the engine an absent name ends with the declared VM whatever becomes of the Machine; every other result has a stated cause: an invalid spec, a missing secret, template or affinity group, arguments that the client refuses, a panic condition, a fault, or, on the finished VM as it was read, a passing state, a cluster address that does not parse, a provider status that does not unmarshal, or somebody else's version between the two patches |
| Actuators.OvirtActuator.Update | pkg/actuators/machine/actuator.go:95-123 | no engine write; InvalidConfiguration is reported for a spec that does not parse and UpdateError for everything else; a nil result means one reading and both patches, in order; with a single writer and a fresh read the Machine shows that reading, and repeating it stores nothing; an error was paid for by a fault or has a stated cause, and what the reconcile came to assign is stored with it |
| Actuators.OvirtActuator.Delete | pkg/actuators/machine/actuator.go:141-157 | a nil result means no VM of the name; InvalidConfiguration means a lost connection and nothing written, UpdateError a fault of the deletion |
| Actuators.OvirtActuator.DeleteUntilGone | vendor/github.com/openshift/machine-api-operator/pkg/controller/machine/controller.go:253-280 | with at most F faults and lost connections, calling Delete on any copies of the Machine until it succeeds empties the name within F + 1 calls |
| Actuators.OvirtActuator.Exists | pkg/actuators/machine/actuator.go:127-138 | no engine write; a nil error means the answer is right at that moment; InvalidConfiguration means a lost connection |
| Actuators.FinishedStays | pkg/actuators/machine/actuator.go:76-84 | the VM read after a successful create is the one that create finished |
| Actuators.Run | pkg/actuators/machine/actuator.go:58-157 | any sequence of calls on stale copies: at every moment of the run the engine is safe, every version of the Machine is paired and justified; each Update and Exists writes nothing under the name, each Create nothing before a moment at which the name was absent, each Delete only brings VMs closer to removal |
| NodeSystem.AlwaysInv | pkg/controller/nodeController.go:57-98 | every reachable world keeps versions and incarnations in order, provider ids write-once, and what each reconcile learnt true of some moment since it began |
| NodeSystem.DeletionJustified | pkg/controller/nodeController.go:73-94 | a delete removes exactly the Node of the name, only if at some moment of that reconcile no VM had the name, and if the Node is the incarnation that was read its provider id is the oVirt one that was read |
| NodeSystem.OnlyTwoStepsWrite | pkg/controller/nodeController.go:57-98 | no step of a reconcile but the delete and the write of an id changes a Node |
| Prelude.ContainsExactly | pkg/controller/nodeController.go:73 | the test for the prefix finds it at any position |
| NodeSystem.IdWrittenOnlyWhereEmpty | pkg/controller/providerIDController.go:67-83 | the ProviderID controller only moves a provider id from empty to the id of a VM that bore the name during that reconcile |
| NodeSystem.ProviderIDWriteOnce | pkg/controller/providerIDController.go:67-83 | within one incarnation a provider id that is set never changes |
| NodeSystem.AnotherIncarnationDeleted | pkg/controller/nodeController.go:87 | counterexample: a legal run in which the delete hits a new incarnation without a provider id while its VM exists |
| NodeControllers.NodeController.Reconcile | pkg/controller/nodeController.go:57-98 | its steps are legal actions and determine its result; after a missed VM, a successful delete included, that is an error with the default requeue; an error without a fault means that the Node was deleted or was gone already; with an up-to-date cache a stored Node is not passed over |
| NodeControllers.ProviderIDController.Reconcile | pkg/controller/providerIDController.go:51-86 | the same, with no requeue when the Node is gone, has an id, has no VM, or was updated; an error without a fault means that the Node is gone or moved on to another version |
| NodeControllers.OneResult | pkg/controller/nodeController.go:57-98 | the steps of a reconcile determine its result, except that a write may fail after its effect |
| NodeControllers.ProviderIDController.FetchOvirtVmID | pkg/controller/providerIDController.go:89-105 | an id means a VM bears the name now, no id and no error means none does, and an error needs a fault |
| NodeControllers.Cluster.Update | pkg/controller/providerIDController.go:80 | its only possible effect is the action that needs the version that was read; without an error it took effect |
| CredentialEvents.AcceptedExactly | pkg/ovirt/credentials.go:33-46 | an event yields given credentials if and only if it is a secret with these fields whose insecure field is one of twelve words, and its bundle, if any, was written to the CA file |
| CredentialEvents.FieldsTaken | pkg/ovirt/credentials.go:33-46 | each field is the secret's, or empty if the secret has none |
| CredentialEvents.InsecureIsRequired | pkg/ovirt/credentials.go:33-46 | a secret without the insecure field is never accepted |
| CachedClients.CachedOVirtClient.SetCredentials | pkg/ovirt/cachedClient.go:41-62 | the cache holds the new credentials and a new client built from them, or none after a fault |
| CachedClients.CachedOVirtClient.Get | pkg/ovirt/cachedClient.go:64-77 | a cached client that reaches the engine is returned as it is, one that does not is replaced by a new one from the current credentials, and there is none only after a fault or for nil credentials |
| CachedClients.ClientService.FanOut | pkg/ovirt/clientService.go:144-146 | from one set of credentials for all listeners to the new one for all; the loop invariant is that the first ones hold the new and the others the previous credentials |
| CachedClients.ClientService.ProcessCredentialUpdate | pkg/ovirt/clientService.go:120-152 | after any events every listener holds the credentials of the last valid one |
| CachedClients.ClientService.AddListeners | pkg/ovirt/clientService.go:92-97 | the listeners are added in order |
| CredentialSystem.AlwaysInv | pkg/ovirt/cachedClient.go:41-77 | in every interleaving mutexes, agreement of client and credentials, and the split of the listeners are kept |
| CredentialSystem.UnlockedAgrees | pkg/ovirt/cachedClient.go:41-77 | in every unlocked state a client was built from the current credentials |
| CredentialSystem.HoldsLastSet | pkg/ovirt/cachedClient.go:41-48 | the generation in a cache is the one that the last SetCredentials on it assigned, or none |
| CredentialSystem.GetReturnsCurrent | pkg/ovirt/cachedClient.go:64-77 | a successful Get returns a client built from the generation that the last SetCredentials on its cache, in the order of the run, assigned |
| CredentialSystem.ReadyIsVetted | pkg/ovirt/cachedClient.go:64-77 | in every interleaving a client about to be returned passed its test in this Get, or was built in it, and has not been replaced since |
| CredentialSystem.HandledReachesAll | pkg/ovirt/clientService.go:144-146 | after a fully handled event all listeners hold the credentials of the last valid event |
| CredentialSystem.TwoGenerations | pkg/ovirt/clientService.go:144-146 | at most two adjacent generations coexist, the newer ones first |
| CredentialSystem.NeverBack | pkg/ovirt/clientService.go:144-146 | a listener never goes back to older credentials |
| CredentialSystem.SetCredentialsInOneGo | pkg/ovirt/cachedClient.go:41-48 | the four steps of the service on one listener, uninterrupted, are one call of SetCredentials |
| CredentialSystem.NeverStuck | pkg/ovirt/cachedClient.go:41-77 | no deadlock: in every interleaving a thread in Get can go on, and so can the service within an event unless such a thread holds the mutex it needs |
| DeepCopies.CopyInterfaces | pkg/apis/ovirtprovider/v1beta1/zz_generated.deepcopy.go:148-158 | the loop copies a slice of pointers, nil entries included, into new objects |
| DeepCopies.OvirtMachineProviderSpec.DeepCopyInto | pkg/apis/ovirtprovider/v1beta1/zz_generated.deepcopy.go:124-174 | the copy equals the source field by field and refers only to new memory |
| DeepCopies.OvirtMachineProviderSpec.DeepCopy | pkg/apis/ovirtprovider/v1beta1/zz_generated.deepcopy.go:177-184 | the same for a new object |
| DeepCopies.WritesStayApart | pkg/apis/ovirtprovider/v1beta1/zz_generated.deepcopy.go:124-184 | writes confined to one spec and its parts leave the value of a spec it shares nothing with unchanged |
| DeepCopies.EqualNames | pkg/apis/ovirtprovider/v1beta1/zz_generated.deepcopy.go:124-184 | equal values mean the same nil pointers and the same values behind the others: metadata and secrets |
| DeepCopies.EqualSizes | pkg/apis/ovirtprovider/v1beta1/zz_generated.deepcopy.go:124-184 | the same for CPU, disk and the two booleans |
| DeepCopies.EqualSlices | pkg/apis/ovirtprovider/v1beta1/zz_generated.deepcopy.go:124-184 | the same for both slices, entry by entry |

## Left out

- Network, TLS, files, and the parsing of YAML and JSON text: library calls; parsing a provider spec is an input that says whether it succeeded.
- Internals of go-ovirt-client, controller-runtime and client-go, retries and timeouts included: they appear as contracts.
- Manager wiring, flags, leader election, logging and recorded events: no property lives there.
- Time: requeue intervals are values, Shutdown's timeout and informer resync do not appear.
- Deep copies of the other provider types and of nil receivers: they add nothing to the one that has pointers and slices.
- VM ids are numbers, rendered in decimal, instead of UUIDs; only their identity matters.
- Infrastructure objects with missing platform status, on which the address lookup would panic.
- Engines.Engine.Interfere: its body is empty; only its contract, which allows everything the others may do, is used.
- MachineReconcilers.MachineReconciler.ReconcileMachineProviderStatus: the typed fields of the metadata inside a provider status are not parsed; its members are kept as they are, apart from the creation timestamp.
- MachineReconcilers.MachineReconciler.ReconcileMachine: the same, so a metadata field of a wrong type is not among its failures.
- DeepCopies.OvirtMachineProviderSpec.DeepCopyInto: copies are made by kind of pointer before they are assigned, rather than one nil test after the other; the fields that are not pointers form one value.
