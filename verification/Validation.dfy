/** validateMachine, and what create may rely on once a spec passed it. */
module Validations {
  import opened Prelude
  import opened ProviderSpecs
  import opened Templates
  import opened VMParams
  import opened Plan

  datatype ValidationError =
    | NoUserDataSecret
    | NoUserDataSecretName
    | InstanceTypeWithSize
    | NoMemory
    | NoCPU
    | NoOSDisk
    | NoOSDiskSize
    | BadVMType
    | SupportUnknown
    | BadHugepages
    | GuaranteedAboveMemory

  // What the engine answers when asked whether it supports autopinning.
  datatype Support = Supported | Unsupported | CheckFailed

  function ValidateInstanceID(spec: ProviderSpec): Option<ValidationError> {
    if spec.instanceTypeId != "" then
      if spec.memoryMB != 0 || spec.cpu.Some? then Some(InstanceTypeWithSize) else None
    else if spec.memoryMB == 0 then Some(NoMemory)
    else if spec.cpu.None? then Some(NoCPU)
    else None
  }

  function ValidateVMType(t: string): Option<ValidationError> {
    if t == "server" || t == "high_performance" || t == "desktop" then None else Some(BadVMType)
  }

  function ValidateHugepages(h: int32): Option<ValidationError> {
    if h == 0 || h == 2048 || h == 1048576 then None else Some(BadHugepages)
  }

  function ValidateGuaranteedMemory(spec: ProviderSpec): Option<ValidationError> {
    if spec.guaranteedMemoryMB > spec.memoryMB then Some(GuaranteedAboveMemory) else None
  }

  // The first error in the order of the checks. When autopinning is not
  // supported the error that is wrapped is the nil one of the support check, so
  // the spec is accepted there and then.
  function ValidateMachine(spec: ProviderSpec, support: Support): Option<ValidationError> {
    if spec.userDataSecret.None? then Some(NoUserDataSecret)
    else if spec.userDataSecret.value.name == "" then Some(NoUserDataSecretName)
    else if ValidateInstanceID(spec).Some? then ValidateInstanceID(spec)
    else if spec.osDisk.None? then Some(NoOSDisk)
    else if spec.osDisk.value.sizeGB == 0 then Some(NoOSDiskSize)
    else if ValidateVMType(spec.vmType).Some? then ValidateVMType(spec.vmType)
    else if spec.autoPinningPolicy != "" && support == CheckFailed then Some(SupportUnknown)
    else if spec.autoPinningPolicy != "" && support == Unsupported then Wrap(None)
    else if ValidateHugepages(spec.hugepages).Some? then Wrap(ValidateHugepages(spec.hugepages))
    else Wrap(ValidateGuaranteedMemory(spec))
  }

  /* ---- The specs that pass ---- */

  // The checks that come before the one for autopinning.
  predicate BasicsOk(spec: ProviderSpec) {
    && spec.userDataSecret.Some? && spec.userDataSecret.value.name != ""
    && (spec.instanceTypeId == "" <==> spec.cpu.Some?)
    && (spec.instanceTypeId == "" <==> spec.memoryMB != 0)
    && spec.osDisk.Some? && spec.osDisk.value.sizeGB != 0
    && ValidVMType(spec.vmType)
  }

  // And those that come after it.
  predicate MemoryOk(spec: ProviderSpec) {
    && (spec.hugepages == 0 || ValidHugePages(spec.hugepages))
    && spec.guaranteedMemoryMB <= spec.memoryMB
  }

  predicate NamesPolicy(spec: ProviderSpec) {
    spec.autoPinningPolicy != ""
  }

  // Any autopinning policy, "none" included, asks the engine; an answer of
  // "not supported" accepts the spec without looking at its memory settings.
  lemma ValidationExact(spec: ProviderSpec, support: Support)
    ensures ValidateMachine(spec, support).None? <==>
            && BasicsOk(spec)
            && (NamesPolicy(spec) ==> support != CheckFailed)
            && (MemoryOk(spec) || (NamesPolicy(spec) && support == Unsupported))
  {
  }

  // Whatever error is reported, the spec has it, and none of those before it.
  lemma ErrorIsRight(spec: ProviderSpec, support: Support)
    ensures var err := ValidateMachine(spec, support);
            var sized := spec.instanceTypeId == "";
            && (err == Some(NoUserDataSecret) <==> spec.userDataSecret.None?)
            && (err == Some(NoUserDataSecretName) <==> spec.userDataSecret == Some(LocalObjectReference("")))
            && (err == Some(InstanceTypeWithSize) ==> !sized && (spec.memoryMB != 0 || spec.cpu.Some?))
            && (err == Some(NoMemory) ==> sized && spec.memoryMB == 0)
            && (err == Some(NoCPU) ==> sized && spec.memoryMB != 0 && spec.cpu.None?)
            && (err == Some(NoOSDisk) ==> spec.osDisk.None?)
            && (err == Some(NoOSDiskSize) ==> spec.osDisk == Some(Disk(0)))
            && (err == Some(BadVMType) ==> spec.vmType !in {"server", "high_performance", "desktop"})
            && (err == Some(SupportUnknown) ==> spec.autoPinningPolicy != "" && support == CheckFailed)
            && (err == Some(BadHugepages) ==> spec.hugepages !in {0, 2048, 1048576})
            && (err == Some(GuaranteedAboveMemory) ==> spec.guaranteedMemoryMB > spec.memoryMB)
            && (err in {Some(SupportUnknown), Some(BadHugepages), Some(GuaranteedAboveMemory)} ==> BasicsOk(spec))
            && (err == Some(GuaranteedAboveMemory) ==> spec.hugepages in {0, 2048, 1048576})
  {
  }

  /* ---- What create may rely on ---- */

  // On a spec that passed, create dereferences the OS disk safely; it panics in
  // exactly these remaining cases, of which the huge pages need an engine
  // without autopinning.
  lemma ValidatedPanicsExactly(spec: ProviderSpec, support: Support, t: Template)
    requires ValidateMachine(spec, support).None?
    ensures spec.osDisk.Some?
    ensures CreatePanics(spec, t) <==>
            || (spec.instanceTypeId == "" &&
                0 in {spec.cpu.value.cores, spec.cpu.value.sockets, spec.cpu.value.threads})
            || (spec.hugepages > 0 && !ValidHugePages(spec.hugepages) && NamesPolicy(spec) && support == Unsupported)
            || (spec.format !in {"", "cow", "raw"} && t.disks != [])
            || (spec.storageDomainId != "" && t.disks == [])
            || (LastBootable(t.disks).Some? && !AllPresent(spec.Interfaces()))
  {
  }

  // The engine is sent an instance type or a size, never both and never neither:
  // a size consists of the topology, unless the VM is high performance, and of
  // the memory, unless it is negative.
  lemma ValidatedSizedOneWay(spec: ProviderSpec, support: Support, ignition: string, name: string,
                             hosts: seq<Host>, disks: seq<DiskAttachment>)
    requires ValidateMachine(spec, support).None?
    ensures var p := ExpectedParams(spec, ignition, name, hosts, disks);
            var topology := p.cpu.Some? && p.cpu.value.topology.Some?;
            && (p.instanceTypeID.Some? ==> !topology && p.memory.None?)
            && (p.instanceTypeID.None? ==> (topology <==> spec.vmType != "high_performance"))
            && (p.instanceTypeID.None? ==> (p.memory.Some? <==> spec.memoryMB > 0))
  {
  }

  function GuaranteedSent(p: ParamValues): Option<int64> {
    if p.memoryPolicy.Some? then p.memoryPolicy.value.guaranteed else None
  }

  // Byte counts are exact, below 2^51, and guaranteed memory comes with memory
  // that covers it, unless the memory settings were never looked at.
  lemma ValidatedBytes(spec: ProviderSpec, support: Support, ignition: string, name: string,
                       hosts: seq<Host>, disks: seq<DiskAttachment>)
    requires ValidateMachine(spec, support).None?
    ensures var p := ExpectedParams(spec, ignition, name, hosts, disks);
            var g := GuaranteedSent(p);
            && (p.memory.Some? ==> 0 < p.memory.value == 0x10_0000 * spec.memoryMB < 0x8_0000_0000_0000)
            && (g.Some? ==> 0 < g.value == 0x10_0000 * spec.guaranteedMemoryMB < 0x8_0000_0000_0000)
            && (g.Some? ==> ((p.memory.Some? && g.value <= p.memory.value) <==>
                             spec.guaranteedMemoryMB <= spec.memoryMB))
    ensures (NamesPolicy(spec) && support == Unsupported) || spec.guaranteedMemoryMB <= spec.memoryMB
  {
    ValidationExact(spec, support);
  }

  // Of the specs that passed, the client refuses those without a cluster and those
  // whose guaranteed memory was never looked at and exceeds the memory.
  lemma ValidatedRefusedExactly(spec: ProviderSpec, support: Support, t: Template, name: string)
    requires ValidateMachine(spec, support).None?
    ensures CreateRefused(spec, t, name) <==>
            || name == "" || spec.clusterId == "" || t.id == ""
            || (NamesPolicy(spec) && support == Unsupported && spec.instanceTypeId == "" &&
                spec.vmType != "high_performance" &&
                spec.guaranteedMemoryMB > (if spec.memoryMB > 0 then spec.memoryMB else 1024))
  {
  }

  /* ---- Specs that pass although create cannot carry them through ---- */

  function ExampleSpec(policy: string, hugepages: int32): ProviderSpec {
    ProviderSpec("", None, Some(LocalObjectReference("worker-user-data")), None, "", "", "rhcos", "cluster", "",
                 Some(CPU(2, 4, 1)), 16384, Some(Disk(120)), "server", None, None, policy, hugepages, 0,
                 None, None, "", "")
  }

  function ExampleOrigin(spec: ProviderSpec, bootable: bool): Origin {
    Origin(spec, "tag", "worker-0", "", [], Template("t", [DiskAttachment("d", bootable, 0)], [], []))
  }

  // With autopinning not supported, an invalid huge page size passes, and create
  // panics on it.
  lemma UnsupportedPolicySkipsHugepages()
    ensures ValidateMachine(ExampleSpec("resize_and_pin", 3), Unsupported).None?
    ensures ValidateMachine(ExampleSpec("resize_and_pin", 3), Supported) == Some(BadHugepages)
    ensures SpecPanics(ExampleSpec("resize_and_pin", 3))
  {
  }

  // With autopinning not supported, 32 GiB guaranteed of 16 GiB pass, create does
  // not panic on them, and the client refuses them every time.
  lemma UnsupportedPolicySkipsGuaranteed()
    ensures var o := ExampleOrigin(ExampleSpec("resize_and_pin", 0).(guaranteedMemoryMB := 32768), true);
            && ValidateMachine(o.spec, Unsupported).None? && ValidateMachine(o.spec, Supported).Some?
            && !CreatePanics(o.spec, o.template) && Complete(o)
            && CreateRefused(o.spec, o.template, o.machineName)
  {
    var o := ExampleOrigin(ExampleSpec("resize_and_pin", 0), true);
    assert LastBootable(o.template.disks) == Some(0);
  }

  // So does a spec without a cluster, whatever the engine supports.
  lemma MissingClusterPasses(support: Support)
    ensures var spec := ExampleSpec("", 0).(clusterId := "");
            ValidateMachine(spec, support).None? && forall t, name :: CreateRefused(spec, t, name)
  {
  }

  // The 8 GiB guaranteed to a high performance VM do not reach the engine, and
  // neither does its topology.
  lemma HighPerformanceLosesSettings()
    ensures var spec := ExampleSpec("", 0).(vmType := "high_performance", guaranteedMemoryMB := 8192);
            var p := ExpectedParams(spec, "", "worker-0", [], []);
            && ValidateMachine(spec, Supported).None?
            && GuaranteedSent(p).None? && p.cpu.Some? && p.cpu.value.topology.None?
  {
  }

  // The two sockets and one thread of the spec reach the engine as one socket
  // and two threads.
  lemma SocketsAndThreadsSwapped()
    ensures var spec := ExampleSpec("", 0);
            var p := ExpectedParams(spec, "", "worker-0", [], []);
            ValidateMachine(spec, Supported).None? && p.cpu.value.topology == Some(Topology(4, 2, 1))
  {
  }

  // A spec that passes, on a template without a bootable disk: create writes
  // nothing after the instance exists and does not start it.
  lemma NoBootableDiskNoStart()
    ensures var o := ExampleOrigin(ExampleSpec("", 0), false);
            ValidateMachine(o.spec, Supported).None? && Commands(o) == [] && !Exec(Instance(o), Commands(o)).started
  {
  }
}
