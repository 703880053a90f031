/** create seen as a compiler: the engine writes that turn a fresh instance into
    the VM its provider spec asks for. */
module Plan {
  import opened Prelude
  import opened ProviderSpecs
  import opened Templates
  import opened VMParams
  import opened Decimal

  // One write on an existing VM.
  datatype Command =
    | RemoveConsole(console: nat)
    | ExtendDisk(diskID: string, size: uint64)
    | RemoveNic(nic: nat)
    | CreateNic(name: string, profile: string)
    | AutoPin
    | AddTag(tag: string)
    | AddToGroup(group: string)
    | Start

  // What a VM consists of, apart from its run status.
  datatype Config = Config(
    cluster: string,
    template: string,
    params: ParamValues,
    disks: seq<DiskAttachment>,
    nics: seq<Nic>,
    nextNic: nat,
    consoles: seq<nat>,
    tags: seq<string>,
    groups: seq<string>,
    pinned: bool,
    started: bool
  )

  // Everything create looked at when it asked for the VM.
  datatype Origin = Origin(
    spec: ProviderSpec,
    clusterTag: string,
    machineName: string,
    ignition: string,
    hosts: seq<Host>,
    template: Template
  )

  function NextNic(nics: seq<Nic>): nat {
    if nics == [] then 0
    else var rest := NextNic(nics[1..]); if nics[0].id >= rest then nics[0].id + 1 else rest
  }

  // The instance CreateVM produces: the template's devices under the parameters sent.
  function Instance(o: Origin): Config {
    Config(
      cluster := o.spec.clusterId,
      template := o.template.id,
      params := ExpectedParams(o.spec, o.ignition, o.machineName, o.hosts, o.template.disks),
      disks := o.template.disks,
      nics := o.template.nics,
      nextNic := NextNic(o.template.nics),
      consoles := o.template.consoles,
      tags := [],
      groups := [],
      pinned := false,
      started := false)
  }

  function DropNic(nics: seq<Nic>, id: nat): seq<Nic> {
    if nics == [] then [] else if nics[0].id == id then nics[1..] else [nics[0]] + DropNic(nics[1..], id)
  }

  function DropConsole(consoles: seq<nat>, id: nat): seq<nat> {
    if consoles == [] then []
    else if consoles[0] == id then consoles[1..]
    else [consoles[0]] + DropConsole(consoles[1..], id)
  }

  function Resize(disks: seq<DiskAttachment>, id: string, size: nat): seq<DiskAttachment> {
    seq(|disks|, i requires 0 <= i < |disks| =>
      if disks[i].diskID == id then disks[i].(provisionedSize := size) else disks[i])
  }

  // The effect of one write.
  function Apply(c: Config, cmd: Command): Config {
    match cmd
    case RemoveConsole(id) => c.(consoles := DropConsole(c.consoles, id))
    case ExtendDisk(id, size) => c.(disks := Resize(c.disks, id, size))
    case RemoveNic(id) => c.(nics := DropNic(c.nics, id))
    case CreateNic(n, p) => c.(nics := c.nics + [Nic(c.nextNic, n, p)], nextNic := c.nextNic + 1)
    case AutoPin => c.(pinned := true)
    case AddTag(t) => c.(tags := c.tags + [t])
    case AddToGroup(g) => c.(groups := c.groups + [g])
    case Start => c.(started := true)
  }

  function Exec(c: Config, cmds: seq<Command>): Config
    decreases |cmds|
  {
    if cmds == [] then c else Exec(Apply(c, cmds[0]), cmds[1..])
  }

  /* ---- The compiled command list ---- */

  // newDiskSize: a wrapping int64 product, converted to uint64.
  function RequestedSize(sizeGB: int64): uint64 {
    ToUint64(MulInt64(sizeGB, 0x4000_0000))
  }

  // The index of the last bootable attachment.
  function LastBootable(disks: seq<DiskAttachment>): (r: Option<nat>)
    ensures r.Some? ==> r.value < |disks| && disks[r.value].bootable
    ensures r.Some? ==> forall j :: r.value < j < |disks| ==> !disks[j].bootable
    ensures r.None? ==> forall j :: 0 <= j < |disks| ==> !disks[j].bootable
  {
    if disks == [] then None
    else if disks[|disks| - 1].bootable then Some(|disks| - 1)
    else LastBootable(disks[..|disks| - 1])
  }

  function ConsoleCommands(consoles: seq<nat>): seq<Command> {
    if consoles == [] then [] else [RemoveConsole(consoles[0])] + ConsoleCommands(consoles[1..])
  }

  function DiskCommands(d: DiskAttachment, request: uint64): seq<Command> {
    if request > d.provisionedSize then [ExtendDisk(d.diskID, request)] else []
  }

  function RemoveNics(nics: seq<Nic>): seq<Command> {
    if nics == [] then [] else [RemoveNic(nics[0].id)] + RemoveNics(nics[1..])
  }

  function NicName(i: nat): string {
    "nic" + Render(i)
  }

  // The interfaces from index i on, up to the first nil one.
  function CreateNics(interfaces: seq<Option<NetworkInterface>>, i: nat): seq<Command>
    requires i <= |interfaces|
    decreases |interfaces| - i
  {
    if i == |interfaces| || interfaces[i].None? then []
    else [CreateNic(NicName(i + 1), interfaces[i].value.vnicProfileID)] + CreateNics(interfaces, i + 1)
  }

  predicate AllPresent(interfaces: seq<Option<NetworkInterface>>) {
    forall i :: 0 <= i < |interfaces| ==> interfaces[i].Some?
  }

  function GroupCommands(groups: seq<string>): seq<Command> {
    if groups == [] then [] else [AddToGroup(groups[0])] + GroupCommands(groups[1..])
  }

  function FinalCommands(groups: seq<string>): seq<Command> {
    GroupCommands(groups) + [Start]
  }

  function TagCommands(o: Origin): seq<Command> {
    [AddTag(o.clusterTag)] + FinalCommands(o.spec.AffinityGroups())
  }

  function PinCommands(o: Origin): seq<Command> {
    (if o.spec.AutoPinning() then [AutoPin] else []) + TagCommands(o)
  }

  // What follows the creation of the interfaces: nothing when a nil interface
  // stopped the run.
  function AfterNics(o: Origin): seq<Command> {
    if AllPresent(o.spec.Interfaces()) then PinCommands(o) else []
  }

  function NicCommands(o: Origin): seq<Command> {
    if o.spec.Interfaces() == [] then []
    else RemoveNics(o.template.nics) + CreateNics(o.spec.Interfaces(), 0)
  }

  // Nothing follows the consoles when the OS disk is missing from the spec or
  // no attachment is bootable.
  function AfterConsoles(o: Origin): seq<Command> {
    if o.spec.osDisk.None? || LastBootable(o.template.disks).None? then []
    else DiskCommands(o.template.disks[LastBootable(o.template.disks).value], RequestedSize(o.spec.osDisk.value.sizeGB))
         + NicCommands(o) + AfterNics(o)
  }

  function Commands(o: Origin): seq<Command> {
    (if o.spec.HighPerformance() then ConsoleCommands(o.template.consoles) else []) + AfterConsoles(o)
  }

  /* ---- The VM the spec declares ---- */

  function ExpectedDisksOf(disks: seq<DiskAttachment>, request: nat): seq<DiskAttachment> {
    var last := LastBootable(disks);
    if last.None? then disks
    else disks[last.value := disks[last.value].(provisionedSize := Max(disks[last.value].provisionedSize, request))]
  }

  function Max(a: nat, b: nat): nat {
    if a < b then b else a
  }

  function ExpectedNics(o: Origin): seq<Nic>
    requires AllPresent(o.spec.Interfaces())
  {
    var wanted := o.spec.Interfaces();
    if wanted == [] then o.template.nics
    else seq(|wanted|, i requires 0 <= i < |wanted| =>
           Nic(NextNic(o.template.nics) + i, NicName(i + 1), wanted[i].value.vnicProfileID))
  }

  // The specs that create can carry through on a given template.
  predicate Complete(o: Origin) {
    && o.spec.osDisk.Some?
    && LastBootable(o.template.disks).Some?
    && AllPresent(o.spec.Interfaces())
  }

  // Once the instance exists, create panics on exactly these: the OS disk is
  // missing, or a run that finds a bootable disk meets a nil interface.
  predicate MissesDevices(spec: ProviderSpec, template: Template) {
    spec.osDisk.None? || (LastBootable(template.disks).Some? && !AllPresent(spec.Interfaces()))
  }

  predicate CreatePanics(spec: ProviderSpec, template: Template) {
    SpecPanics(spec) || DisksPanic(spec, template.disks) || MissesDevices(spec, template)
  }

  // What the client refuses before it sends anything: an empty name, cluster or
  // template, and guaranteed memory above the memory, which is 1 GiB if none is given.
  predicate Refused(name: string, clusterID: string, templateID: string, p: ParamValues) {
    name == "" || clusterID == "" || templateID == "" || GuaranteedOf(p) > MemoryOf(p)
  }

  function MemoryOf(p: ParamValues): int64 {
    if p.memory.Some? then p.memory.value else 0x4000_0000
  }

  function GuaranteedOf(p: ParamValues): int64 {
    if p.memoryPolicy.Some? && p.memoryPolicy.value.guaranteed.Some? then p.memoryPolicy.value.guaranteed.value
    else MemoryOf(p)
  }

  // The same, said of the spec and the template.
  predicate CreateRefused(spec: ProviderSpec, template: Template, name: string) {
    name == "" || spec.clusterId == "" || template.id == "" || OverGuaranteed(spec)
  }

  predicate OverGuaranteed(spec: ProviderSpec) {
    && spec.instanceTypeId == "" && !spec.HighPerformance()
    && spec.guaranteedMemoryMB > (if spec.memoryMB > 0 then spec.memoryMB else 1024)
  }

  // The affinity groups that create looks up.
  predicate GroupsKnown(spec: ProviderSpec, known: set<(string, string)>) {
    forall g :: g in spec.AffinityGroups() ==> (spec.clusterId, g) in known
  }

  function ExpectedVM(o: Origin): Config
    requires Complete(o)
  {
    Config(
      cluster := o.spec.clusterId,
      template := o.template.id,
      params := ExpectedParams(o.spec, o.ignition, o.machineName, o.hosts, o.template.disks),
      disks := ExpectedDisksOf(o.template.disks, RequestedSize(o.spec.osDisk.value.sizeGB)),
      nics := ExpectedNics(o),
      nextNic := NextNic(o.template.nics) + |o.spec.Interfaces()|,
      consoles := if o.spec.HighPerformance() then [] else o.template.consoles,
      tags := [o.clusterTag],
      groups := o.spec.AffinityGroups(),
      pinned := o.spec.AutoPinning(),
      started := true)
  }
}

/** What running the compiled commands, wholly or partly, does to a VM. */
module PlanProofs {
  import opened Prelude
  import opened ProviderSpecs
  import opened Templates
  import opened VMParams
  import opened Decimal
  import opened Plan

  lemma {:induction false} ExecConcat(c: Config, a: seq<Command>, b: seq<Command>)
    ensures Exec(c, a + b) == Exec(Exec(c, a), b)
    decreases |a|
  {
    if a == [] {
      assert a + b == b;
    } else {
      assert (a + b)[1..] == a[1..] + b;
      ExecConcat(Apply(c, a[0]), a[1..], b);
    }
  }

  lemma {:induction false} ExecConsoles(c: Config)
    ensures Exec(c, ConsoleCommands(c.consoles)) == c.(consoles := [])
    decreases |c.consoles|
  {
    if c.consoles != [] {
      var cmds := ConsoleCommands(c.consoles);
      assert cmds[1..] == ConsoleCommands(c.consoles[1..]);
      ExecConsoles(c.(consoles := c.consoles[1..]));
    }
  }

  lemma {:induction false} ExecRemoveNics(c: Config)
    ensures Exec(c, RemoveNics(c.nics)) == c.(nics := [])
    decreases |c.nics|
  {
    if c.nics != [] {
      var cmds := RemoveNics(c.nics);
      assert cmds[1..] == RemoveNics(c.nics[1..]);
      ExecRemoveNics(c.(nics := c.nics[1..]));
    }
  }

  function NicsFrom(interfaces: seq<Option<NetworkInterface>>, i: nat, next: nat): seq<Nic>
    requires i <= |interfaces| && AllPresent(interfaces)
  {
    seq(|interfaces| - i, j requires 0 <= j < |interfaces| - i =>
      Nic(next + j, NicName(i + j + 1), interfaces[i + j].value.vnicProfileID))
  }

  lemma {:induction false} ExecCreateNics(c: Config, interfaces: seq<Option<NetworkInterface>>, i: nat)
    requires i <= |interfaces| && AllPresent(interfaces)
    ensures Exec(c, CreateNics(interfaces, i)) ==
            c.(nics := c.nics + NicsFrom(interfaces, i, c.nextNic), nextNic := c.nextNic + |interfaces| - i)
    decreases |interfaces| - i
  {
    if i < |interfaces| {
      var cmds := CreateNics(interfaces, i);
      assert cmds[1..] == CreateNics(interfaces, i + 1);
      var c' := Apply(c, cmds[0]);
      ExecCreateNics(c', interfaces, i + 1);
      assert c'.nics + NicsFrom(interfaces, i + 1, c'.nextNic) == c.nics + NicsFrom(interfaces, i, c.nextNic);
    } else {
      assert c.nics + NicsFrom(interfaces, i, c.nextNic) == c.nics;
    }
  }

  lemma {:induction false} ExecGroups(c: Config, groups: seq<string>)
    ensures Exec(c, GroupCommands(groups)) == c.(groups := c.groups + groups)
    decreases |groups|
  {
    if groups != [] {
      var cmds := GroupCommands(groups);
      assert cmds[1..] == GroupCommands(groups[1..]);
      ExecGroups(c.(groups := c.groups + [groups[0]]), groups[1..]);
      assert c.groups + [groups[0]] + groups[1..] == c.groups + groups;
    } else {
      assert c.groups + groups == c.groups;
    }
  }

  lemma ExecOne(c: Config, cmd: Command)
    ensures Exec(c, [cmd]) == Apply(c, cmd)
  {
  }

  lemma ResizeLast(disks: seq<DiskAttachment>, request: uint64)
    requires DistinctDisks(disks) && LastBootable(disks).Some?
    ensures var last := disks[LastBootable(disks).value];
            request > last.provisionedSize ==> Resize(disks, last.diskID, request) == ExpectedDisksOf(disks, request)
    ensures request <= disks[LastBootable(disks).value].provisionedSize ==> ExpectedDisksOf(disks, request) == disks
  {
  }

  lemma ExecDisk(c: Config, request: uint64)
    requires DistinctDisks(c.disks) && LastBootable(c.disks).Some?
    ensures Exec(c, DiskCommands(c.disks[LastBootable(c.disks).value], request))
            == c.(disks := ExpectedDisksOf(c.disks, request))
  {
    var last := c.disks[LastBootable(c.disks).value];
    ResizeLast(c.disks, request);
    if request > last.provisionedSize { ExecOne(c, ExtendDisk(last.diskID, request)); }
  }

  lemma ExecNics(c: Config, o: Origin)
    requires c.nics == o.template.nics && c.nextNic == NextNic(o.template.nics)
    requires AllPresent(o.spec.Interfaces())
    ensures Exec(c, NicCommands(o)) ==
            c.(nics := ExpectedNics(o), nextNic := c.nextNic + |o.spec.Interfaces()|)
  {
    hide NextNic, Render;
    var wanted := o.spec.Interfaces();
    if wanted != [] {
      ExecConcat(c, RemoveNics(c.nics), CreateNics(wanted, 0));
      ExecRemoveNics(c);
      ExecCreateNics(c.(nics := []), wanted, 0);
      assert [] + NicsFrom(wanted, 0, c.nextNic) == ExpectedNics(o);
    }
  }

  lemma ExecPin(c: Config, o: Origin)
    ensures Exec(c, PinCommands(o)) ==
            c.(pinned := c.pinned || o.spec.AutoPinning(), tags := c.tags + [o.clusterTag],
               groups := c.groups + o.spec.AffinityGroups(), started := true)
  {
    var pin: seq<Command> := if o.spec.AutoPinning() then [AutoPin] else [];
    var groups := o.spec.AffinityGroups();
    ExecConcat(c, pin, TagCommands(o));
    if o.spec.AutoPinning() { ExecOne(c, AutoPin); }
    var c1 := Exec(c, pin);
    ExecConcat(c1, [AddTag(o.clusterTag)], FinalCommands(groups));
    ExecOne(c1, AddTag(o.clusterTag));
    var c2 := Apply(c1, AddTag(o.clusterTag));
    ExecConcat(c2, GroupCommands(groups), [Start]);
    ExecGroups(c2, groups);
    ExecOne(Exec(c2, GroupCommands(groups)), Start);
  }

  lemma ExecThree(c: Config, a: seq<Command>, b: seq<Command>, d: seq<Command>)
    ensures Exec(c, a + b + d) == Exec(Exec(Exec(c, a), b), d)
  {
    ExecConcat(c, a + b, d);
    ExecConcat(c, a, b);
  }

  lemma ExecAfterConsoles(c: Config, o: Origin)
    requires DistinctDisks(o.template.disks) && Complete(o)
    requires c.disks == o.template.disks && c.nics == o.template.nics && c.nextNic == NextNic(o.template.nics)
    ensures Exec(c, AfterConsoles(o)) ==
            c.(disks := ExpectedDisksOf(o.template.disks, RequestedSize(o.spec.osDisk.value.sizeGB)),
               nics := ExpectedNics(o), nextNic := c.nextNic + |o.spec.Interfaces()|,
               pinned := c.pinned || o.spec.AutoPinning(), tags := c.tags + [o.clusterTag],
               groups := c.groups + o.spec.AffinityGroups(), started := true)
  {
    var request := RequestedSize(o.spec.osDisk.value.sizeGB);
    var disk := DiskCommands(c.disks[LastBootable(c.disks).value], request);
    ExecThree(c, disk, NicCommands(o), PinCommands(o));
    ExecDisk(c, request);
    var c2 := Exec(c, disk);
    ExecNics(c2, o);
    ExecPin(Exec(c2, NicCommands(o)), o);
  }

  lemma ExecNext(c: Config, cmds: seq<Command>, k: nat)
    requires k < |cmds|
    ensures Exec(c, cmds[..k + 1]) == Apply(Exec(c, cmds[..k]), cmds[k])
  {
    assert cmds[..k + 1] == cmds[..k] + [cmds[k]];
    ExecConcat(c, cmds[..k], [cmds[k]]);
    ExecOne(Exec(c, cmds[..k]), cmds[k]);
  }

  // Executing the whole command list on the fresh instance yields exactly the
  // VM the spec declares.
  lemma CompilerCorrect(o: Origin)
    requires WellFormed(o.template) && Complete(o)
    ensures Exec(Instance(o), Commands(o)) == ExpectedVM(o)
  {
    hide ExpectedParams, AfterConsoles, ExpectedDisksOf, ExpectedNics, RequestedSize;
    var c := Instance(o);
    if o.spec.HighPerformance() {
      ExecConcat(c, ConsoleCommands(c.consoles), AfterConsoles(o));
      ExecConsoles(c);
      ExecAfterConsoles(c.(consoles := []), o);
    } else {
      assert Commands(o) == AfterConsoles(o);
      ExecAfterConsoles(c, o);
    }
  }

  /* ---- The finished VM, in terms of the spec's own fields ---- */

  lemma PinnedExactly(o: Origin)
    requires WellFormed(o.template) && Complete(o)
    ensures Exec(Instance(o), Commands(o)).pinned <==> o.spec.autoPinningPolicy !in {"", "none"}
  {
    CompilerCorrect(o);
  }

  // The engine hands out interface ids that are not in use.
  lemma {:induction false} NextNicAbove(nics: seq<Nic>)
    ensures forall i :: 0 <= i < |nics| ==> nics[i].id < NextNic(nics)
  {
    if nics != [] { NextNicAbove(nics[1..]); }
  }

  // One interface for each of the spec, in order, under new ids; without any in the
  // spec those of the template stay.
  lemma InterfacesExactly(o: Origin)
    requires WellFormed(o.template) && Complete(o)
    ensures var nics := Exec(Instance(o), Commands(o)).nics;
            var wanted := o.spec.networkInterfaces;
            if wanted == None || wanted == Some([]) then nics == o.template.nics
            else
              && |nics| == |wanted.value|
              && (forall i :: 0 <= i < |nics| ==>
                    && nics[i].name == "nic" + Render(i + 1)
                    && wanted.value[i] == Some(NetworkInterface(nics[i].profile))
                    && forall nic :: nic in o.template.nics ==> nic.id < nics[i].id)
              && DistinctNics(nics)
  {
    hide ExpectedParams, Exec, Commands, NextNic, Render;
    CompilerCorrect(o);
    NextNicAbove(o.template.nics);
  }

  // Consoles, tags and affinity groups.
  lemma AttachmentsExactly(o: Origin)
    requires WellFormed(o.template) && Complete(o)
    ensures var vm := Exec(Instance(o), Commands(o));
            && vm.consoles == (if o.spec.vmType == "high_performance" then [] else o.template.consoles)
            && vm.tags == [o.clusterTag]
            && (o.spec.affinityGroupsNames.None? ==> vm.groups == [])
            && (o.spec.affinityGroupsNames.Some? ==> vm.groups == o.spec.affinityGroupsNames.value)
            && vm.cluster == o.spec.clusterId && vm.template == o.template.id
  {
    CompilerCorrect(o);
  }

  /* ---- Every intermediate point ---- */

  // The commands of one kind.
  function Only(p: Command -> bool, cmds: seq<Command>): seq<Command> {
    if cmds == [] then [] else (if p(cmds[0]) then [cmds[0]] else []) + Only(p, cmds[1..])
  }

  lemma {:induction false} OnlyConcat(p: Command -> bool, a: seq<Command>, b: seq<Command>)
    ensures Only(p, a + b) == Only(p, a) + Only(p, b)
    decreases |a|
  {
    if a == [] {
      assert a + b == b;
    } else {
      assert (a + b)[1..] == a[1..] + b && (a + b)[0] == a[0];
      OnlyConcat(p, a[1..], b);
      var head: seq<Command> := if p(a[0]) then [a[0]] else [];
      assert head + (Only(p, a[1..]) + Only(p, b)) == head + Only(p, a[1..]) + Only(p, b);
    }
  }

  lemma {:induction false} OnlyNone(p: Command -> bool, cmds: seq<Command>)
    requires forall c :: c in cmds ==> !p(c)
    ensures Only(p, cmds) == []
    decreases |cmds|
  {
    if cmds != [] { OnlyNone(p, cmds[1..]); }
  }

  lemma {:induction false} OnlyAll(p: Command -> bool, cmds: seq<Command>)
    requires forall c :: c in cmds ==> p(c)
    ensures Only(p, cmds) == cmds
    decreases |cmds|
  {
    if cmds != [] { OnlyAll(p, cmds[1..]); }
  }

  lemma {:induction false} OnlyPrefix(p: Command -> bool, cmds: seq<Command>, k: nat)
    requires k <= |cmds|
    ensures Only(p, cmds[..k]) <= Only(p, cmds)
  {
    hide Only;
    assert cmds == cmds[..k] + cmds[k..];
    OnlyConcat(p, cmds[..k], cmds[k..]);
  }

  const IS_NIC: Command -> bool := (cmd: Command) => cmd.RemoveNic? || cmd.CreateNic?

  const IS_DISK: Command -> bool := (cmd: Command) => cmd.ExtendDisk?

  // Only the interface commands decide what the interfaces become.
  lemma {:induction false} NicsDecidedBy(c: Config, d: Config, cmds: seq<Command>)
    requires c.nics == d.nics && c.nextNic == d.nextNic
    ensures Exec(c, cmds).nics == Exec(d, Only(IS_NIC, cmds)).nics
    decreases |cmds|
  {
    if cmds != [] {
      var rest := Only(IS_NIC, cmds[1..]);
      if IS_NIC(cmds[0]) {
        assert ([cmds[0]] + rest)[1..] == rest;
        NicsDecidedBy(Apply(c, cmds[0]), Apply(d, cmds[0]), cmds[1..]);
      } else {
        assert [] + rest == rest;
        NicsDecidedBy(Apply(c, cmds[0]), d, cmds[1..]);
      }
    }
  }

  lemma {:induction false} DisksDecidedBy(c: Config, d: Config, cmds: seq<Command>)
    requires c.disks == d.disks
    ensures Exec(c, cmds).disks == Exec(d, Only(IS_DISK, cmds)).disks
    decreases |cmds|
  {
    if cmds != [] {
      var rest := Only(IS_DISK, cmds[1..]);
      if IS_DISK(cmds[0]) {
        assert ([cmds[0]] + rest)[1..] == rest;
        DisksDecidedBy(Apply(c, cmds[0]), Apply(d, cmds[0]), cmds[1..]);
      } else {
        assert [] + rest == rest;
        DisksDecidedBy(Apply(c, cmds[0]), d, cmds[1..]);
      }
    }
  }

  lemma {:induction false} ConsoleCommandsOnly(consoles: seq<nat>)
    ensures forall c :: c in ConsoleCommands(consoles) ==> c.RemoveConsole?
  {
    if consoles != [] { ConsoleCommandsOnly(consoles[1..]); }
  }

  lemma {:induction false} GroupCommandsOnly(groups: seq<string>)
    ensures forall c :: c in GroupCommands(groups) ==> c.AddToGroup?
  {
    if groups != [] { GroupCommandsOnly(groups[1..]); }
  }

  lemma {:induction false} RemoveNicsOnly(nics: seq<Nic>)
    ensures |RemoveNics(nics)| == |nics|
    ensures forall i :: 0 <= i < |nics| ==> RemoveNics(nics)[i] == RemoveNic(nics[i].id)
  {
    if nics != [] { RemoveNicsOnly(nics[1..]); }
  }

  // The write that creates interface n of the spec.
  predicate CreatesNic(cmd: Command, interfaces: seq<Option<NetworkInterface>>, n: nat) {
    n < |interfaces| && interfaces[n].Some? && cmd == CreateNic(NicName(n + 1), interfaces[n].value.vnicProfileID)
  }

  lemma {:induction false} CreateNicsOnly(interfaces: seq<Option<NetworkInterface>>, i: nat)
    requires i <= |interfaces|
    ensures forall j :: 0 <= j < |CreateNics(interfaces, i)| ==>
              CreatesNic(CreateNics(interfaces, i)[j], interfaces, i + j)
    decreases |interfaces| - i
  {
    if i < |interfaces| && interfaces[i].Some? {
      CreateNicsOnly(interfaces, i + 1);
      var cmds, rest := CreateNics(interfaces, i), CreateNics(interfaces, i + 1);
      forall j | 0 <= j < |cmds| ensures CreatesNic(cmds[j], interfaces, i + j) {
        if j > 0 { assert CreatesNic(rest[j - 1], interfaces, i + 1 + (j - 1)); }
      }
    }
  }

  lemma AfterNicsHasNoDevices(o: Origin)
    ensures Only(IS_NIC, AfterNics(o)) == [] && Only(IS_DISK, AfterNics(o)) == []
  {
    hide GroupCommands, Only;
    GroupCommandsOnly(o.spec.AffinityGroups());
    forall c | c in AfterNics(o) ensures !IS_NIC(c) && !IS_DISK(c) {
      assert c == AutoPin || c == AddTag(o.clusterTag) || c in GroupCommands(o.spec.AffinityGroups()) || c == Start;
    }
    OnlyNone(IS_NIC, AfterNics(o));
    OnlyNone(IS_DISK, AfterNics(o));
  }

  lemma NicCommandsOnlyNics(o: Origin)
    ensures Only(IS_NIC, NicCommands(o)) == NicCommands(o) && Only(IS_DISK, NicCommands(o)) == []
  {
    RemoveNicsOnly(o.template.nics);
    CreateNicsOnly(o.spec.Interfaces(), 0);
    OnlyAll(IS_NIC, NicCommands(o));
    OnlyNone(IS_DISK, NicCommands(o));
  }

  // The run gets past the OS disk.
  predicate Reaches(o: Origin) {
    o.spec.osDisk.Some? && LastBootable(o.template.disks).Some?
  }

  function DiskPart(o: Origin): seq<Command> {
    if Reaches(o) then
      DiskCommands(o.template.disks[LastBootable(o.template.disks).value], RequestedSize(o.spec.osDisk.value.sizeGB))
    else []
  }

  lemma OnlyAfterConsoles(p: Command -> bool, o: Origin)
    ensures Only(p, Commands(o))
            == Only(p, if o.spec.HighPerformance() then ConsoleCommands(o.template.consoles) else [])
                                    + Only(p, AfterConsoles(o))
    ensures Only(p, AfterConsoles(o)) ==
            if Reaches(o) then Only(p, DiskPart(o)) + Only(p, NicCommands(o)) + Only(p, AfterNics(o)) else []
  {
    OnlyConcat(p, if o.spec.HighPerformance() then ConsoleCommands(o.template.consoles) else [], AfterConsoles(o));
    if Reaches(o) {
      OnlyConcat(p, DiskPart(o) + NicCommands(o), AfterNics(o));
      OnlyConcat(p, DiskPart(o), NicCommands(o));
    }
  }

  lemma NicCommandsOf(o: Origin)
    ensures Only(IS_NIC, Commands(o)) == if Reaches(o) then NicCommands(o) else []
  {
    OnlyAfterConsoles(IS_NIC, o);
    ConsoleCommandsOnly(o.template.consoles);
    OnlyNone(IS_NIC, if o.spec.HighPerformance() then ConsoleCommands(o.template.consoles) else []);
    OnlyNone(IS_NIC, DiskPart(o));
    NicCommandsOnlyNics(o);
    AfterNicsHasNoDevices(o);
  }

  lemma DiskCommandsOf(o: Origin)
    ensures Only(IS_DISK, Commands(o)) == DiskPart(o)
  {
    OnlyAfterConsoles(IS_DISK, o);
    ConsoleCommandsOnly(o.template.consoles);
    OnlyNone(IS_DISK, if o.spec.HighPerformance() then ConsoleCommands(o.template.consoles) else []);
    OnlyAll(IS_DISK, DiskPart(o));
    NicCommandsOnlyNics(o);
    AfterNicsHasNoDevices(o);
  }

  // The first n interfaces of the spec, as the VM carries them.
  function FirstNics(o: Origin, n: nat): seq<Nic>
    requires n <= |o.spec.Interfaces()| && AllPresent(o.spec.Interfaces()[..n])
  {
    var wanted := o.spec.Interfaces()[..n];
    seq(n, j requires 0 <= j < n => Nic(NextNic(o.template.nics) + j, NicName(j + 1), wanted[j].value.vnicProfileID))
  }

  // Either some of the template's interfaces are still to be removed, or some
  // of the spec's have been created; never both.
  ghost predicate NeverMixed(nics: seq<Nic>, o: Origin) {
    || (exists j :: 0 <= j <= |o.template.nics| && nics == o.template.nics[j..])
    || (exists n :: 0 <= n <= |o.spec.Interfaces()| && AllPresent(o.spec.Interfaces()[..n]) && nics == FirstNics(o, n))
  }

  lemma {:induction false} RemovedSoFar(c: Config, k: nat)
    requires k <= |RemoveNics(c.nics)|
    ensures k <= |c.nics|
    ensures Exec(c, RemoveNics(c.nics)[..k]) == c.(nics := c.nics[k..])
    decreases k
  {
    RemoveNicsOnly(c.nics);
    if k > 0 {
      var cmds := RemoveNics(c.nics);
      assert cmds[1..] == RemoveNics(c.nics[1..]);
      assert cmds[..k][1..] == cmds[1..][..k - 1];
      RemovedSoFar(c.(nics := c.nics[1..]), k - 1);
    }
  }

  lemma FirstNicsStep(o: Origin, n: nat)
    requires n < |o.spec.Interfaces()| && AllPresent(o.spec.Interfaces()[..n]) && o.spec.Interfaces()[n].Some?
    ensures AllPresent(o.spec.Interfaces()[..n + 1])
    ensures FirstNics(o, n + 1) ==
            FirstNics(o, n) +
            [Nic(NextNic(o.template.nics) + n, NicName(n + 1), o.spec.Interfaces()[n].value.vnicProfileID)]
  {
  }

  lemma {:induction false} CreatedSoFar(c: Config, o: Origin, k: nat)
    requires c.nics == [] && c.nextNic == NextNic(o.template.nics)
    requires k <= |CreateNics(o.spec.Interfaces(), 0)|
    ensures k <= |o.spec.Interfaces()| && AllPresent(o.spec.Interfaces()[..k])
    ensures Exec(c, CreateNics(o.spec.Interfaces(), 0)[..k]) == c.(nics := FirstNics(o, k), nextNic := c.nextNic + k)
    decreases k
  {
    hide CreateNics, NextNic;
    var cmds := CreateNics(o.spec.Interfaces(), 0);
    if k == 0 {
      assert FirstNics(o, 0) == [];
    } else {
      CreatedSoFar(c, o, k - 1);
      CreateNicsOnly(o.spec.Interfaces(), 0);
      assert CreatesNic(cmds[k - 1], o.spec.Interfaces(), 0 + (k - 1));
      FirstNicsStep(o, k - 1);
      ExecNext(c, cmds, k - 1);
    }
  }

  lemma NicPhase(c: Config, o: Origin, k: nat)
    requires c.nics == o.template.nics && c.nextNic == NextNic(o.template.nics)
    requires k <= |NicCommands(o)|
    ensures NeverMixed(Exec(c, NicCommands(o)[..k]).nics, o)
  {
    hide Apply, NextNic, FirstNics;
    assert o.template.nics == o.template.nics[0..];
    if o.spec.Interfaces() != [] {
      var r := RemoveNics(o.template.nics);
      var w := CreateNics(o.spec.Interfaces(), 0);
      assert (r + w)[..k] == if k <= |r| then r[..k] else r + w[..k - |r|];
      if k <= |r| {
        RemovedSoFar(c, k);
      } else {
        ExecConcat(c, r, w[..k - |r|]);
        ExecRemoveNics(c);
        CreatedSoFar(c.(nics := []), o, k - |r|);
      }
    }
  }

  // At every point of the run the interface list is a suffix of the template's
  // or a prefix of the spec's.
  lemma NicsNeverMixed(o: Origin, k: nat)
    requires k <= |Commands(o)|
    ensures NeverMixed(Exec(Instance(o), Commands(o)[..k]).nics, o)
  {
    hide Commands, NicCommands, ExpectedParams;
    var c, done := Instance(o), Only(IS_NIC, Commands(o)[..k]);
    NicsDecidedBy(c, c, Commands(o)[..k]);
    OnlyPrefix(IS_NIC, Commands(o), k);
    NicCommandsOf(o);
    if Reaches(o) {
      assert done == NicCommands(o)[..|done|];
      NicPhase(c, o, |done|);
    } else {
      assert done == [] && o.template.nics == o.template.nics[0..];
    }
  }

  // At every point of the run the disks are the template's, or the template's
  // with the last bootable one grown to the request.
  lemma DisksOnlyGrow(o: Origin, k: nat)
    requires k <= |Commands(o)| && WellFormed(o.template)
    ensures var disks := Exec(Instance(o), Commands(o)[..k]).disks;
            || disks == o.template.disks
            || (Reaches(o) && disks == ExpectedDisksOf(o.template.disks, RequestedSize(o.spec.osDisk.value.sizeGB)))
  {
    var c, done := Instance(o), Only(IS_DISK, Commands(o)[..k]);
    DisksDecidedBy(c, c, Commands(o)[..k]);
    OnlyPrefix(IS_DISK, Commands(o), k);
    DiskCommandsOf(o);
    if done != [] {
      assert done == DiskPart(o);
      ExecDisk(c, RequestedSize(o.spec.osDisk.value.sizeGB));
    }
  }

  // No write ever shrinks a disk.
  lemma DisksNeverShrink(o: Origin, k: nat)
    requires k <= |Commands(o)| && WellFormed(o.template)
    ensures var disks := Exec(Instance(o), Commands(o)[..k]).disks;
            |disks| == |o.template.disks| &&
            forall i :: 0 <= i < |disks| ==> disks[i].provisionedSize >= o.template.disks[i].provisionedSize
  {
    DisksOnlyGrow(o, k);
  }

  // The interfaces of a finished VM are nic1, nic2, ... with the spec's profiles
  // in order, and no two of them share a name.
  lemma NicNamesDistinct(o: Origin, i: nat, j: nat)
    requires AllPresent(o.spec.Interfaces()) && o.spec.Interfaces() != []
    requires i < j < |ExpectedNics(o)|
    ensures ExpectedNics(o)[i].name != ExpectedNics(o)[j].name
  {
    if NicName(i + 1) == NicName(j + 1) {
      assert NicName(i + 1)[3..] == Render(i + 1) && NicName(j + 1)[3..] == Render(j + 1);
      RenderInjective(i + 1, j + 1);
    }
  }

  lemma {:induction false} StartedByStart(c: Config, cmds: seq<Command>)
    requires Start !in cmds
    ensures Exec(c, cmds).started == c.started
    decreases |cmds|
  {
    if cmds != [] { StartedByStart(Apply(c, cmds[0]), cmds[1..]); }
  }

  // The compiled commands start the VM exactly when the spec can be carried
  // through; when the template has no bootable disk they stop short of it.
  lemma StartedExactly(o: Origin)
    requires WellFormed(o.template)
    ensures Exec(Instance(o), Commands(o)).started <==> Complete(o)
  {
    hide Exec, CreateNics, RemoveNics, ConsoleCommands, ExpectedParams, ExpectedDisksOf, ExpectedNics, NextNic;
    if Complete(o) {
      CompilerCorrect(o);
    } else {
      ConsoleCommandsOnly(o.template.consoles);
      RemoveNicsOnly(o.template.nics);
      CreateNicsOnly(o.spec.Interfaces(), 0);
      assert Start !in NicCommands(o);
      StartedByStart(Instance(o), Commands(o));
    }
  }

  // The client refuses exactly these specs, whatever else is sent.
  lemma RefusedExactly(spec: ProviderSpec, t: Template, ignition: string, name: string, hosts: seq<Host>)
    ensures Refused(name, spec.clusterId, t.id, ExpectedParams(spec, ignition, name, hosts, t.disks))
            <==> CreateRefused(spec, t, name)
  {
  }

  /* ---- Disk size ---- */

  lemma RequestedSizeMod(sizeGB: int64)
    ensures RequestedSize(sizeGB) == (sizeGB % 0x4_0000_0000) * 0x4000_0000
  {
  }

  // The requested number of bytes is the declared number of GiB exactly when
  // that number is not negative and fits in 64 bits.
  lemma RequestedSizeExact(sizeGB: int64)
    ensures RequestedSize(sizeGB) == sizeGB * 0x4000_0000 <==> 0 <= sizeGB < 0x4_0000_0000
  {
  }
}
