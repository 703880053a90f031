/** One machine operation: the VM side of machineScope. */
module MachineScopes {
  import opened Prelude
  import opened ProviderSpecs
  import opened Templates
  import opened VMParams
  import opened Plan
  import PlanProofs
  import opened EngineLog
  import opened Engines

  datatype Outcome = Done | Failed | Panicked

  // How create ended on a name that was absent: with the VM the spec declares,
  // running, or with an instance that has no bootable disk and was never started.
  ghost predicate Finished(s: EngineState, id: VMID, name: string, o: Origin) {
    && id in s.vms && s.vms[id].name == name && s.vms[id].origin == o && s.vms[id].todo == []
    && (Complete(o) ==> s.vms[id].config == ExpectedVM(o) && s.vms[id].status == "up")
    && (!Complete(o) ==> LastBootable(o.template.disks).None? && !s.vms[id].config.started)
  }

  lemma FinishedPresent(s: EngineState, id: VMID, name: string, o: Origin)
    requires Finished(s, id, name, o)
    ensures !Absent(s, name)
  {
  }

  // All its commands were performed.
  lemma FinishedRan(log: seq<Event>, s: EngineState, id: VMID, name: string, o: Origin)
    requires LegalLog(log) && s == State(log) && Finished(s, id, name, o)
    ensures s.vms[id].config == Exec(Instance(o), Commands(o))
  {
    hide LegalLog, State, Exec, Commands, Instance, ExpectedVM, Complete;
    AlwaysSafe(log, |log|);
    assert log[..|log|] == log;
    var k :| 0 <= k <= |Commands(o)| && AtStep(s.vms[id], k);
    assert Commands(o)[..k] == Commands(o);
  }

  // The VM being set up under the name, unless someone removed it.
  ghost predicate Mine(s: EngineState, id: VMID, name: string, o: Origin, c: Config, todo: seq<Command>) {
    && id < s.nextId
    && (forall j :: j in s.vms && s.vms[j].name == name ==> j == id)
    && (id in s.vms ==>
          var v := s.vms[id];
          v.name == name && v.origin == o && v.config == c && v.todo == todo && !v.stopping)
  }

  // The spec names a secret without user data.
  predicate Unreadable(spec: ProviderSpec, secret: Option<string>) {
    spec.userDataSecret.Some? && secret.None?
  }

  function Ignition(spec: ProviderSpec, secret: Option<string>): string {
    if spec.userDataSecret.Some? && secret.Some? then secret.value else ""
  }

  // What create asks the engine for, on behalf of this machine.
  function RequestOf(engine: Engine, name: string, tag: string, spec: ProviderSpec, secret: Option<string>): Origin
    requires spec.templateName in engine.templates
  {
    Origin(spec, tag, name, Ignition(spec, secret), engine.hosts, engine.templates[spec.templateName])
  }

  // What makes create fail every time, without any fault.
  predicate Hindered(engine: Engine, name: string, spec: ProviderSpec, secret: Option<string>) {
    || Unreadable(spec, secret)
    || spec.templateName !in engine.templates
    || CreateRefused(spec, engine.templates[spec.templateName], name)
    || !GroupsKnown(spec, engine.groups)
  }

  // What makes it panic.
  predicate PanicsIn(engine: Engine, spec: ProviderSpec) {
    || SpecPanics(spec)
    || (spec.templateName in engine.templates && CreatePanics(spec, engine.templates[spec.templateName]))
  }

  // The next interface to create.
  lemma NextCreate(c: Config, wanted: seq<Option<NetworkInterface>>, i: nat, rest: seq<Command>)
    requires i < |wanted| && wanted[i].Some? && AllPresent(wanted[..i])
    ensures var cmd := CreateNic(NicName(i + 1), wanted[i].value.vnicProfileID);
            && CreateNics(wanted, i) + rest == [cmd] + (CreateNics(wanted, i + 1) + rest)
            && Exec(c, CreateNics(wanted, i)) == Exec(Apply(c, cmd), CreateNics(wanted, i + 1))
    ensures AllPresent(wanted[..i + 1])
  {
  }

  lemma CreatesEnd(c: Config, wanted: seq<Option<NetworkInterface>>, rest: seq<Command>)
    ensures CreateNics(wanted, |wanted|) + rest == rest
    ensures Exec(c, CreateNics(wanted, |wanted|)) == c
  {
  }

  lemma CreatesEndAt(wanted: seq<Option<NetworkInterface>>, i: nat)
    requires i < |wanted| && wanted[i].None?
    ensures !AllPresent(wanted)
  {
  }

  class MachineScope {
    const engine: Engine
    const name: string
    const clusterTag: string
    const spec: ProviderSpec
    // The user data in the secret the spec names; None if the secret is missing
    // or has no such key.
    const secret: Option<string>

    constructor (e: Engine, n: string, tag: string, s: ProviderSpec, userData: Option<string>)
      ensures engine == e && name == n && clusterTag == tag && spec == s && secret == userData
    {
      engine, name, clusterTag, spec, secret := e, n, tag, s, userData;
    }

    // What create asks the engine for.
    function Request(): Origin
      requires spec.templateName in engine.templates
    {
      RequestOf(engine, name, clusterTag, spec, secret)
    }

    method Exists() returns (found: bool, failed: bool)
      requires engine.Valid()
      modifies engine
      ensures engine.Undisturbed(name)
      ensures !failed ==> (found <==> !Absent(engine.state, name))
      ensures failed ==> !found && engine.budget < old(engine.budget)
    {
      var vm, err := engine.GetVMByName(name);
      if err.Some? {
        if err.value == ENotFound { return false, false; }
        return false, true;
      }
      return true, false;
    }

    // Without a fault this fails exactly if the spec names a secret that is missing
    // or incomplete.
    method GetIgnition() returns (ignition: Option<string>)
      requires engine.Valid()
      modifies engine
      ensures engine.Undisturbed(name)
      ensures ignition.Some? ==> !Unreadable(spec, secret) && ignition.value == Ignition(spec, secret)
      ensures ignition.None? ==> engine.budget < old(engine.budget) || Unreadable(spec, secret)
    {
      hide Calm, State, LegalLog;
      CalmRefl(engine.V(), name);
      if spec.userDataSecret.None? { return Some(""); }
      var err := engine.Query(name);
      if err.Some? { return None; }
      ignition := secret;
    }

    // The VM type, the size of the VM, and its memory policy.
    method SizeParams(params: Builder) returns (ok: bool)
      modifies params
      ensures ok <==> (spec.vmType == "" || ValidVMType(spec.vmType)) && !CPUPanics(spec)
      ensures ok ==> params.Values() == Sized(old(params.Values()), spec)
    {
      var p := params;
      ok := true;
      if spec.vmType != "" {
        p, ok := p.MustWithVMType(spec.vmType);
        if !ok { return; }
      }
      if spec.instanceTypeId != "" {
        p := p.MustWithInstanceTypeID(spec.instanceTypeId);
      } else {
        if spec.cpu.Some? {
          var cpu := spec.cpu.value;
          p, ok := p.MustWithCPUParameters(ToUint64(cpu.cores), ToUint64(cpu.sockets), ToUint64(cpu.threads));
          if !ok { return; }
        }
        if spec.memoryMB > 0 {
          p := p.MustWithMemory(MulInt64(BYTES_IN_MB, spec.memoryMB));
        }
        if spec.guaranteedMemoryMB > 0 {
          p := p.WithMemoryPolicy(MemoryPolicy(Some(MulInt64(BYTES_IN_MB, spec.guaranteedMemoryMB)), None));
        }
      }
    }

    // With autopinning, the hosts of the machine's cluster.
    method PlacementHosts() returns (hostIDs: seq<string>, failed: bool)
      requires engine.Valid()
      modifies engine
      ensures engine.Undisturbed(name)
      ensures !failed ==> hostIDs == if spec.AutoPinning() then HostsIn(engine.hosts, spec.clusterId) else []
      ensures failed ==> engine.budget < old(engine.budget)
    {
      hide Calm, State, LegalLog;
      hostIDs, failed := [], false;
      if !spec.AutoPinning() {
        CalmRefl(engine.V(), name);
        return;
      }
      var listed, err := engine.ListHosts(name);
      if err.Some? { return [], true; }
      for i := 0 to |listed|
        invariant hostIDs == HostsIn(listed[..i], spec.clusterId)
        modifies {}
      {
        HostsInAppend(listed[..i], listed[i], spec.clusterId);
        assert listed[..i + 1] == listed[..i] + [listed[i]];
        if listed[i].clusterID == spec.clusterId {
          hostIDs := hostIDs + [listed[i].id];
        }
      }
      assert listed[..|listed|] == listed;
    }

    // Sparse and format settings for every disk of the template.
    method DiskOverrides(template: Template, params: Builder) returns (out: Outcome)
      requires engine.Valid()
      modifies engine, params
      ensures engine.Undisturbed(name)
      ensures out == Done ==> FormatOk(spec, template.disks)
      ensures out == Done ==> params.Values() == Overridden(old(params.Values()), spec, template.disks)
      ensures out == Failed ==> engine.budget < old(engine.budget)
      ensures out == Panicked ==> !FormatOk(spec, template.disks)
    {
      hide Calm, State, LegalLog;
      CalmRefl(engine.V(), name);
      if spec.sparse.Some? || spec.format != "" {
        var disks, err := engine.ListTemplateDiskAttachments(template, name);
        if err.Some? { return Failed; }
        var diskParams, ok := OverrideDisks(disks);
        if !ok { return Panicked; }
        var _ := params.MustWithDisks(diskParams);
      }
      out := Done;
    }

    method CloneSetting(params: Builder)
      modifies params
      ensures params.Values() == old(params.Values()).(clone := Some(ClonesDisks(spec)))
    {
      if spec.clone.Some? {
        var _ := params.MustWithClone(spec.clone.value);
      } else if spec.vmType == "desktop" {
        var _ := params.MustWithClone(false);
      } else {
        var _ := params.MustWithClone(true);
      }
    }

    // With a storage domain, one setting for the first disk of the template and
    // none for the others.
    method StorageDomain(template: Template, params: Builder) returns (out: Outcome)
      requires engine.Valid()
      modifies engine, params
      ensures engine.Undisturbed(name)
      ensures out == Done ==> (spec.storageDomainId == "" || template.disks != []) &&
                              params.Values() == Relocated(old(params.Values()), spec, template.disks)
      ensures out == Failed ==> engine.budget < old(engine.budget)
      ensures out == Panicked ==> spec.storageDomainId != "" && template.disks == []
    {
      hide Calm, State, LegalLog;
      CalmRefl(engine.V(), name);
      if spec.storageDomainId != "" {
        var disks, err := engine.ListTemplateDiskAttachments(template, name);
        if err.Some? { return Failed; }
        if disks == [] { return Panicked; }
        var disk := new DiskBuilder(disks[0].diskID);
        disk := disk.MustWithStorageDomainID(spec.storageDomainId);
        var _ := params.MustWithDisks([disk.Value()]);
      }
      out := Done;
    }

    // The settings of a high performance VM, and the placement policy.
    method Performance(params: Builder, hostIDs: seq<string>)
      modifies params
      ensures params.Values() == Tuned(old(params.Values()), spec, hostIDs)
    {
      var placement := PlacementPolicy(None, []);
      if |hostIDs| > 0 {
        placement := placement.(hostIDs := hostIDs);
      }
      var affinity := "migratable";
      if spec.HighPerformance() {
        affinity := "user_migratable";
        var _ := params.WithSoundcardEnabled(false);
        var _ := params.WithSerialConsole(true);
        var _ := params.MustWithCPU(CPUParams(None, Some("host_passthrough")));
        var _ := params.WithMemoryPolicy(MemoryPolicy(None, Some(false)));
      }
      placement := placement.(affinity := Some(affinity));
      var _ := params.WithPlacementPolicy(placement);
    }

    // What the parameters owe to the spec alone, and the hosts for the placement.
    method SizeAndPlace(params: Builder) returns (out: Outcome, hostIDs: seq<string>)
      requires engine.Valid()
      modifies engine, params
      ensures engine.Undisturbed(name)
      ensures out == Done ==>
                && !SpecPanics(spec)
                && params.Values() == WithHugePages(Sized(old(params.Values()), spec), spec)
                && hostIDs == if spec.AutoPinning() then HostsIn(engine.hosts, spec.clusterId) else []
      ensures out == Failed ==> engine.budget < old(engine.budget)
      ensures out == Panicked ==> SpecPanics(spec)
    {
      hide Calm, State, LegalLog, HostsIn, CPUPanics, Builder.Values, Sized;
      CalmRefl(engine.V(), name);
      hostIDs := [];
      var ok := SizeParams(params);
      if !ok { return Panicked, hostIDs; }
      var failed;
      hostIDs, failed := PlacementHosts();
      if failed { return Failed, hostIDs; }
      if spec.hugepages > 0 {
        var _, valid := params.MustWithHugePages(spec.hugepages);
        if !valid { return Panicked, hostIDs; }
      }
      out := Done;
    }

    // What they owe to the disks of the template.
    method DiskSettings(template: Template, params: Builder) returns (out: Outcome)
      requires engine.Valid()
      modifies engine, params
      ensures engine.Undisturbed(name)
      ensures out == Done ==>
                && !DisksPanic(spec, template.disks)
                && params.Values() == Relocated(Overridden(old(params.Values()), spec, template.disks)
                                                .(clone := Some(ClonesDisks(spec))), spec, template.disks)
      ensures out == Failed ==> engine.budget < old(engine.budget)
      ensures out == Panicked ==> DisksPanic(spec, template.disks)
    {
      hide Calm, State, LegalLog, Builder.Values, Overridden, Relocated, ClonesDisks;
      ghost var v0 := engine.V();
      out := DiskOverrides(template, params);
      if out != Done { return; }
      ghost var v1 := engine.V();
      CloneSetting(params);
      out := StorageDomain(template, params);
      CalmTrans(v0, v1, engine.V(), name);
    }

    // Everything create does before it asks for the VM.
    method BuildParams(ignition: string) returns (out: Outcome, params: Builder, template: Template)
      requires engine.Valid()
      modifies engine
      ensures engine.Undisturbed(name) && fresh(params)
      ensures out == Done ==>
                && spec.templateName in engine.templates && template == engine.templates[spec.templateName]
                && !SpecPanics(spec) && !DisksPanic(spec, template.disks)
                && params.Values() == ExpectedParams(spec, ignition, name, engine.hosts, template.disks)
      ensures out == Failed ==> engine.budget < old(engine.budget) || spec.templateName !in engine.templates
      ensures out == Panicked ==>
                || SpecPanics(spec)
                || (spec.templateName in engine.templates &&
                    DisksPanic(spec, engine.templates[spec.templateName].disks))
    {
      hide Calm, State, LegalLog, HostsIn, SpecPanics, DisksPanic, Builder.Values, ClonesDisks, Initial;
      hide ExpectedParams, Sized, WithHugePages, Overridden, Relocated, Tuned, OverriddenDisks, ExpectedDisks;
      ghost var v0 := engine.V();
      template := Template("", [], [], []);
      params := new Builder(ignition, name);
      var hostIDs;
      out, hostIDs := SizeAndPlace(params);
      if out != Done { return; }
      ghost var v1 := engine.V();
      var found, err := engine.GetTemplateByName(spec.templateName, name);
      ghost var v2 := engine.V();
      CalmTrans(v0, v1, v2, name);
      if err.Some? { return Failed, params, template; }
      template := found.value;
      out := DiskSettings(template, params);
      CalmTrans(v0, v2, engine.V(), name);
      if out != Done { return; }
      Performance(params, hostIDs);
      SettingsAddUp(spec, ignition, name, engine.hosts, template.disks);
    }

    // One override per template disk; the results of the setters are discarded.
    method OverrideDisks(disks: seq<DiskAttachment>) returns (diskParams: seq<DiskParams>, ok: bool)
      requires spec.sparse.Some? || spec.format != ""
      ensures ok ==> diskParams == OverriddenDisks(spec, disks)
      ensures ok <==> spec.format == "" || ValidFormat(spec.format) || disks == []
    {
      diskParams, ok := [], true;
      for i := 0 to |disks|
        invariant diskParams == OverriddenDisks(spec, disks[..i])
        invariant i > 0 ==> spec.format == "" || ValidFormat(spec.format)
      {
        var disk := new DiskBuilder(disks[i].diskID);
        if spec.sparse.Some? {
          var _ := disk.MustWithSparse(spec.sparse.value);
        }
        if spec.format != "" {
          var _, valid := disk.MustWithFormat(spec.format);
          if !valid { return diskParams, false; }
        }
        diskParams := diskParams + [disk.Value()];
      }
    }

    /* ---- Setting up the instance ---- */

    // The instance is being set up: the writes in todo are left, and if it is
    // gone, then one of b0 misfortunes has happened.
    ghost predicate Working(id: VMID, o: Origin, c: Config, todo: seq<Command>, b0: nat)
      reads engine
    {
      Waiting(id, o, c, todo, b0, Idle)
    }

    // The same, while this may still be pending.
    ghost predicate Waiting(id: VMID, o: Origin, c: Config, todo: seq<Command>, b0: nat, pending: Pending)
      reads engine
    {
      && engine.Valid()
      && Mine(engine.state, id, name, o, c, todo)
      && engine.budget <= b0
      && (id in engine.state.vms || engine.budget < b0)
      && (id in engine.state.vms ==> engine.state.vms[id].pending in {pending, Idle})
    }

    // One write of the list.
    method Write(id: VMID, cmd: Command, ghost o: Origin, ghost c: Config, ghost todo: seq<Command>, ghost b0: nat)
      returns (failed: bool)
      requires Working(id, o, c, [cmd] + todo, b0) && !cmd.ExtendDisk?
      modifies engine
      ensures old(engine.log) <= engine.log
      ensures !failed ==> Working(id, o, Apply(c, cmd), todo, b0) && id in engine.state.vms
      ensures failed ==> engine.Valid() && engine.budget < b0
    {
      hide Commands, Instance, Apply, LegalLog, State, WellFormed;
      assert ([cmd] + todo)[1..] == todo;
      var err := engine.Configure(id, cmd, name);
      return err.Some?;
    }

    // The one that resizes a disk returns before the disk has its new size.
    method ResizeDisk(id: VMID, cmd: Command, ghost o: Origin, ghost c: Config, ghost todo: seq<Command>, ghost b0: nat)
      returns (failed: bool)
      requires Working(id, o, c, [cmd] + todo, b0) && cmd.ExtendDisk?
      modifies engine
      ensures old(engine.log) <= engine.log
      ensures !failed ==> Waiting(id, o, Apply(c, cmd), todo, b0, Resizing) && id in engine.state.vms
      ensures failed ==> engine.Valid() && engine.budget < b0
    {
      hide Commands, Instance, Apply, LegalLog, State, WellFormed;
      assert ([cmd] + todo)[1..] == todo;
      var err := engine.Configure(id, cmd, name);
      return err.Some?;
    }

    method Look(id: VMID, ghost o: Origin, ghost c: Config, ghost todo: seq<Command>, ghost b0: nat)
      returns (config: Option<Config>)
      requires Working(id, o, c, todo, b0)
      modifies engine
      ensures old(engine.log) <= engine.log
      ensures config.Some? ==> Working(id, o, c, todo, b0) && config.value == c && id in engine.state.vms
      ensures config.None? ==> engine.Valid() && engine.budget < b0
    {
      hide Commands, Instance, LegalLog, State, WellFormed, Foreign;
      var found, err := engine.Inspect(id, name);
      return if err.Some? then None else found;
    }

    // disk.WaitForOK after the disk grew.
    method AwaitDisk(id: VMID, ghost o: Origin, ghost c: Config, ghost todo: seq<Command>, ghost b0: nat)
      returns (failed: bool)
      requires Waiting(id, o, c, todo, b0, Resizing)
      modifies engine
      ensures old(engine.log) <= engine.log
      ensures !failed ==> Working(id, o, c, todo, b0)
      ensures failed ==> engine.Valid() && engine.budget < b0
    {
      hide Commands, Instance, LegalLog, State, WellFormed, Foreign;
      var err := engine.WaitForDiskOK(id, name);
      return err.Some?;
    }

    // The disks of a new instance are copied by the time it is down.
    method Await(id: VMID, status: string, ghost o: Origin, ghost c: Config, ghost todo: seq<Command>, ghost b0: nat)
      returns (failed: bool)
      requires if status == "down" then Waiting(id, o, c, todo, b0, Locked) else Working(id, o, c, todo, b0)
      modifies engine
      ensures old(engine.log) <= engine.log
      ensures !failed ==> Working(id, o, c, todo, b0) && id in engine.state.vms && engine.state.vms[id].status == status
      ensures failed ==> engine.Valid() && engine.budget < b0
    {
      hide Commands, Instance, LegalLog, State, WellFormed, Foreign;
      var err := engine.WaitForVMStatus(id, status, name);
      return err.Some?;
    }

    // A high performance VM gets no graphics console.
    method RemoveConsoles(id: VMID, ghost o: Origin, ghost c: Config, ghost rest: seq<Command>, ghost b0: nat)
      returns (failed: bool)
      requires Working(id, o, c, ConsoleCommands(c.consoles) + rest, b0)
      modifies engine
      ensures old(engine.log) <= engine.log
      ensures !failed ==> Working(id, o, c.(consoles := []), rest, b0)
      ensures failed ==> engine.Valid() && engine.budget < b0
    {
      hide Working;
      var found := Look(id, o, c, ConsoleCommands(c.consoles) + rest, b0);
      if found.None? { return true; }
      var consoles := found.value.consoles;
      for i := 0 to |consoles|
        invariant old(engine.log) <= engine.log
        invariant Working(id, o, c.(consoles := consoles[i..]), ConsoleCommands(consoles[i..]) + rest, b0)
      {
        ghost var todo := ConsoleCommands(consoles[i + 1..]) + rest;
        assert consoles[i..][1..] == consoles[i + 1..];
        assert ConsoleCommands(consoles[i..]) + rest == [RemoveConsole(consoles[i])] + todo;
        failed := Write(id, RemoveConsole(consoles[i]), o, c.(consoles := consoles[i..]), todo, b0);
        if failed { return; }
      }
      assert consoles[|consoles|..] == [];
      assert ConsoleCommands([]) + rest == rest;
      return false;
    }

    // The write that grows the OS disk, if one is needed.
    function GrowOSDisk(c: Config): seq<Command>
      requires spec.osDisk.Some? && LastBootable(c.disks).Some?
    {
      DiskCommands(c.disks[LastBootable(c.disks).value], RequestedSize(spec.osDisk.value.sizeGB))
    }

    // The OS disk grows to the requested size; found is false when no attachment
    // is bootable, which ends the run with a nil error.
    method ExtendOSDisk(id: VMID, ghost o: Origin, ghost c: Config, ghost rest: seq<Command>, ghost b0: nat)
      returns (failed: bool, found: bool)
      requires spec.osDisk.Some? && c.disks == o.template.disks && DistinctDisks(c.disks)
      requires LastBootable(c.disks).Some? ==>
                 Working(id, o, c, GrowOSDisk(c) + rest, b0)
      requires LastBootable(c.disks).None? ==> Working(id, o, c, [], b0)
      modifies engine
      ensures old(engine.log) <= engine.log
      ensures !failed ==> found == LastBootable(o.template.disks).Some?
      ensures !failed && found ==>
                Working(id, o, Exec(c, GrowOSDisk(c)), rest, b0)
      ensures !failed && !found ==> Working(id, o, c, [], b0) && id in engine.state.vms
      ensures failed ==> engine.Valid() && engine.budget < b0
    {
      hide Working, Apply, RequestedSize, LastBootable, SizeOf;
      ghost var todo := if LastBootable(c.disks).None? then []
        else GrowOSDisk(c) + rest;
      var newDiskSize := RequestedSize(spec.osDisk.value.sizeGB);
      var config := Look(id, o, c, todo, b0);
      if config.None? { return true, false; }
      var attachments := config.value.disks;
      var bootable := FindBootable(attachments);
      if bootable.None? {
        // errors.Wrapf(nil, ...) is nil.
        return false, false;
      }
      var disk := attachments[bootable.value];
      var size;
      size, failed := DiskSize(id, disk.diskID, o, c, todo, b0);
      if failed { return true, true; }
      SizeOfAt(attachments, bootable.value);
      if newDiskSize > size {
        PlanProofs.ExecOne(c, ExtendDisk(disk.diskID, newDiskSize));
        failed := ResizeDisk(id, ExtendDisk(disk.diskID, newDiskSize), o, c, rest, b0);
        if failed { return true, true; }
        failed := AwaitDisk(id, o, Apply(c, ExtendDisk(disk.diskID, newDiskSize)), rest, b0);
        return failed, true;
      }
      assert [] + rest == rest;
      return false, true;
    }

    // The loop does not stop at the first bootable attachment.
    method FindBootable(attachments: seq<DiskAttachment>) returns (bootable: Option<nat>)
      ensures bootable == LastBootable(attachments)
    {
      bootable := None;
      for i := 0 to |attachments|
        invariant bootable == LastBootable(attachments[..i])
      {
        assert attachments[..i + 1][..i] == attachments[..i];
        if attachments[i].bootable { bootable := Some(i); }
      }
      assert attachments[..|attachments|] == attachments;
    }

    method DiskSize(id: VMID, diskID: string, ghost o: Origin, ghost c: Config, ghost todo: seq<Command>, ghost b0: nat)
      returns (size: nat, failed: bool)
      requires Working(id, o, c, todo, b0)
      modifies engine
      ensures old(engine.log) <= engine.log
      ensures !failed ==> Working(id, o, c, todo, b0) && size == SizeOf(c.disks, diskID)
      ensures failed ==> engine.Valid() && engine.budget < b0
    {
      hide Commands, Instance, LegalLog, State, WellFormed, Foreign;
      var err;
      size, err := engine.GetDisk(id, diskID, name);
      failed := err.Some?;
    }

    // The template's interfaces go, the spec's come; a nil interface panics.
    method ReplaceNics(id: VMID, ghost o: Origin, ghost c: Config, ghost rest: seq<Command>, ghost b0: nat)
      returns (out: Outcome)
      requires o.spec == spec && spec.Interfaces() != [] && c.nics == o.template.nics
      requires Working(id, o, c, NicCommands(o) + (if AllPresent(spec.Interfaces()) then rest else []), b0)
      modifies engine
      ensures old(engine.log) <= engine.log
      ensures out == Done ==> AllPresent(spec.Interfaces()) && Working(id, o, Exec(c, NicCommands(o)), rest, b0)
      ensures out == Failed ==> engine.Valid() && engine.budget < b0
      ensures out == Panicked ==> engine.Valid() && engine.budget <= b0 && !AllPresent(spec.Interfaces())
    {
      hide Working, Exec, RemoveNics, CreateNics;
      ghost var after := if AllPresent(spec.Interfaces()) then rest else [];
      ghost var creates := CreateNics(spec.Interfaces(), 0) + after;
      assert NicCommands(o) + after == RemoveNics(c.nics) + creates;
      var failed := RemoveAllNics(id, o, c, creates, b0);
      if failed { return Failed; }
      out := CreateAllNics(id, o, c.(nics := []), after, b0);
      PlanProofs.ExecConcat(c, RemoveNics(c.nics), CreateNics(spec.Interfaces(), 0));
      PlanProofs.ExecRemoveNics(c);
    }

    method RemoveAllNics(id: VMID, ghost o: Origin, ghost c: Config, ghost rest: seq<Command>, ghost b0: nat)
      returns (failed: bool)
      requires Working(id, o, c, RemoveNics(c.nics) + rest, b0)
      modifies engine
      ensures old(engine.log) <= engine.log
      ensures !failed ==> Working(id, o, c.(nics := []), rest, b0)
      ensures failed ==> engine.Valid() && engine.budget < b0
    {
      hide Working;
      var found := Look(id, o, c, RemoveNics(c.nics) + rest, b0);
      if found.None? { return true; }
      var nics := found.value.nics;
      for i := 0 to |nics|
        invariant old(engine.log) <= engine.log
        invariant Working(id, o, c.(nics := nics[i..]), RemoveNics(nics[i..]) + rest, b0)
      {
        ghost var todo := RemoveNics(nics[i + 1..]) + rest;
        assert nics[i..][1..] == nics[i + 1..];
        assert RemoveNics(nics[i..]) + rest == [RemoveNic(nics[i].id)] + todo;
        failed := Write(id, RemoveNic(nics[i].id), o, c.(nics := nics[i..]), todo, b0);
        if failed { return; }
      }
      assert nics[|nics|..] == [];
      assert RemoveNics([]) + rest == rest;
      return false;
    }

    method CreateAllNics(id: VMID, ghost o: Origin, ghost c: Config, ghost rest: seq<Command>, ghost b0: nat)
      returns (out: Outcome)
      requires Working(id, o, c, CreateNics(spec.Interfaces(), 0) + rest, b0)
      modifies engine
      ensures old(engine.log) <= engine.log
      ensures out == Done ==> AllPresent(spec.Interfaces())
      ensures out == Done ==> Working(id, o, Exec(c, CreateNics(spec.Interfaces(), 0)), rest, b0)
      ensures out == Failed ==> engine.Valid() && engine.budget < b0
      ensures out == Panicked ==> engine.Valid() && engine.budget <= b0 && !AllPresent(spec.Interfaces())
    {
      hide Working, Exec, CreateNics, Apply, NicName;
      var wanted := spec.Interfaces();
      ghost var current := c;
      for i := 0 to |wanted|
        invariant old(engine.log) <= engine.log
        invariant AllPresent(wanted[..i])
        invariant Exec(current, CreateNics(wanted, i)) == Exec(c, CreateNics(wanted, 0))
        invariant Working(id, o, current, CreateNics(wanted, i) + rest, b0)
      {
        if wanted[i].None? {
          CreatesEndAt(wanted, i);
          RevealValid(id, o, current, CreateNics(wanted, i) + rest, b0);
          return Panicked;
        }
        var cmd := CreateNic(NicName(i + 1), wanted[i].value.vnicProfileID);
        NextCreate(current, wanted, i, rest);
        var failed := Write(id, cmd, o, current, CreateNics(wanted, i + 1) + rest, b0);
        if failed { return Failed; }
        current := Apply(current, cmd);
      }
      CreatesEnd(current, wanted, rest);
      assert wanted[..|wanted|] == wanted;
      return Done;
    }

    lemma RevealValid(id: VMID, o: Origin, c: Config, todo: seq<Command>, b0: nat)
      requires Working(id, o, c, todo, b0)
      ensures engine.Valid() && engine.budget <= b0
    {
      hide Mine, LegalLog, State;
    }

    // Pinning, the tag, the affinity groups, and the start.
    method Finish(id: VMID, ghost o: Origin, ghost c: Config, ghost b0: nat) returns (failed: bool)
      requires o.spec == spec && o.clusterTag == clusterTag
      requires Working(id, o, c, PinCommands(o), b0)
      modifies engine
      ensures old(engine.log) <= engine.log
      ensures !failed ==> Working(id, o, Exec(c, PinCommands(o)), [], b0)
      ensures !failed ==> id in engine.state.vms && engine.state.vms[id].status == "up"
      ensures !failed ==> GroupsKnown(spec, engine.groups)
      ensures failed ==> GroupFailure(b0)
    {
      hide Working, Exec, Apply, GroupCommands, GroupsKnown;
      ghost var c1 := c;
      if spec.AutoPinning() {
        failed := Write(id, AutoPin, o, c, TagCommands(o), b0);
        if failed { return; }
        c1 := Apply(c, AutoPin);
      } else {
        assert [] + TagCommands(o) == TagCommands(o);
      }
      failed := Write(id, AddTag(clusterTag), o, c1, FinalCommands(spec.AffinityGroups()), b0);
      if failed { return; }
      ghost var c2 := Apply(c1, AddTag(clusterTag));
      failed := JoinGroups(id, o, c2, [Start], b0);
      if failed { return; }
      ghost var c3 := Exec(c2, GroupCommands(spec.AffinityGroups()));
      assert [Start] == [Start] + [];
      failed := Write(id, Start, o, c3, [], b0);
      if failed { return; }
      FinishAddsUp(o, c, c1);
      failed := Await(id, "up", o, Apply(c3, Start), [], b0);
    }

    lemma FinishAddsUp(o: Origin, c: Config, c1: Config)
      requires c1 == if o.spec.AutoPinning() then Apply(c, AutoPin) else c
      ensures Exec(c, PinCommands(o)) ==
              Apply(Exec(Apply(c1, AddTag(o.clusterTag)), GroupCommands(o.spec.AffinityGroups())), Start)
    {
      PlanProofs.ExecPin(c, o);
      PlanProofs.ExecGroups(Apply(c1, AddTag(o.clusterTag)), o.spec.AffinityGroups());
    }

    // A fault, or an affinity group that does not exist.
    ghost predicate GroupFailure(b0: nat)
      reads engine
    {
      engine.Valid() && engine.budget <= b0 && (engine.budget < b0 || !GroupsKnown(spec, engine.groups))
    }

    method FindGroup(id: VMID, group: string, ghost o: Origin, ghost c: Config, ghost todo: seq<Command>, ghost b0: nat)
      returns (failed: bool)
      requires Working(id, o, c, todo, b0) && group in spec.AffinityGroups()
      modifies engine
      ensures old(engine.log) <= engine.log
      ensures !failed ==> Working(id, o, c, todo, b0) && (spec.clusterId, group) in engine.groups
      ensures failed ==> GroupFailure(b0)
    {
      hide Commands, Instance, LegalLog, State, WellFormed, Foreign;
      var err := engine.GetAffinityGroupByName(spec.clusterId, group, name);
      return err.Some?;
    }

    method JoinGroups(id: VMID, ghost o: Origin, ghost c: Config, ghost rest: seq<Command>, ghost b0: nat)
      returns (failed: bool)
      requires Working(id, o, c, GroupCommands(spec.AffinityGroups()) + rest, b0)
      modifies engine
      ensures old(engine.log) <= engine.log
      ensures !failed ==> Working(id, o, Exec(c, GroupCommands(spec.AffinityGroups())), rest, b0)
      ensures !failed ==> GroupsKnown(spec, engine.groups)
      ensures failed ==> GroupFailure(b0)
    {
      hide Working;
      var groups := spec.AffinityGroups();
      ghost var current := c;
      for i := 0 to |groups|
        invariant old(engine.log) <= engine.log
        invariant Exec(current, GroupCommands(groups[i..])) == Exec(c, GroupCommands(groups))
        invariant Working(id, o, current, GroupCommands(groups[i..]) + rest, b0)
        invariant forall j :: 0 <= j < i ==> (spec.clusterId, groups[j]) in engine.groups
      {
        var cmd := AddToGroup(groups[i]);
        ghost var later := GroupCommands(groups[i + 1..]);
        assert groups[i..][1..] == groups[i + 1..];
        assert GroupCommands(groups[i..]) == [cmd] + later && ([cmd] + later)[1..] == later;
        assert GroupCommands(groups[i..]) + rest == [cmd] + (later + rest);
        failed := FindGroup(id, groups[i], o, current, [cmd] + (later + rest), b0);
        if failed { return; }
        failed := Write(id, cmd, o, current, later + rest, b0);
        if failed { return; }
        current := Apply(current, cmd);
      }
      assert groups[|groups|..] == [];
      assert GroupCommands([]) + rest == rest;
      return false;
    }

    // What create does once the engine accepted the VM.
    method SetUp(id: VMID, ghost o: Origin, ghost b0: nat) returns (out: Outcome)
      requires o.spec == spec && o.clusterTag == clusterTag && WellFormed(o.template)
      requires Waiting(id, o, Instance(o), Commands(o), b0, Locked)
      modifies engine
      ensures old(engine.log) <= engine.log && engine.Valid() && engine.budget <= b0
      ensures out == Done ==> Finished(engine.state, id, name, o) && !MissesDevices(o.spec, o.template)
      ensures out == Done && LastBootable(o.template.disks).Some? ==> GroupsKnown(spec, engine.groups)
      ensures out == Failed ==> GroupFailure(b0)
      ensures out == Panicked ==> MissesDevices(o.spec, o.template)
    {
      hide Working, Exec, ConsoleCommands, DiskCommands, NicCommands, AllPresent, LastBootable, GroupsKnown;
      hide Finished, ExpectedParams;
      var failed := Await(id, "down", o, Instance(o), Commands(o), b0);
      if failed { return Failed; }
      ghost var c := Instance(o);
      if spec.HighPerformance() {
        failed := RemoveConsoles(id, o, c, AfterConsoles(o), b0);
        if failed { return Failed; }
        c := c.(consoles := []);
      } else {
        assert [] + AfterConsoles(o) == AfterConsoles(o);
      }
      if spec.osDisk.None? {
        // The size is computed before the disk is tested against nil.
        RevealValid(id, o, c, AfterConsoles(o), b0);
        return Panicked;
      }
      out := SetUpDevices(id, o, c, b0);
    }

    method SetUpDevices(id: VMID, ghost o: Origin, ghost c: Config, ghost b0: nat) returns (out: Outcome)
      requires o.spec == spec && o.clusterTag == clusterTag && WellFormed(o.template)
      requires spec.osDisk.Some? && !c.started
      requires c.disks == o.template.disks && c.nics == o.template.nics
      requires Working(id, o, c, AfterConsoles(o), b0)
      modifies engine
      ensures old(engine.log) <= engine.log && engine.Valid() && engine.budget <= b0
      ensures out == Done ==> Finished(engine.state, id, name, o) && !MissesDevices(o.spec, o.template)
      ensures out == Done && LastBootable(o.template.disks).Some? ==> GroupsKnown(spec, engine.groups)
      ensures out == Failed ==> GroupFailure(b0)
      ensures out == Panicked ==> MissesDevices(o.spec, o.template)
    {
      hide Working, Exec, DiskCommands, RemoveNics, CreateNics, PinCommands, LastBootable, Finished, RequestedSize;
      hide GroupsKnown;
      ghost var last := LastBootable(c.disks);
      ghost var disk := if last.Some? then GrowOSDisk(c) else [];
      ghost var rest := NicCommands(o) + AfterNics(o);
      assert last.Some? ==> AfterConsoles(o) == disk + rest;
      var failed, found := ExtendOSDisk(id, o, c, rest, b0);
      if failed { return Failed; }
      if !found {
        NotStarted(id, o, c, b0);
        return Done;
      }
      PlanProofs.ExecDisk(c, RequestedSize(spec.osDisk.value.sizeGB));
      ghost var c1 := Exec(c, disk);
      if |spec.Interfaces()| > 0 {
        out := ReplaceNics(id, o, c1, PinCommands(o), b0);
        if out != Done { return; }
        c1 := Exec(c1, NicCommands(o));
      } else {
        assert rest == PinCommands(o);
      }
      failed := Finish(id, o, c1, b0);
      if failed { return Failed; }
      Started(id, o, Exec(c1, PinCommands(o)), b0);
      return Done;
    }

    lemma NotStarted(id: VMID, o: Origin, c: Config, b0: nat)
      requires Working(id, o, c, [], b0) && id in engine.state.vms
      requires !c.started && LastBootable(o.template.disks).None?
      ensures engine.Valid() && engine.budget <= b0 && Finished(engine.state, id, name, o)
    {
      hide LegalLog, State, ExpectedVM;
    }

    lemma Started(id: VMID, o: Origin, c: Config, b0: nat)
      requires Working(id, o, c, [], b0) && Complete(o)
      requires id in engine.state.vms && engine.state.vms[id].status == "up"
      ensures engine.Valid() && engine.budget <= b0 && Finished(engine.state, id, name, o)
    {
      hide LegalLog, State, ExpectedVM, Complete, ReachedByPrefix;
      AlwaysSafe(engine.log, |engine.log|);
      assert engine.log[..|engine.log|] == engine.log;
      FinishedIsExpected(engine.state, id);
    }

    /* ---- The operations ---- */

    // The VM that was asked for, or an instance without a bootable disk; and
    // nothing stood in the way.
    ghost predicate Created(id: VMID)
      reads engine
    {
      Finishing(engine.state, id)
    }

    ghost predicate Finishing(s: EngineState, id: VMID) {
      && spec.templateName in engine.templates
      && Finished(s, id, name, Request())
      && !PanicsIn(engine, spec) && !Unreadable(spec, secret)
      && !CreateRefused(spec, Request().template, name)
      && (LastBootable(Request().template.disks).Some? ==> GroupsKnown(spec, engine.groups))
    }

    /** id: the VM that was created, if there was none. Whatever fails, nothing is
        written while the name has a VM. */
    method Create() returns (out: Outcome, ghost id: VMID)
      requires engine.Valid()
      modifies engine
      ensures engine.Valid() && old(engine.log) <= engine.log && engine.budget <= old(engine.budget)
      ensures OnlyAfterAbsence(old(engine.log), engine.log, name)
      ensures !old(Absent(engine.state, name)) && engine.budget == old(engine.budget) ==>
                out == Done && engine.Undisturbed(name)
      ensures old(Absent(engine.state, name)) && out == Done ==> Created(id)
      ensures out == Done ==> !Absent(engine.state, name) && (Created(id) || engine.Undisturbed(name))
      ensures out == Failed ==> engine.budget < old(engine.budget) || Hindered(engine, name, spec, secret)
      ensures out == Panicked ==> PanicsIn(engine, spec)
    {
      hide LegalLog, State, Calm, Finished, ExpectedParams, MissesDevices, SpecPanics, DisksPanic, WellFormed;
      hide Commands, Instance, Builder.Values, CreateRefused, GroupsKnown, LastBootable, Refused, OnlyAfterAbsence;
      id := 0;
      ghost var v0 := engine.V();
      var vm, err := engine.GetVMByName(name);
      ghost var v1 := engine.V();
      CalmAbsent(v0, v1, name);
      CalmWrites(v0, v1, name);
      if err.Some? && err.value != ENotFound { return Failed, id; }
      if vm.Some? { return Done, id; }
      out, id := CreateAbsent();
      AbsentNow(v0.log, v1.log, engine.log, name);
    }

    // What create does once it found no VM.
    method CreateAbsent() returns (out: Outcome, ghost id: VMID)
      requires engine.Valid() && Absent(engine.state, name)
      modifies engine
      ensures engine.Valid() && old(engine.log) <= engine.log && engine.budget <= old(engine.budget)
      ensures out == Done ==> !Absent(engine.state, name) && Created(id)
      ensures out == Failed ==> engine.budget < old(engine.budget) || Hindered(engine, name, spec, secret)
      ensures out == Panicked ==> PanicsIn(engine, spec)
    {
      hide LegalLog, State, Calm, Finished, ExpectedParams, MissesDevices, SpecPanics, DisksPanic, WellFormed;
      hide Commands, Instance, Builder.Values, CreateRefused, GroupsKnown, LastBootable, Refused;
      id := 0;
      ghost var v1 := engine.V();
      var ignition := GetIgnition();
      ghost var v2 := engine.V();
      CalmAbsent(v1, v2, name);
      if ignition.None? { return Failed, id; }
      var params, template;
      out, params, template := BuildParams(ignition.value);
      CalmAbsent(v2, engine.V(), name);
      if out != Done { return; }
      var o := Request();
      PlanProofs.RefusedExactly(spec, template, ignition.value, name, engine.hosts);
      var instance, err := engine.CreateVM(o, spec.clusterId, template.id, params.Values(), name);
      if err.Some? { return Failed, id; }
      id := instance.value;
      FreshWorking(instance.value, o);
      out := SetUp(instance.value, o, engine.budget);
      if out == Done { FinishedPresent(engine.state, id, name, o); }
    }

    /** Refinement: nothing fails, the name is absent, and nothing makes create fail
        or panic. The run then ends with the VM the spec declares, up, or with an
        instance that has no bootable disk. */
    method CreateWithoutFaults() returns (ghost id: VMID)
      requires engine.Valid() && engine.budget == 0 && Absent(engine.state, name)
      requires !Hindered(engine, name, spec, secret) && !PanicsIn(engine, spec)
      modifies engine
      ensures engine.Valid()
      ensures id in engine.state.vms && engine.state.vms[id].name == name
      ensures var o := Request();
              && engine.state.vms[id].config == Exec(Instance(o), Commands(o))
              && if LastBootable(o.template.disks).Some?
                 then Complete(o) && engine.state.vms[id].config == ExpectedVM(o) && engine.state.vms[id].status == "up"
                 else !engine.state.vms[id].config.started
    {
      hide LegalLog, State, ExpectedVM, AllPresent, SpecPanics, DisksPanic, OnlyAfterAbsence, CreateRefused;
      hide Commands, Instance, Exec;
      var out;
      out, id := Create();
      FinishedRan(engine.log, engine.state, id, name, Request());
    }

    lemma FreshWorking(id: VMID, o: Origin)
      requires engine.Valid() && id in engine.state.vms && engine.state.vms[id] == FreshVM(name, o)
      requires forall j :: j in engine.state.vms && engine.state.vms[j].name == name ==> j == id
      ensures Waiting(id, o, Instance(o), Commands(o), engine.budget, Locked)
    {
      hide LegalLog, State, Commands, Instance;
    }

    method Delete() returns (failed: bool)
      requires engine.Valid()
      modifies engine
      ensures engine.Valid() && old(engine.log) <= engine.log && engine.budget <= old(engine.budget)
      ensures Advanced(old(engine.state), engine.state, name)
      ensures !failed ==> Absent(engine.state, name)
      ensures failed ==> engine.budget < old(engine.budget)
    {
      hide LegalLog, State, NoWrites, Advanced, OnlyStopped, Keeps;
      ghost var v0 := engine.V();
      var vm, err := engine.GetVMByName(name);
      ghost var v1 := engine.V();
      KeepsAdvances(v0.state, v1.state, name);
      if err.Some? { return err.value != ENotFound; }
      OnlyOne(vm.value);
      err := engine.StopVM(vm.value, name);
      StoppedAdvances(v1.state, engine.state, vm.value, name);
      AdvancedTrans(v0.state, v1.state, engine.state, name);
      if err.Some? { return true; }
      ghost var v2 := engine.V();
      failed := AwaitDownAndRemove(vm.value);
      AdvancedTrans(v1.state, v2.state, engine.state, name);
      AdvancedTrans(v0.state, v1.state, engine.state, name);
      if !failed { AdvancedGone(v1.state, engine.state, vm.value, name); }
    }

    method AwaitDownAndRemove(id: VMID) returns (failed: bool)
      requires engine.Valid() && id in engine.state.vms
      requires engine.state.vms[id].name == name && engine.state.vms[id].stopping
      modifies engine
      ensures engine.Valid() && old(engine.log) <= engine.log && engine.budget <= old(engine.budget)
      ensures Advanced(old(engine.state), engine.state, name)
      ensures !failed ==> id !in engine.state.vms
      ensures failed ==> engine.budget < old(engine.budget)
    {
      hide LegalLog, State, NoWrites, Advanced;
      ghost var s2 := engine.state;
      var err := engine.WaitForVMStatus(id, "down", name);
      KeepsAdvances(s2, engine.state, name);
      if err.Some? { return true; }
      ghost var s3 := engine.state;
      err := engine.RemoveVM(id, name);
      KeepsAdvances(s3, engine.state, name);
      AdvancedTrans(s2, s3, engine.state, name);
      return err.Some? && err.value != ENotFound;
    }

    lemma OnlyOne(id: VMID)
      requires engine.Valid() && id in engine.state.vms && engine.state.vms[id].name == name
      ensures forall j :: j in engine.state.vms && engine.state.vms[j].name == name ==> j == id
    {
      hide LegalLog, State, ReachedByPrefix;
      AlwaysSafe(engine.log, |engine.log|);
      assert engine.log[..|engine.log|] == engine.log;
    }
  }
}
