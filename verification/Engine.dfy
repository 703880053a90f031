/** The oVirt engine as its clients see it: every call may be preceded by
    anything the others do, and may fail before or after its effect. */
module Engines {
  import opened Prelude
  import opened VMAddresses
  import opened Templates
  import opened VMParams
  import opened Plan
  import opened EngineLog

  function SizeOf(disks: seq<DiskAttachment>, diskID: string): nat {
    if disks == [] then 0
    else if disks[0].diskID == diskID then disks[0].provisionedSize
    else SizeOf(disks[1..], diskID)
  }

  lemma {:induction false} SizeOfAt(disks: seq<DiskAttachment>, i: nat)
    requires DistinctDisks(disks) && i < |disks|
    ensures SizeOf(disks, disks[i].diskID) == disks[i].provisionedSize
  {
    if i > 0 { SizeOfAt(disks[1..], i - 1); }
  }

  /** budget counts the misfortunes that may still happen: a call that fails, or
      a VM of the caller's name that someone else removes. With budget 0 nothing
      fails. Every call names the machine it is made for. */
  class Engine {
    var state: EngineState
    var budget: nat
    const templates: map<string, Template>
    const hosts: seq<Host>
    // The affinity groups, by cluster and name.
    const groups: set<(string, string)>
    const supportsAutoPinning: bool
    ghost var log: seq<Event>

    ghost predicate Valid()
      reads this
    {
      && LegalLog(log)
      && state == State(log)
      && IdsBelow(state)
      && forall t :: t in templates ==> WellFormed(templates[t])
    }

    ghost function V(): View
      reads this
    {
      View(state, log, budget)
    }

    // Nothing was written on behalf of the name.
    twostate predicate Undisturbed(name: string)
      reads this
    {
      Valid() && old(log) <= log && budget <= old(budget) && Calm(old(V()), V(), name)
    }

    constructor (ts: map<string, Template>, hs: seq<Host>, gs: set<(string, string)>, pinning: bool, misfortunes: nat)
      requires forall t :: t in ts ==> WellFormed(ts[t])
      ensures Valid() && log == [] && budget == misfortunes
      ensures templates == ts && hosts == hs && groups == gs && supportsAutoPinning == pinning
    {
      state, log, budget, templates := EMPTY, [], misfortunes, ts;
      hosts, groups, supportsAutoPinning := hs, gs, pinning;
    }

    // What everybody else may do between two calls made for this name: operate
    // on other names, let VMs change status, and remove VMs.
    method Interfere(ghost name: string)
      requires Valid()
      modifies this
      ensures Undisturbed(name)
    {
    }

    method Misfortune() returns (failed: bool)
      modifies this`budget
      ensures budget == if failed then old(budget) - 1 else old(budget)
    {
      failed := false;
      if * {
        if budget > 0 {
          failed := true;
          budget := budget - 1;
        }
      }
    }

    // The event happens, now.
    method Emit(e: Event)
      requires Valid() && Legal(state, e)
      modifies this`state, this`log
      ensures Valid() && log == old(log) + [e] && state == After(old(state), e)
    {
      hide Commands, Instance, State, LegalLog;
      Append(log, e);
      log := log + [e];
      state := After(state, e);
    }

    method GetVMByName(name: string) returns (vm: Option<VMID>, err: Option<Error>)
      requires Valid()
      modifies this
      ensures Undisturbed(name)
      ensures vm.Some? ==> vm.value in state.vms && state.vms[vm.value].name == name
      ensures err.None? <==> vm.Some?
      ensures err == Some(ENotFound) ==> Absent(state, name)
      ensures err == Some(EOther) ==> budget < old(budget)
    {
      Interfere(name);
      var failed := Misfortune();
      if failed { return None, Some(EOther); }
      if id :| id in state.vms && state.vms[id].name == name {
        return Some(id), None;
      }
      return None, Some(ENotFound);
    }

    method ListHosts(ghost name: string) returns (listed: seq<Host>, err: Option<Error>)
      requires Valid()
      modifies this
      ensures Undisturbed(name)
      ensures err.None? ==> listed == hosts
      ensures err.Some? ==> budget < old(budget)
    {
      Interfere(name);
      var failed := Misfortune();
      return hosts, if failed then Some(EOther) else None;
    }

    method GetAffinityGroupByName(clusterID: string, group: string, ghost name: string) returns (err: Option<Error>)
      requires Valid()
      modifies this
      ensures Undisturbed(name)
      ensures err.None? ==> (clusterID, group) in groups
      ensures err.Some? ==> budget < old(budget) || (clusterID, group) !in groups
    {
      err := Query(name);
      if err.None? && (clusterID, group) !in groups { err := Some(ENotFound); }
    }

    method SupportsFeature(ghost name: string) returns (supported: bool, err: Option<Error>)
      requires Valid()
      modifies this
      ensures Undisturbed(name)
      ensures err.None? ==> supported == supportsAutoPinning
      ensures err.Some? ==> budget < old(budget)
    {
      err := Query(name);
      supported := err.None? && supportsAutoPinning;
    }

    method GetTemplateByName(templateName: string, ghost name: string) returns (t: Option<Template>, err: Option<Error>)
      requires Valid()
      modifies this
      ensures Undisturbed(name)
      ensures err.None? ==> templateName in templates && t == Some(templates[templateName])
      ensures err.Some? ==> budget < old(budget) || templateName !in templates
    {
      Interfere(name);
      if templateName !in templates { return None, Some(ENotFound); }
      var failed := Misfortune();
      if failed { return None, Some(EOther); }
      return Some(templates[templateName]), None;
    }

    // Any read whose answer does not depend on the VM of the name.
    method Query(ghost name: string) returns (err: Option<Error>)
      requires Valid()
      modifies this
      ensures Undisturbed(name)
      ensures err.Some? ==> budget < old(budget)
    {
      Interfere(name);
      var failed := Misfortune();
      return if failed then Some(EOther) else None;
    }

    // Templates do not change: the attachments of one are what they were.
    method ListTemplateDiskAttachments(t: Template, ghost name: string)
      returns (disks: seq<DiskAttachment>, err: Option<Error>)
      requires Valid()
      modifies this
      ensures Undisturbed(name)
      ensures err.None? ==> disks == t.disks
      ensures err.Some? ==> budget < old(budget)
    {
      err := Query(name);
      disks := t.disks;
    }

    // Reading the VM itself: its consoles, disk attachments or interfaces.
    method Inspect(id: VMID, ghost name: string) returns (config: Option<Config>, err: Option<Error>)
      requires Valid()
      modifies this
      ensures Undisturbed(name)
      ensures err.None? ==> id in state.vms && config == Some(state.vms[id].config)
      ensures err.Some? ==> budget < old(budget) || id !in state.vms
    {
      err := Query(name);
      if err.Some? { return None, err; }
      if id !in state.vms { return None, Some(ENotFound); }
      config := Some(state.vms[id].config);
    }

    method GetDisk(id: VMID, diskID: string, ghost name: string) returns (size: nat, err: Option<Error>)
      requires Valid()
      modifies this
      ensures Undisturbed(name)
      ensures err.None? ==> id in state.vms && size == SizeOf(state.vms[id].config.disks, diskID)
      ensures err.Some? ==> budget < old(budget) || id !in state.vms
    {
      var config;
      config, err := Inspect(id, name);
      size := if config.Some? then SizeOf(config.value.disks, diskID) else 0;
    }

    // The addresses the VM reports, apart from the excluded ones.
    method GetVMIPAddresses(id: VMID, excluded: set<Range>, ghost name: string)
      returns (nics: map<string, seq<IP>>, err: Option<Error>)
      requires Valid()
      modifies this
      ensures Undisturbed(name)
      ensures err.None? ==> id in state.vms && nics == Usable(state.vms[id].addresses, excluded)
      ensures err.Some? ==> budget < old(budget) || id !in state.vms
    {
      err := Query(name);
      if err.Some? { return map[], err; }
      if id !in state.vms { return map[], Some(ENotFound); }
      nics := Usable(state.vms[id].addresses, excluded);
    }

    method WaitForVMStatus(id: VMID, status: string, ghost name: string) returns (err: Option<Error>)
      requires Valid() && id < state.nextId && (id in state.vms ==> state.vms[id].name == name)
      requires status == "down" || (id in state.vms ==> !state.vms[id].stopping)
      modifies this
      ensures Undisturbed(name)
      ensures err.None? ==> id in state.vms && state.vms[id].status == status
      ensures err.None? && status == "down" ==> state.vms[id].pending != Locked
      ensures err.Some? ==> budget < old(budget) || id !in state.vms
    {
      hide Commands, Instance, After, NoWrites, LegalLog, State;
      err := Query(name);
      if err.Some? { return; }
      if id !in state.vms { return Some(ENotFound); }
      ghost var log0, s := log, state;
      Emit(StatusChanged(id, status));
      NoWritesAppend(old(log), log0, StatusChanged(id, status), name);
      StatusKeeps(old(state), s, id, status, name);
    }

    // disk.WaitForOK, on a disk of the VM.
    method WaitForDiskOK(id: VMID, ghost name: string) returns (err: Option<Error>)
      requires Valid() && id < state.nextId && (id in state.vms ==> state.vms[id].name == name)
      modifies this
      ensures Undisturbed(name)
      ensures err.None? ==> id in state.vms && state.vms[id].pending != Resizing
      ensures err.Some? ==> budget < old(budget) || id !in state.vms
    {
      hide Commands, Instance, After, NoWrites, LegalLog, State;
      err := Query(name);
      if err.Some? { return; }
      if id !in state.vms { return Some(ENotFound); }
      ghost var log0, s := log, state;
      Emit(DiskReady(id));
      NoWritesAppend(old(log), log0, DiskReady(id), name);
      DiskKeeps(old(state), s, id, name);
    }

    /* ---- Writes: the caller shows that the protocol allows the event ---- */

    // The write took effect, or failed before or after it did.
    twostate predicate Wrote()
      reads this
    {
      Valid() && old(log) <= log && old(state).nextId <= state.nextId
    }

    // Some arguments are refused before anything is sent. Otherwise the instance
    // exists if there is no error, and may exist if there is one.
    method CreateVM(o: Origin, clusterID: string, templateID: string, params: ParamValues, name: string)
      returns (id: Option<VMID>, err: Option<Error>)
      requires Valid() && Absent(state, name)
      requires WellFormed(o.template) && o.machineName == name
      requires clusterID == o.spec.clusterId && templateID == o.template.id
      requires params == ExpectedParams(o.spec, o.ignition, o.machineName, o.hosts, o.template.disks)
      modifies this
      ensures Wrote() && budget <= old(budget)
      ensures err.None? ==> id.Some? && id.value in state.vms && state.vms[id.value] == FreshVM(name, o)
      ensures err.None? ==> forall j :: j in state.vms && state.vms[j].name == name ==> j == id.value
      ensures err.None? ==> !Refused(name, clusterID, templateID, params)
      ensures err.Some? ==> budget < old(budget) || Refused(name, clusterID, templateID, params)
    {
      hide Commands, Instance, State, LegalLog, Foreign, ExpectedParams, FreshVM;
      if Refused(name, clusterID, templateID, params) { return None, Some(EOther); }
      Interfere(name);
      var failed := Misfortune();
      if failed { return None, Some(EOther); }
      OnlyTheCreated(state, name, o);
      id := Some(state.nextId);
      Emit(Created(state.nextId, name, o));
      failed := Misfortune();
      if failed { return None, Some(EOther); }
      return id, None;
    }

    // The next write of the VM's command list.
    method Configure(id: VMID, cmd: Command, ghost name: string) returns (err: Option<Error>)
      requires Valid() && id < state.nextId
      requires id in state.vms ==>
                 var v := state.vms[id];
                 v.name == name && !v.stopping && v.pending == Idle && v.todo != [] && v.todo[0] == cmd
      modifies this
      ensures Wrote() && Charged(old(V()), V(), name)
      ensures forall j :: j in state.vms && state.vms[j].name == name && j != id ==>
                j in old(state).vms && Like(old(state).vms[j], state.vms[j])
      ensures err.None? ==> id in state.vms && id in old(state).vms && Like(Stepped(old(state).vms[id]), state.vms[id])
      ensures err.Some? ==> budget < old(budget) || id !in state.vms
    {
      hide Commands, Instance, After, Foreign, State, LegalLog;
      Interfere(name);
      if id !in state.vms { return Some(ENotFound); }
      var failed := Misfortune();
      if failed { return Some(EOther); }
      ghost var s := state;
      Emit(Configured(id, cmd));
      ConfiguredKeeps(old(state), s, id, cmd, name);
      failed := Misfortune();
      return if failed then Some(EOther) else None;
    }

    method StopVM(id: VMID, ghost name: string) returns (err: Option<Error>)
      requires Valid() && id < state.nextId && (id in state.vms ==> state.vms[id].name == name)
      modifies this
      ensures Wrote() && Charged(old(V()), V(), name)
      ensures OnlyStopped(old(state), state, id, name)
      ensures err.None? ==> id in state.vms && state.vms[id].stopping && state.vms[id].name == name
      ensures err.Some? ==> budget < old(budget) || id !in state.vms
    {
      hide Commands, Instance, Foreign, State, LegalLog;
      Interfere(name);
      if id !in state.vms { return Some(ENotFound); }
      var failed := Misfortune();
      if failed { return Some(EOther); }
      Emit(Stopped(id));
      failed := Misfortune();
      return if failed then Some(EOther) else None;
    }

    method RemoveVM(id: VMID, ghost name: string) returns (err: Option<Error>)
      requires Valid() && id < state.nextId
      requires id in state.vms ==>
                 state.vms[id].name == name && state.vms[id].stopping && state.vms[id].status == "down"
      modifies this
      ensures Wrote() && budget <= old(budget) && Keeps(old(state), state, name)
      ensures err.None? || err == Some(ENotFound) ==> id !in state.vms
      ensures err == Some(EOther) ==> budget < old(budget)
    {
      hide Commands, Instance, Foreign, State, LegalLog;
      Interfere(name);
      if id !in state.vms { return Some(ENotFound); }
      var failed := Misfortune();
      if failed { return Some(EOther); }
      Emit(Removed(id));
      failed := Misfortune();
      return if failed then Some(EOther) else None;
    }
  }
}
