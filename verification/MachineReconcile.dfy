/** One machine operation: the Machine-object side of machineScope. */
module MachineReconcilers {
  import opened Prelude
  import opened MergePatch
  import opened MachineDocs
  import opened MachineStores
  import opened ReconciledDocs
  import opened VMAddresses
  import opened EngineLog
  import opened Engines
  import Decimal

  // One reading of the VM: the engine's state at that moment, the address chosen
  // for it, if one was looked for, and the engine's state when it was.
  datatype Reading = Reading(at: EngineState, id: VMID, ip: Option<string>, looked: EngineState) {
    ghost predicate Of(name: string) {
      id in at.vms && at.vms[id].name == name
    }

    function Id(): string {
      Decimal.Render(id)
    }

    function Status(): string {
      if id in at.vms then at.vms[id].status else ""
    }

    // An address is looked up for a VM that is up or migrating.
    predicate Reachable() {
      Status() == "up" || Status() == "migrating"
    }

    // The address is one the VM reports, or empty exactly if it reports none.
    ghost predicate Located(excluded: set<string>) {
      ip.Some? && id in looked.vms && Chosen(ip.value, Usable(looked.vms[id].addresses, Ranges(excluded)))
    }

    ghost predicate Reported(name: string, excluded: set<string>) {
      && Of(name) && (Reachable() || Status() == "down")
      && (if Reachable() then Located(excluded) else ip.None?)
    }
  }

  // The engine was in this state at some moment while its log grew from log0 to log.
  ghost predicate Moment(s: EngineState, log0: seq<Event>, log: seq<Event>) {
    exists k :: |log0| <= k <= |log| && s == State(log[..k])
  }

  ghost predicate Within(r: Reading, log0: seq<Event>, log: seq<Event>) {
    Moment(r.at, log0, log) && Moment(r.looked, log0, log)
  }

  /** The versions of the Machine that one operation's patches met: at1 is what the
      first was merged into, first what it left, and at2 what the second was
      merged into. */
  datatype Patching = Patching(at1: nat, first: nat, at2: nat)

  // The first patch took effect, and the second one arrived: n versions were on
  // record before, and what lies between came from others.
  ghost predicate FirstSent(api: MachineAPI, n: nat, original: Copy, doc: Json, sent: Patching)
    reads api
  {
    var hist, at1, first, at2 := api.hist, sent.at1, sent.first, sent.at2;
    && original.doc.Obj? && doc.Obj?
    && 0 < n && api.OnlyOthers(n - 1, at1) && api.OnlyOthers(first, at2)
    && (first == at1 || (first == at1 + 1 && first !in api.foreign))
    && hist[first].doc == MainPatched(hist[at1].doc, original.doc, doc)
  }

  /** Both patches took effect, one after the other. A first patch that left
      another version than the base's makes the second one depend on it. */
  ghost predicate Patched(api: MachineAPI, n: nat, original: Copy, doc: Json, sent: Patching)
    reads api
  {
    var hist, first, at2 := api.hist, sent.first, sent.at2;
    && FirstSent(api, n, original, doc, sent)
    && |hist| <= at2 + 2 && hist[|hist| - 1] == api.stored && (at2 + 1 < |hist| ==> at2 + 1 !in api.foreign)
    && api.stored.doc == StatusPatched(hist[at2].doc, original.doc, WithStatusOf(hist[first].doc, doc))
    && (hist[first].version != original.version ==> at2 == first)
  }

  // With a single writer both patches met what was stored when the call began.
  lemma PatchedQuietly(api: MachineAPI, n: nat, original: Copy, doc: Json, sent: Patching)
    requires Patched(api, n, original, doc, sent) && api.quiet && original == api.hist[n - 1]
    ensures api.stored.doc == Persisted(original.doc, doc)
  {
    hide MainPatched, StatusPatched, WithStatusOf;
  }

  // The first patch left another version than the base's, and someone else stored
  // a further one before the second patch arrived.
  ghost predicate Overtaken(api: MachineAPI, n: nat, original: Copy, doc: Json, sent: Patching)
    reads api
  {
    && FirstSent(api, n, original, doc, sent)
    && sent.first < sent.at2 && api.hist[sent.first].version != original.version
  }

  // The reconcile changed the field, and gave it a value that a patch can carry.
  ghost predicate Changed(original: Json, doc: Json, p: Path) {
    p != [] && Spine(doc, p) && At(original, p) != At(doc, p) && Leaf(At(doc, p))
  }

  /** After success the store holds the reconciled value of the provider id, the
      annotation and every status field that the reconcile changed, whoever else
      wrote in between. */
  lemma ChangedFieldsHeld(api: MachineAPI, n: nat, original: Copy, doc: Json, sent: Patching, p: Path)
    requires api.Valid() && Patched(api, n, original, doc, sent)
    requires Changed(original.doc, doc, p) && (p in {PROVIDER_ID, VM_ID} || p[0] == "status")
    ensures At(api.stored.doc, p) == At(doc, p)
  {
    hide At, Spine, Good, MainPatched, StatusPatched, WithStatusOf;
    TwoPhase(api.hist[sent.at1].doc, api.hist[sent.at2].doc, original.doc, doc, p);
  }

  /** If the base was a stored version, that goes for every field the reconcile
      changed: had the first patch left the base's version, it would have left its
      fields too, so the second patch depended on the first. */
  lemma AllChangedFieldsHeld(api: MachineAPI, n: nat, original: Copy, doc: Json, sent: Patching, p: Path)
    requires api.Valid() && Patched(api, n, original, doc, sent) && original in api.hist
    requires Changed(original.doc, doc, p)
    ensures At(api.stored.doc, p) == At(doc, p)
  {
    hide At, Spine, Good, MainPatched, StatusPatched, WithStatusOf, SameProtected;
    var hist := api.hist;
    TwoPhase(hist[sent.at1].doc, hist[sent.at2].doc, original.doc, doc, p);
    if p[0] != "status" && hist[sent.first].version == original.version {
      var i :| 0 <= i < |hist| && hist[i] == original;
      api.OneVersion(i, sent.first);
    }
  }

  /** A field the reconcile did not change keeps the value each patch met. */
  lemma UnchangedFieldsKept(api: MachineAPI, n: nat, original: Copy, doc: Json, sent: Patching, p: Path)
    requires api.Valid() && Patched(api, n, original, doc, sent)
    requires p != [] && Spine(doc, p) && At(original.doc, p) == At(doc, p)
    ensures At(api.stored.doc, p) == At(api.hist[sent.at2].doc, p)
    ensures At(api.hist[sent.first].doc, p) == At(api.hist[sent.at1].doc, p)
  {
    hide At, Spine, Good, MainPatched, StatusPatched, WithStatusOf, SameProtected;
    TwoPhase(api.hist[sent.at1].doc, api.hist[sent.at2].doc, original.doc, doc, p);
  }

  // Without a fault, reconcileMachine fails only on a VM that is missing,
  ghost predicate Missed(engine: Engine, name: string, read: Reading, log0: seq<Event>)
    reads engine
  {
    Moment(read.at, log0, engine.log) && Absent(read.at, name)
  }

  // or one in a passing state, on a cluster address that does not parse, or on a
  // provider status that does not unmarshal.
  ghost predicate Hampered(api: MachineAPI, read: Reading, doc: Json) {
    || (if read.Reachable() then !AllParse(api.infrastructure.Addresses()) else read.Status() != "down")
    || !Unmarshals(ProviderStatusOf(doc))
  }

  class MachineReconciler {
    const engine: Engine
    const name: string
    const api: MachineAPI
    const original: Copy
    var machine: Copy

    ghost predicate Valid()
      reads this, engine, api
    {
      && engine.Valid() && api.Valid()
      && api.Known(original) && original.doc.Obj?
      && machine.doc.Obj? && Paired(machine.doc)
    }

    // newMachineScope: the base of the patches is a copy of the Machine as it is now.
    constructor (e: Engine, n: string, a: MachineAPI, m: Copy)
      requires e.Valid() && a.Valid() && a.Known(m)
      ensures Valid() && engine == e && name == n && api == a && machine == m && original == m
    {
      hide LegalLog, State, Paired, Good;
      engine, name, api, machine, original := e, n, a, m, m;
      new;
      a.KnownPaired(m);
    }

    // The first address of whichever interface comes first; an empty one when
    // none has any, because wrapping the nil error of the search gives no error.
    method FindUsableInternalAddress(id: VMID, exclude: set<string>)
      returns (ip: Option<string>, ghost looked: EngineState)
      requires engine.Valid() && id in engine.state.vms && engine.state.vms[id].name == name
      modifies engine
      ensures engine.Undisturbed(name)
      ensures ip.Some? ==>
                && Moment(looked, old(engine.log), engine.log) && AllParse(exclude)
                && id in looked.vms && Chosen(ip.value, Usable(looked.vms[id].addresses, Ranges(exclude)))
      ensures ip.None? ==> engine.budget < old(engine.budget) || !AllParse(exclude)
    {
      hide LegalLog, State, NoWrites, Usable, ParseRange;
      looked := engine.state;
      CalmRefl(engine.V(), name);
      var unchecked, ranges := exclude, {};
      while unchecked != {}
        invariant unchecked <= exclude && AllParse(exclude - unchecked) && ranges == Ranges(exclude - unchecked)
        modifies {}
      {
        var a :| a in unchecked;
        var range := ParseRange(a);
        if range.None? { return None, looked; }
        unchecked := unchecked - {a};
        ranges := ranges + {range.value};
      }
      assert exclude - unchecked == exclude;
      var nics, err := engine.GetVMIPAddresses(id, ranges, name);
      if err.Some? { return None, looked; }
      looked := engine.state;
      MomentNow(old(engine.log), engine.log);
      ip := FirstAddress(nics);
    }

    method FirstAddress(nics: map<string, seq<IP>>) returns (ip: Option<string>)
      ensures ip.Some? && Chosen(ip.value, nics)
    {
      var rest := nics.Keys;
      while rest != {}
        invariant rest <= nics.Keys && forall n :: n in nics && n !in rest ==> nics[n] == []
      {
        var n :| n in rest;
        for i := 0 to |nics[n]|
          invariant i == 0
        {
          return Some(Text(nics[n][i]));
        }
        rest := rest - {n};
      }
      return Some("");
    }

    // The cluster's own addresses, which no machine may report as its own.
    method GetClusterAddress() returns (addresses: Option<set<string>>)
      modifies api`faults
      ensures api.faults <= old(api.faults) && (addresses.None? ==> api.faults < old(api.faults))
      ensures addresses.Some? ==> addresses.value == api.infrastructure.Addresses()
    {
      var failed := api.Misfortune();
      addresses := if failed then None else Some(api.infrastructure.Addresses());
    }

    method ReconcileMachineNetwork(id: VMID, status: string)
      returns (failed: bool, ghost ip: Option<string>, ghost looked: EngineState)
      requires Valid() && id in engine.state.vms && engine.state.vms[id].name == name
      modifies this`machine, engine, api`faults
      ensures Valid() && engine.Undisturbed(name) && machine.version == old(machine).version
      ensures api.faults <= old(api.faults) && Moment(looked, old(engine.log), engine.log)
      ensures machine.doc == Located(old(machine).doc, name, ip)
      ensures !failed ==> (status == "up" || status == "migrating" || status == "down")
      ensures !failed ==> (ip.Some? <==> status == "up" || status == "migrating")
      ensures ip.Some? ==>
                var report := if id in looked.vms then looked.vms[id].addresses else map[];
                var excluded := Ranges(api.infrastructure.Addresses());
                && id in looked.vms && Chosen(ip.value, Usable(report, excluded))
                && (ip.value == "" <==> Addressless(report, excluded))
                && (ip.value != "" <==> Findable(ip.value, report, excluded))
                && Lists(machine.doc, "InternalDNS", name) && Lists(machine.doc, "InternalIP", ip.value)
      ensures failed ==> ip.None?
      ensures ip.Some? ==> AllParse(api.infrastructure.Addresses())
      ensures failed ==>
                || !(status == "up" || status == "migrating" || status == "down")
                || ((status == "up" || status == "migrating") && !AllParse(api.infrastructure.Addresses()))
                || engine.budget < old(engine.budget) || api.faults < old(api.faults)
    {
      hide LegalLog, State, Calm, At, Put, Moment, Lists, Usable, Findable, Chosen, Addressless, AllParse, Ranges;
      CalmRefl(engine.V(), name);
      MomentNow(engine.log, engine.log);
      failed, ip, looked := false, None, engine.state;
      if status == "up" || status == "migrating" {
      } else if status == "down" {
        return;
      } else {
        return true, None, looked;
      }
      var exclude := GetClusterAddress();
      if exclude.None? { return true, None, looked; }
      var address;
      ghost var seen;
      address, seen := FindUsableInternalAddress(id, exclude.value);
      if address.None? {
        MomentLater(looked, old(engine.log), old(engine.log), engine.log);
        return true, None, looked;
      }
      LocatedFields(machine.doc, name, address, PROVIDER_ID);
      LocatedFields(machine.doc, name, address, VM_ID);
      LocatedAddresses(machine.doc, name, address.value);
      EmptyExactly(address.value, seen.vms[id].addresses, Ranges(exclude.value));
      ip, looked := address, seen;
      machine := machine.(doc := Put(machine.doc, ADDRESSES, Addresses(name, address.value)));
    }

    lemma LocatedAddresses(doc: Json, name: string, ip: string)
      ensures var d := Located(doc, name, Some(ip)); Lists(d, "InternalDNS", name) && Lists(d, "InternalIP", ip)
    {
      hide At, Put, Lists;
      PutAt(doc, ADDRESSES, Addresses(name, ip));
      AddressesListed(Located(doc, name, Some(ip)), name, ip);
    }

    method ReconcileMachineProviderStatus(status: string, id: string) returns (failed: bool)
      requires Valid()
      modifies this`machine
      ensures Valid() && machine.version == old(machine).version
      ensures machine.doc == if failed then old(machine).doc else Reported(old(machine).doc, id, status)
      ensures failed <==> !Unmarshals(ProviderStatusOf(old(machine).doc))
    {
      hide LegalLog, State, At, Put, Unmarshals;
      var providerStatus := ProviderStatusOf(machine.doc);
      if !Unmarshals(providerStatus) { return true; }
      ReportedKeeps(machine.doc, id, status, PROVIDER_ID);
      ReportedKeeps(machine.doc, id, status, VM_ID);
      ReportedFields(machine.doc, id, status);
      machine := machine.(doc := Put(machine.doc, PROVIDER_STATUS, Marshalled(providerStatus, id, status)));
      return false;
    }

    method ReconcileMachineProviderID(id: string)
      modifies this`machine
      ensures machine == old(machine).(doc := Put(old(machine).doc, PROVIDER_ID, Str(PROVIDER_ID_PREFIX + id)))
    {
      machine := machine.(doc := Put(machine.doc, PROVIDER_ID, Str(PROVIDER_ID_PREFIX + id)));
    }

    method ReconcileMachineAnnotations(status: string, id: string)
      modifies this`machine
      ensures machine == old(machine).(doc := Put(Put(old(machine).doc, STATE_ANNOTATION, Str(status)), VM_ID, Str(id)))
    {
      machine := machine.(doc := Put(machine.doc, STATE_ANNOTATION, Str(status)));
      machine := machine.(doc := Put(machine.doc, VM_ID, Str(id)));
    }

    // A failure may leave the object untouched, identified, or located as well.
    method ReconcileMachine() returns (failed: bool, ghost read: Reading)
      requires Valid()
      modifies this`machine, engine, api`faults
      ensures Valid() && engine.Undisturbed(name) && machine.version == old(machine).version
      ensures api.faults <= old(api.faults) && Within(read, old(engine.log), engine.log)
      ensures failed ==>
                || engine.budget < old(engine.budget) || api.faults < old(api.faults)
                || Missed(engine, name, read, old(engine.log))
                || (read.Of(name) && Hampered(api, read, old(machine).doc))
      ensures !old(Absent(engine.state, name)) && engine.budget == old(engine.budget) ==> !Absent(read.at, name)
      ensures Keeps(old(engine.state), read.at, name)
      ensures !failed ==>
                && read.Reported(name, api.infrastructure.Addresses()) && !Hampered(api, read, old(machine).doc)
                && machine.doc == Reconciled(old(machine).doc, name, read.Id(), read.Status(), read.ip)
      // Once the VM was read, the object names it.
      ensures failed && engine.budget == old(engine.budget) && read.Of(name) ==>
                machine.doc == Located(Identified(old(machine).doc, read.Id(), read.Status()), name, read.ip)
      ensures failed && machine != old(machine) ==>
                && read.Of(name)
                && machine.doc == Located(Identified(old(machine).doc, read.Id(), read.Status()), name, read.ip)
    {
      hide LegalLog, State, Calm, At, Put, Spine, Marshalled, Keeps, Moment, Recorded, Good, MachineAPI.Shape;
      hide Usable, Findable, Chosen, AllParse, Addressless, Ranges;
      ghost var v0 := engine.V();
      var vm, err := engine.GetVMByName(name);
      MomentNow(v0.log, engine.log);
      read := Reading(engine.state, 0, None, engine.state);
      if err.Some? {
        assert err.value.ENotFound? || err.value.EOther?;
        CalmAbsent(v0, engine.V(), name);
        CalmKeeps(v0, engine.V(), name);
        return true, read;
      }
      var instance := vm.value;
      // The VM object is a copy of what the engine answered.
      var status := engine.state.vms[instance].status;
      ghost var v1 := engine.V();
      CalmKeeps(v0, v1, name);
      var id := Decimal.Render(instance);
      read := read.(id := instance);
      ReconcileMachineProviderID(id);
      ReconcileMachineAnnotations(status, id);
      IdentifiedFields(old(machine).doc, id, status);
      ghost var ip, looked;
      failed, ip, looked := ReconcileMachineNetwork(instance, status);
      CalmTrans(v0, v1, engine.V(), name);
      MomentLater(read.at, v0.log, v1.log, engine.log);
      MomentEarlier(looked, v0.log, v1.log, engine.log);
      read := read.(ip := ip, looked := looked);
      if failed { return; }
      SameProviderStatus(old(machine).doc, id, status, name, ip);
      failed := ReconcileMachineProviderStatus(status, id);
    }

    /** The first patch. The status is copied before it, because the response
        replaces the object, and put back for the second. */
    method PatchResource(ghost id: string) returns (failed: bool, ghost at: nat)
      requires Valid() && Stamped(machine.doc, id) && Spine(machine.doc, INSTANCE_ID)
      modifies this`machine, api
      ensures Valid() && api.Grew() && api.Arrived(at, |old(api.hist)|)
      ensures failed ==> machine == old(machine)
      ensures failed && machine.version == original.version ==> api.faults < old(api.faults)
      ensures !failed ==>
                && api.stored.doc == MainPatched(api.hist[at].doc, original.doc, old(machine).doc)
                && machine == Copy(WithStatusOf(api.stored.doc, old(machine).doc), api.stored.version)
                && WasProvider(api.hist, |api.hist|, id)
      ensures api.quiet && MainPatched(old(api.stored).doc, original.doc, old(machine).doc) == old(api.stored).doc ==>
                api.stored == old(api.stored) && api.hist == old(api.hist)
    {
      hide LegalLog, State, Good, At, Spine, Stamped, Paired, WithStatusOf, MainPatched, WasProvider, SameProtected;
      var statusCopy := machine.doc;
      api.KnownPaired(original);
      var resp;
      resp, at := api.Patch(machine, original, id);
      RecordedGrows(old(api.hist), api.hist, original);
      if resp.None? { return true, at; }
      machine := resp.value;
      FirstPatched(api.hist[at].doc, statusCopy, id);
      StoredPaired();
      RestoredStatus(api.stored.doc, statusCopy);
      machine := machine.(doc := WithStatusOf(machine.doc, statusCopy));
      failed := false;
    }

    /** The second patch, of the object whose version the first one left. Without a
        fault it fails only if others stored a version in between. */
    method PatchStatus(ghost id: string) returns (failed: bool, ghost at: nat)
      requires Valid() && machine.version == api.stored.version
      requires Spine(machine.doc, INSTANCE_ID) && At(machine.doc, INSTANCE_ID) == Some(Str(id))
      requires WasProvider(api.hist, |api.hist|, id)
      modifies this`machine, api
      ensures Valid() && api.Grew() && api.Arrived(at, |old(api.hist)|)
      ensures !failed ==>
                && machine == api.stored
                && api.stored.doc == StatusPatched(api.hist[at].doc, original.doc, old(machine).doc)
                && (old(machine).version != original.version ==> at == |old(api.hist)| - 1)
      ensures failed ==>
                || api.faults < old(api.faults)
                || (old(machine).version != original.version && |old(api.hist)| <= at && |api.hist| == at + 1)
      ensures api.quiet && StatusPatched(old(api.stored).doc, original.doc, old(machine).doc) == old(api.stored).doc ==>
                api.stored == old(api.stored) && api.hist == old(api.hist)
    {
      hide LegalLog, State, Good, At, Spine, Stamped, Paired, WithStatusOf, StatusPatched, WasProvider, SameProtected;
      hide Recorded, MachineAPI.Shape, Between;
      ghost var before := api.hist;
      api.Newest();
      var resp;
      resp, at := api.PatchStatus(machine, original, id);
      RecordedGrows(before, api.hist, original);
      api.Newest();
      if api.hist[at].version == before[|before| - 1].version { api.OneVersion(at, |before| - 1); }
      failed := resp.None?;
      if !failed { machine := resp.value; }
    }

    method PatchMachine(ghost id: string) returns (failed: bool, ghost sent: Patching)
      requires Valid() && Stamped(machine.doc, id)
      requires Spine(machine.doc, INSTANCE_ID) && At(machine.doc, INSTANCE_ID) == Some(Str(id))
      modifies this`machine, api
      ensures Valid() && api.Grew()
      ensures !failed ==> machine == api.stored && Patched(api, |old(api.hist)|, original, old(machine).doc, sent)
      ensures failed && old(machine).version == original.version ==>
                || api.faults < old(api.faults)
                || (Overtaken(api, |old(api.hist)|, original, old(machine).doc, sent) && |api.hist| == sent.at2 + 1)
      ensures old(api.quiet && Unmoved(api.stored.doc)) ==> api.stored == old(api.stored) && api.hist == old(api.hist)
    {
      hide LegalLog, State, Good, At, Spine, Stamped, Paired, WithStatusOf, MainPatched, StatusPatched, WasProvider;
      hide Recorded, SameProtected, MachineAPI.Shape, Between;
      ghost var m, n := machine.doc, |api.hist|;
      sent := Patching(0, 0, 0);
      ghost var at1;
      failed, at1 := PatchResource(id);
      if failed { return; }
      ghost var first, foreign := api.hist, api.foreign;
      api.Newest();
      RestoredStatusOf(api.stored.doc, m);
      ghost var at2;
      failed, at2 := PatchStatus(id);
      StillBetween(first, foreign, n - 1, at1, api.hist, api.foreign);
      api.Newest();
      sent := Patching(at1, |first| - 1, at2);
    }

    // Both patches of the object would leave this document as it is.
    ghost predicate Unmoved(doc: Json)
      reads this
    {
      && MainPatched(doc, original.doc, machine.doc) == doc
      && StatusPatched(doc, original.doc, WithStatusOf(doc, machine.doc)) == doc
    }

    // Reconciling an up-to-date document moves nothing.
    lemma Repeated(id: string, status: string, ip: Option<string>)
      requires machine.doc == Reconciled(original.doc, name, id, status, ip)
      ensures UpToDate(original.doc, name, id, status, ip) ==> Unmoved(original.doc)
    {
      hide Reconciled, MainPatched, StatusPatched, WithStatusOf;
      if UpToDate(original.doc, name, id, status, ip) {
        RepeatChangesNothing(original.doc, name, id, status, ip);
      }
    }

    lemma StoredPaired()
      requires api.Valid()
      ensures api.stored.doc.Obj? && Paired(api.stored.doc)
    {
    }

    // After the first patch the provider id of the object has been persisted.
    lemma FirstPatched(before: Json, doc: Json, id: string)
      requires api.Valid() && api.Known(original) && before.Obj? && doc.Obj? && Stamped(doc, id)
      requires api.stored.doc == MainPatched(before, original.doc, doc)
      ensures WasProvider(api.hist, |api.hist|, id)
    {
      hide At, Spine, Good, MainPatched;
      MainField(before, original.doc, doc, PROVIDER_ID);
      if At(original.doc, PROVIDER_ID) == At(doc, PROVIDER_ID) {
        api.KnownPaired(original);
      } else {
        assert api.hist[|api.hist| - 1] == api.stored;
      }
    }
  }

  // Up to here the provider status is the one the operation started with.
  lemma SameProviderStatus(doc: Json, id: string, status: string, name: string, ip: Option<string>)
    requires doc.Obj?
    ensures ProviderStatusOf(Located(Identified(doc, id, status), name, ip)) == ProviderStatusOf(doc)
  {
    hide At, Spine, Apart;
    IdentifiedFields(doc, id, status);
    IdentifiedKeeps(doc, id, status, PROVIDER_STATUS);
    StatusPathsApart();
    LocatedFields(Identified(doc, id, status), name, ip, PROVIDER_STATUS);
  }

  lemma RestoredStatusOf(resp: Json, doc: Json)
    requires resp.Obj? && doc.Obj? && Spine(doc, INSTANCE_ID)
    ensures var m := WithStatusOf(resp, doc);
            m.Obj? && Spine(m, INSTANCE_ID) && At(m, INSTANCE_ID) == At(doc, INSTANCE_ID)
  {
  }

  // Putting the copied status back keeps the identity of the response.
  lemma RestoredStatus(resp: Json, doc: Json)
    requires resp.Obj? && doc.Obj? && Paired(resp)
    ensures WithStatusOf(resp, doc).Obj? && Paired(WithStatusOf(resp, doc))
  {
  }

  lemma MomentNow(log0: seq<Event>, log: seq<Event>)
    requires log0 <= log
    ensures Moment(State(log), log0, log)
  {
    assert log[..|log|] == log;
  }

  lemma MomentLater(s: EngineState, log0: seq<Event>, log1: seq<Event>, log: seq<Event>)
    requires Moment(s, log0, log1) && log1 <= log
    ensures Moment(s, log0, log)
  {
    hide State;
    var k :| |log0| <= k <= |log1| && s == State(log1[..k]);
    assert log[..k] == log1[..k];
  }

  lemma MomentEarlier(s: EngineState, log0: seq<Event>, log1: seq<Event>, log: seq<Event>)
    requires Moment(s, log1, log) && log0 <= log1
    ensures Moment(s, log0, log)
  {
  }
}
