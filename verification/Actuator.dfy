/** The operations the machine controller calls, and how their errors are persisted. */
module Actuators {
  import opened Prelude
  import opened ProviderSpecs
  import opened Templates
  import opened VMParams
  import opened Plan
  import opened EngineLog
  import opened Engines
  import opened Validations
  import opened MergePatch
  import opened MachineDocs
  import opened MachineStores
  import opened MachineScopes
  import opened ReconciledDocs
  import opened MachineReconcilers

  datatype Reason = InvalidConfiguration | CreateError | UpdateError

  // A plain error carries no machine error for the machine controller to see.
  datatype Result = Ok | MachineError(reason: Reason) | PlainError | Panic

  function ReasonText(r: Reason): string {
    match r
    case InvalidConfiguration => "InvalidConfiguration"
    case CreateError => "CreateError"
    case UpdateError => "UpdateError"
  }

  const ERROR_REASON: Path := ["status", "errorReason"]
  const ERROR_MESSAGE: Path := ["status", "errorMessage"]

  // The VM is what the whole command list makes of the instance: the one the spec
  // declares, or an instance without a bootable disk that was never started.
  ghost predicate Delivered(s: EngineState, id: VMID, name: string, o: Origin) {
    && id in s.vms && s.vms[id].name == name && s.vms[id].origin == o
    && s.vms[id].config == Exec(Instance(o), Commands(o))
    && (Complete(o) ==> s.vms[id].config == ExpectedVM(o))
    && (!Complete(o) ==> LastBootable(o.template.disks).None? && !s.vms[id].config.started)
  }

  // A later reading of the name finds the VM that create delivered.
  lemma FinishedStays(log: seq<Event>, s: EngineState, id: VMID, name: string, o: Origin, t: EngineState, found: VMID)
    requires LegalLog(log) && s == State(log)
    requires Finished(s, id, name, o) && Keeps(s, t, name) && found in t.vms && t.vms[found].name == name
    ensures found == id && Delivered(t, id, name, o)
  {
    hide LegalLog, State, ReachedByPrefix, ExpectedVM, Complete, Exec, Commands, Instance;
    AlwaysSafe(log, |log|);
    assert log[..|log|] == log;
    FinishedRan(log, s, id, name, o);
  }

  // The VM was finished, and up unless it has no bootable disk, before it was read.
  ghost predicate SinceFinished(read: Reading, name: string, o: Origin, log0: seq<Event>, log: seq<Event>) {
    exists k :: |log0| <= k <= |log| && Finished(State(log[..k]), read.id, name, o) && Moment(read.at, log[..k], log)
  }

  // The cached client as the actuator sees it: each Get may fail while outages last.
  class Connection {
    var outages: nat
    var attempts: nat

    constructor (misfortunes: nat)
      ensures outages == misfortunes && attempts == 0
    {
      outages, attempts := misfortunes, 0;
    }

    method Get() returns (failed: bool)
      modifies this
      ensures attempts == old(attempts) + 1
      ensures outages == if failed then old(outages) - 1 else old(outages)
    {
      attempts := attempts + 1;
      failed := false;
      if * {
        if outages > 0 {
          failed := true;
          outages := outages - 1;
        }
      }
    }
  }

  class OvirtActuator {
    const engine: Engine
    const api: MachineAPI
    const connection: Connection

    ghost predicate Valid()
      reads this, engine, api
    {
      engine.Valid() && api.Valid()
    }

    constructor (e: Engine, a: MachineAPI, c: Connection)
      requires e.Valid() && a.Valid()
      ensures Valid() && engine == e && api == a && connection == c
    {
      engine, api, connection := e, a, c;
    }

    // Without a connection, an operation leaves the engine alone and reports this
    // reason, unless the error is lost.
    twostate predicate Cut(result: Result, reason: Reason)
      reads engine, connection
    {
      && connection.outages <= old(connection.outages)
      && (connection.outages < old(connection.outages) ==>
            && result in {MachineError(reason), PlainError}
            && engine.log == old(engine.log) && engine.budget == old(engine.budget))
    }

    function Support(): Support {
      if engine.supportsAutoPinning then Supported else Unsupported
    }

    // The engine is asked about autopinning only once the first checks passed.
    // Without an error the answer is right; asking may fail.
    method Validate(spec: ProviderSpec, ghost name: string) returns (err: Option<ValidationError>)
      requires engine.Valid()
      modifies engine
      ensures engine.Undisturbed(name)
      ensures err == ValidateMachine(spec, Support()) || (err.Some? && engine.budget < old(engine.budget))
      ensures !BasicsOk(spec) || !NamesPolicy(spec) ==>
                engine.log == old(engine.log) && engine.budget == old(engine.budget)
    {
      hide LegalLog, State, Calm;
      CalmRefl(engine.V(), name);
      var answer := CheckFailed;
      if BasicsOk(spec) && NamesPolicy(spec) {
        var supported, failed := engine.SupportsFeature(name);
        answer := if failed.Some? then CheckFailed else if supported then Supported else Unsupported;
      }
      return ValidateMachine(spec, answer);
    }

    /** The error goes into the status of the object, and the object is sent as an
        ordinary update: the server ignores the status it carries. When that update
        fails, the machine error is lost. */
    method HandleMachineError(machine: Copy, reason: Reason) returns (result: Result, ghost at: nat)
      requires api.Valid() && machine.doc.Obj? && Paired(machine.doc)
      modifies api
      ensures api.Grew() && api.Arrived(at, |old(api.hist)|) && result in {MachineError(reason), PlainError}
      ensures result == MachineError(reason) ==>
                api.hist[at].version == machine.version && Persisting(machine.doc, api.hist[at].doc)
      // With a single writer and no fault, the error is lost exactly on a stale object.
      ensures api.quiet && api.faults == old(api.faults) ==>
                (result == MachineError(reason) <==> machine.version == old(api.stored).version)
    {
      hide Good, At, Put, Paired, SameProtected;
      var message: string := *;
      ErrorKeepsPaired(machine.doc, ReasonText(reason), message);
      var doc := WithError(machine.doc, ReasonText(reason), message);
      var resp;
      resp, at := api.Update(machine.(doc := doc));
      if resp.None? { return PlainError, at; }
      ghost var before := api.hist[at].doc;
      forall p: Path | p != []
        ensures At(api.stored.doc, p) == At(if p[0] == "status" then before else machine.doc, p)
      {
        MainOnly(machine.doc, ReasonText(reason), message, before, p);
      }
      result := MachineError(reason);
    }

    // Outside the status the object replaced the document before it; the status
    // stayed, so the error was not persisted.
    ghost predicate Persisting(doc: Json, before: Json)
      reads api
    {
      before.Obj? && forall p :: p != [] ==> At(api.stored.doc, p) == At(if p[0] == "status" then before else doc, p)
    }

    // A reconcile that failed after it read the VM: what it came to assign is stored
    // together with the error.
    method GiveUp(partial: Copy, reason: Reason, ghost doc: Json, ghost name: string, ghost read: Reading)
      returns (result: Result)
      requires api.Valid() && partial.doc.Obj? && Paired(partial.doc)
      modifies api
      ensures api.Grew() && result in {MachineError(reason), PlainError}
      ensures result == PlainError && api.quiet && partial.version == old(api.stored).version ==>
                api.faults < old(api.faults)
      ensures result.MachineError?
              && partial.doc == Located(Identified(doc, read.Id(), read.Status()), name, read.ip) ==>
                Identifies(api.stored.doc, read.Id(), read.Status())
    {
      hide Good, At, Put, Paired, SameProtected, Located, Identified, Identifies, MachineAPI.Shape, Between;
      ghost var at;
      result, at := HandleMachineError(partial, reason);
      if result.MachineError? && partial.doc == Located(Identified(doc, read.Id(), read.Status()), name, read.ip) {
        PartlyIdentifies(doc, name, read.Id(), read.Status(), read.ip, api.stored.doc);
      }
    }

    // reconcileMachine and patchMachine, as both Create and Update call them.
    method Sync(name: string, machine: Copy, reason: Reason)
      returns (result: Result, ghost read: Reading, ghost sent: Patching)
      requires Valid() && api.Known(machine)
      modifies engine, api
      ensures Valid() && api.Grew() && engine.Undisturbed(name)
      ensures result in {Ok, MachineError(reason), PlainError}
      ensures result == PlainError && api.quiet && machine == old(api.stored) ==> api.faults < old(api.faults)
      ensures result == Ok ==> Synced(engine, api, name, machine, read, sent, old(engine.log), |old(api.hist)|)
      ensures Keeps(old(engine.state), read.at, name)
      ensures result == Ok && api.quiet && machine == old(api.stored) ==>
                UpToDate(api.stored.doc, name, read.Id(), read.Status(), read.ip) &&
                Shows(api.stored.doc, name, read.Id(), read.Status(), read.ip)
      ensures result == Ok && api.quiet && machine == old(api.stored)
              && UpToDate(machine.doc, name, read.Id(), read.Status(), read.ip) ==>
                api.stored == old(api.stored) && api.hist == old(api.hist)
      ensures result != Ok ==>
                || engine.budget < old(engine.budget) || api.faults < old(api.faults)
                || (old(Absent(engine.state, name)) && Missed(engine, name, read, old(engine.log)))
                || Halted(engine, api, name, machine, read, sent, old(engine.log), |old(api.hist)|)
      // What the reconcile came to assign is stored together with the error.
      ensures result.MachineError? && engine.budget == old(engine.budget)
              && read.Of(name) && Hampered(api, read, machine.doc) ==>
                Identifies(api.stored.doc, read.Id(), read.Status())
    {
      hide LegalLog, State, Good, Calm, Paired, At, Spine, Moment, SameProtected;
      hide Stamped, Hampered, Absent, Reconciled, Recorded, UpToDate, Shows, Identifies, WithStatusOf;
      hide MainPatched, StatusPatched, Keeps, MachineAPI.Shape, Reading.Located, Between, Located, Identified;
      hide Patched, Within, MachineAPI.Arrived, Recorded, Unmarshals, OvirtActuator.Persisting;
      api.Newest();
      sent := Patching(0, 0, 0);
      ghost var versions := |api.hist|;
      var ms := new MachineReconciler(engine, name, api, machine);
      var failed;
      failed, read := ms.ReconcileMachine();
      if failed {
        result := GiveUp(ms.machine, reason, machine.doc, name, read);
        return;
      }
      ghost var id, status := read.Id(), read.Status();
      ReconciledFields(machine.doc, name, id, status, read.ip);
      ms.Repeated(id, status, read.ip);
      ghost var doc := ms.machine.doc;
      failed, sent := ms.PatchMachine(id);
      if failed {
        ghost var at;
        ghost var hist, foreign, overtaken := api.hist, api.foreign, Overtaken(api, versions, machine, doc, sent);
        result, at := HandleMachineError(ms.machine, reason);
        if overtaken {
          StillBetween(hist, foreign, versions - 1, sent.at1, api.hist, api.foreign);
          StillBetween(hist, foreign, sent.first, sent.at2, api.hist, api.foreign);
        }
        return;
      }
      if api.quiet && machine == old(api.stored) { PatchedQuietly(api, versions, machine, doc, sent); }
      QuietPatches(machine.doc, name, id, status, read.ip);
      UpToDateShows(Persisted(machine.doc, doc), name, id, status, read.ip);
      result := Ok;
    }

    /** Whatever fails, nothing is written while the name has a VM. */
    method Create(name: string, tag: string, secret: Option<string>, machine: Copy, spec: Option<ProviderSpec>)
      returns (result: Result, ghost read: Reading, ghost sent: Patching)
      requires Valid() && api.Known(machine)
      modifies engine, api, connection
      ensures Valid() && api.Grew() && old(engine.log) <= engine.log && engine.budget <= old(engine.budget)
      ensures Cut(result, InvalidConfiguration)
      ensures connection.attempts == old(connection.attempts) + if spec.Some? then 1 else 0
      // The machine controller gives up on this reason.
      ensures result == MachineError(InvalidConfiguration) ==>
                && NoWrites(old(engine.log), engine.log, name)
                && (!Accepted(spec) || engine.budget < old(engine.budget) ||
                    connection.outages < old(connection.outages))
      ensures !Accepted(spec) ==> result in {MachineError(InvalidConfiguration), PlainError}
      ensures result in {Ok, Panic, PlainError, MachineError(InvalidConfiguration), MachineError(CreateError)}
      ensures result == PlainError && api.quiet && machine == old(api.stored) ==> api.faults < old(api.faults)
      ensures OnlyAfterAbsence(old(engine.log), engine.log, name)
      ensures !Accepted(spec) || (!old(Absent(engine.state, name)) && engine.budget == old(engine.budget)) ==>
                NoWrites(old(engine.log), engine.log, name)
      ensures result == Ok ==>
                && Accepted(spec)
                && Synced(engine, api, name, machine, read, sent, old(engine.log), |old(api.hist)|)
                && (CreatedFrom(name, tag, secret, spec.value, read, old(engine.log)) ||
                    (!old(Absent(engine.state, name)) && NoWrites(old(engine.log), engine.log, name)))
      ensures result == Panic ==> Accepted(spec) && PanicsIn(engine, spec.value)
      // Whatever becomes of the Machine, only the engine can keep the VM from being delivered.
      ensures old(Absent(engine.state, name)) && engine.budget == old(engine.budget)
              && connection.outages == old(connection.outages)
              && Accepted(spec) && !Hindered(engine, name, spec.value, secret) && !PanicsIn(engine, spec.value) ==>
                Provided(engine.state, name, tag, secret, spec.value)
      ensures result !in {Ok, Panic} ==>
                || !Accepted(spec) || Hindered(engine, name, spec.value, secret)
                || engine.budget < old(engine.budget) || api.faults < old(api.faults)
                || connection.outages < old(connection.outages)
                // If the name was absent, the VM that was read is the finished one.
                || (Halted(engine, api, name, machine, read, sent, old(engine.log), |old(api.hist)|) &&
                    (!old(Absent(engine.state, name)) ||
                     CreatedFrom(name, tag, secret, spec.value, read, old(engine.log))))
      ensures result.MachineError?
              && engine.budget == old(engine.budget) && connection.outages == old(connection.outages)
              && Accepted(spec)
              && read.Of(name) && Hampered(api, read, machine.doc) ==>
                Identifies(api.stored.doc, read.Id(), read.Status())
      ensures result == Ok && api.quiet && machine == old(api.stored) ==>
                UpToDate(api.stored.doc, name, read.Id(), read.Status(), read.ip) &&
                Shows(api.stored.doc, name, read.Id(), read.Status(), read.ip)
    {
      hide LegalLog, State, Good, Calm, Paired, At, Moment, SameProtected, NoWrites, Halted, OnlyAfterAbsence;
      hide UpToDate, Shows, Identifies, Hampered, Reconciled, MainPatched, StatusPatched, WithStatusOf, Recorded;
      hide MachineAPI.Shape, Reading.Reported;
      hide PanicsIn, Hindered, CreatedFrom, Provided, ValidateMachine, Keeps, Synced;
      read, sent := Reading(EMPTY, 0, None, EMPTY), Patching(0, 0, 0);
      ghost var v0 := engine.V();
      CalmRefl(v0, name);
      CalmWrites(v0, v0, name);
      api.KnownPaired(machine);
      ghost var at;
      if spec.None? {
        result, at := HandleMachineError(machine, InvalidConfiguration);
        return;
      }
      var failed := connection.Get();
      if failed {
        result, at := HandleMachineError(machine, InvalidConfiguration);
        return;
      }
      var invalid := Validate(spec.value, name);
      ghost var v1 := engine.V();
      CalmAbsent(v0, v1, name);
      CalmWrites(v0, v1, name);
      if invalid.Some? {
        result, at := HandleMachineError(machine, InvalidConfiguration);
        return;
      }
      result, read, sent := CreateValidated(name, tag, secret, machine, spec.value);
      CreatedEarlier(name, tag, secret, spec.value, read, v0.log, v1.log);
      OnlyAfterAbsenceTrans(v0.log, v1.log, engine.log, name);
      if NoWrites(v1.log, engine.log, name) { NoWritesTrans(v0.log, v1.log, engine.log, name); }
      ReadEarlier(engine, api, name, machine, read, sent, v0.log, v1.log, |old(api.hist)|);
    }

    // The spec unmarshals and passes the validation against this engine.
    predicate Accepted(spec: Option<ProviderSpec>) {
      spec.Some? && ValidateMachine(spec.value, Support()).None?
    }

    // The VM that was read is the one asked for, finished since log0 and before it
    // was read, and nothing stood in the way.
    ghost predicate CreatedFrom(name: string, tag: string, secret: Option<string>, spec: ProviderSpec, read: Reading,
                                log0: seq<Event>)
      reads engine
    {
      && !Unreadable(spec, secret) && spec.templateName in engine.templates && !PanicsIn(engine, spec)
      && !CreateRefused(spec, engine.templates[spec.templateName], name)
      && var o := RequestOf(engine, name, tag, spec, secret);
      && Delivered(read.at, read.id, name, o) && SinceFinished(read, name, o, log0, engine.log)
    }

    lemma CreatedEarlier(name: string, tag: string, secret: Option<string>, spec: ProviderSpec, read: Reading,
                         log0: seq<Event>, log1: seq<Event>)
      requires log0 <= log1
      ensures CreatedFrom(name, tag, secret, spec, read, log1) ==> CreatedFrom(name, tag, secret, spec, read, log0)
    {
      hide State, Delivered, Finished, Moment, PanicsIn, CreateRefused;
    }

    // The VM asked for is there.
    ghost predicate Provided(s: EngineState, name: string, tag: string, secret: Option<string>, spec: ProviderSpec) {
      && spec.templateName in engine.templates
      && exists id :: Delivered(s, id, name, RequestOf(engine, name, tag, spec, secret))
    }

    // It stays unless someone removes it, which counts as a fault.
    lemma ProvidedStays(scope: MachineScope, v: View, id: VMID, w: View)
      requires scope.engine == engine && scope.Finishing(v.state, id) && LegalLog(v.log) && v.state == State(v.log)
      requires Calm(v, w, scope.name) && w.budget == v.budget
      ensures Provided(w.state, scope.name, scope.clusterTag, scope.secret, scope.spec)
    {
      hide LegalLog, State, PanicsIn, CreateRefused, Delivered, Complete, ExpectedVM;
      FinishedStays(v.log, v.state, id, scope.name, scope.Request(), w.state, id);
    }

    // What a successful create left is what a later reading finds.
    lemma CreatedStays(scope: MachineScope, v: View, id: VMID, read: Reading)
      requires scope.engine == engine && scope.Finishing(v.state, id)
      requires LegalLog(v.log) && v.state == State(v.log) && Keeps(v.state, read.at, scope.name) && read.Of(scope.name)
      requires v.log <= engine.log && Moment(read.at, v.log, engine.log)
      ensures CreatedFrom(scope.name, scope.clusterTag, scope.secret, scope.spec, read, v.log)
    {
      hide LegalLog, State, PanicsIn, CreateRefused, Keeps, Finished, Delivered, Moment;
      assert engine.log[..|v.log|] == v.log;
      FinishedStays(v.log, v.state, id, scope.name, scope.Request(), read.at, read.id);
    }

    method CreateValidated(name: string, tag: string, secret: Option<string>, machine: Copy, spec: ProviderSpec)
      returns (result: Result, ghost read: Reading, ghost sent: Patching)
      requires Valid() && api.Known(machine)
      modifies engine, api
      ensures Valid() && api.Grew() && old(engine.log) <= engine.log && engine.budget <= old(engine.budget)
      ensures result in {Ok, Panic, PlainError, MachineError(CreateError)}
      ensures result == PlainError && api.quiet && machine == old(api.stored) ==> api.faults < old(api.faults)
      ensures OnlyAfterAbsence(old(engine.log), engine.log, name)
      ensures !old(Absent(engine.state, name)) && engine.budget == old(engine.budget) ==>
                NoWrites(old(engine.log), engine.log, name)
      ensures result == Ok ==>
                && Synced(engine, api, name, machine, read, sent, old(engine.log), |old(api.hist)|)
                && (CreatedFrom(name, tag, secret, spec, read, old(engine.log)) ||
                    (!old(Absent(engine.state, name)) && NoWrites(old(engine.log), engine.log, name)))
      ensures result == Panic ==> PanicsIn(engine, spec)
      ensures old(Absent(engine.state, name)) && engine.budget == old(engine.budget)
              && !Hindered(engine, name, spec, secret) && !PanicsIn(engine, spec) ==>
                Provided(engine.state, name, tag, secret, spec)
      ensures result !in {Ok, Panic} ==>
                || Hindered(engine, name, spec, secret)
                || engine.budget < old(engine.budget) || api.faults < old(api.faults)
                || (Halted(engine, api, name, machine, read, sent, old(engine.log), |old(api.hist)|) &&
                    (!old(Absent(engine.state, name)) ||
                     CreatedFrom(name, tag, secret, spec, read, old(engine.log))))
      ensures result.MachineError? && engine.budget == old(engine.budget)
              && read.Of(name) && Hampered(api, read, machine.doc) ==>
                Identifies(api.stored.doc, read.Id(), read.Status())
      ensures result == Ok && api.quiet && machine == old(api.stored) ==>
                UpToDate(api.stored.doc, name, read.Id(), read.Status(), read.ip) &&
                Shows(api.stored.doc, name, read.Id(), read.Status(), read.ip)
    {
      hide LegalLog, State, Good, Calm, Paired, At, Moment, SameProtected, NoWrites, Halted, OnlyAfterAbsence;
      hide UpToDate, Shows, Identifies, Hampered, Reconciled, MainPatched, StatusPatched, WithStatusOf, Recorded;
      hide MachineAPI.Shape, Reading.Located;
      hide PanicsIn, Hindered, CreatedFrom, Provided, Keeps, Synced, MachineScope.Finishing, Delivered;
      hide Absent, MachineAPI.Arrived, WellFormed, IdsBelow, Unmarshals, SpecPanics, RequestOf;
      read, sent := Reading(EMPTY, 0, None, EMPTY), Patching(0, 0, 0);
      ghost var v1 := engine.V();
      api.KnownPaired(machine);
      var scope := new MachineScope(engine, name, tag, spec, secret);
      var out;
      ghost var id, at;
      out, id := scope.Create();
      ghost var v2 := engine.V();
      ghost var untouched := Calm(v1, v2, name);
      if untouched { CalmWrites(v1, v2, name); }
      if out == Panicked {
        result := Panic;
        return;
      }
      if out == Failed {
        result, at := HandleMachineError(machine, CreateError);
        return;
      }
      result, read, sent := SyncCreated(scope, id, machine);
      CalmWrites(v2, engine.V(), name);
      OnlyAfterAbsenceTrans(v1.log, v2.log, engine.log, name);
      if untouched { NoWritesTrans(v1.log, v2.log, engine.log, name); }
      ReadEarlier(engine, api, name, machine, read, sent, v1.log, v2.log, |old(api.hist)|);
      CreatedEarlier(name, tag, secret, spec, read, v1.log, v2.log);
    }

    // What follows a create that went well; id is the VM it made, if it made one.
    method SyncCreated(scope: MachineScope, ghost id: VMID, machine: Copy)
      returns (result: Result, ghost read: Reading, ghost sent: Patching)
      requires Valid() && api.Known(machine) && scope.engine == engine && !Absent(engine.state, scope.name)
      modifies engine, api
      ensures Valid() && api.Grew() && engine.Undisturbed(scope.name)
      ensures result in {Ok, PlainError, MachineError(CreateError)}
      ensures result == PlainError && api.quiet && machine == old(api.stored) ==> api.faults < old(api.faults)
      ensures var halted := Halted(engine, api, scope.name, machine, read, sent, old(engine.log), |old(api.hist)|);
              && (result != Ok ==> engine.budget < old(engine.budget) || api.faults < old(api.faults) || halted)
              && (result == Ok ==>
                    Synced(engine, api, scope.name, machine, read, sent, old(engine.log), |old(api.hist)|))
              && (old(scope.Finishing(engine.state, id)) && (result == Ok || halted) ==>
                    CreatedFrom(scope.name, scope.clusterTag, scope.secret, scope.spec, read, old(engine.log)))
      ensures old(scope.Finishing(engine.state, id)) && engine.budget == old(engine.budget) ==>
                Provided(engine.state, scope.name, scope.clusterTag, scope.secret, scope.spec)
      ensures result.MachineError? && engine.budget == old(engine.budget)
              && read.Of(scope.name) && Hampered(api, read, machine.doc) ==>
                Identifies(api.stored.doc, read.Id(), read.Status())
      ensures result == Ok && api.quiet && machine == old(api.stored) ==>
                UpToDate(api.stored.doc, scope.name, read.Id(), read.Status(), read.ip) &&
                Shows(api.stored.doc, scope.name, read.Id(), read.Status(), read.ip)
    {
      hide LegalLog, State, Good, Calm, Moment, NoWrites, Halted, UpToDate, Shows, Identifies, Hampered;
      hide Recorded, MachineAPI.Shape;
      hide CreatedFrom, Provided, Keeps, Synced, MachineScope.Finishing, Absent, IdsBelow;
      ghost var v := engine.V();
      result, read, sent := Sync(scope.name, machine, CreateError);
      SyncedReads(engine, api, scope.name, machine, read, sent, v.log, |old(api.hist)|);
      if scope.Finishing(v.state, id) {
        if read.Of(scope.name) && Moment(read.at, v.log, engine.log) { CreatedStays(scope, v, id, read); }
        if engine.budget == v.budget { ProvidedStays(scope, v, id, engine.V()); }
      }
    }

    method Update(name: string, machine: Copy, specParses: bool)
      returns (result: Result, ghost read: Reading, ghost sent: Patching)
      requires Valid() && api.Known(machine)
      modifies engine, api, connection
      ensures Valid() && api.Grew() && engine.Undisturbed(name)
      ensures Cut(result, UpdateError)
      ensures connection.attempts == old(connection.attempts) + if specParses then 1 else 0
      ensures result in {Ok, PlainError, MachineError(if specParses then UpdateError else InvalidConfiguration)}
      ensures result == PlainError && api.quiet && machine == old(api.stored) ==> api.faults < old(api.faults)
      ensures result == Ok ==>
                specParses && Synced(engine, api, name, machine, read, sent, old(engine.log), |old(api.hist)|)
      ensures result.MachineError?
              && engine.budget == old(engine.budget) && connection.outages == old(connection.outages)
              && specParses
              && read.Of(name) && Hampered(api, read, machine.doc) ==>
                Identifies(api.stored.doc, read.Id(), read.Status())
      ensures result == Ok && api.quiet && machine == old(api.stored) ==>
                UpToDate(api.stored.doc, name, read.Id(), read.Status(), read.ip) &&
                Shows(api.stored.doc, name, read.Id(), read.Status(), read.ip)
      ensures result == Ok && api.quiet && machine == old(api.stored)
              && UpToDate(machine.doc, name, read.Id(), read.Status(), read.ip) ==>
                api.stored == old(api.stored) && api.hist == old(api.hist)
      ensures result != Ok ==>
                || !specParses || engine.budget < old(engine.budget) || api.faults < old(api.faults)
                || connection.outages < old(connection.outages)
                || Missed(engine, name, read, old(engine.log))
                || Halted(engine, api, name, machine, read, sent, old(engine.log), |old(api.hist)|)
    {
      hide LegalLog, State, Good, Calm, Paired, At, Moment, SameProtected, Keeps, Missed, Halted, Synced, Absent;
      hide UpToDate, Shows, Identifies, Hampered, Reconciled, MainPatched, StatusPatched, WithStatusOf, Recorded;
      hide MachineAPI.Shape, Reading.Reported;
      read, sent := Reading(EMPTY, 0, None, EMPTY), Patching(0, 0, 0);
      ghost var v0 := engine.V();
      CalmRefl(v0, name);
      api.KnownPaired(machine);
      ghost var at;
      if !specParses {
        result, at := HandleMachineError(machine, InvalidConfiguration);
        return;
      }
      var failed := connection.Get();
      if failed {
        result, at := HandleMachineError(machine, UpdateError);
        return;
      }
      ghost var v1 := engine.V();
      result, read, sent := Sync(name, machine, UpdateError);
      CalmTrans(v0, v1, engine.V(), name);
      ReadEarlier(engine, api, name, machine, read, sent, v0.log, v1.log, |old(api.hist)|);
    }

    method Delete(scope: MachineScope, machine: Copy) returns (result: Result)
      requires Valid() && scope.engine == engine && api.Known(machine)
      modifies engine, api, connection
      ensures Cut(result, InvalidConfiguration) && connection.attempts == old(connection.attempts) + 1
      ensures result in {Ok, PlainError, MachineError(InvalidConfiguration), MachineError(UpdateError)}
      ensures result == MachineError(InvalidConfiguration) ==> connection.outages < old(connection.outages)
      ensures result == PlainError && api.quiet && machine == old(api.stored) ==> api.faults < old(api.faults)
      ensures Valid() && api.Grew() && old(engine.log) <= engine.log && engine.budget <= old(engine.budget)
      ensures Advanced(old(engine.state), engine.state, scope.name)
      ensures result == Ok ==> Absent(engine.state, scope.name)
      ensures result != Ok ==> engine.budget < old(engine.budget) || connection.outages < old(connection.outages)
    {
      hide LegalLog, State, Good, Paired, At, Advanced, Keeps, Calm;
      api.KnownPaired(machine);
      ghost var at;
      Unadvanced(engine.state, scope.name);
      var failed := connection.Get();
      if failed {
        result, at := HandleMachineError(machine, InvalidConfiguration);
        return;
      }
      failed := scope.Delete();
      if failed {
        result, at := HandleMachineError(machine, UpdateError);
        return;
      }
      result := Ok;
    }

    // One call of the machine controller, on its copy of the Machine.
    method DeleteOnce(scope: MachineScope) returns (gone: bool)
      requires Valid() && scope.engine == engine
      modifies engine, api, connection
      ensures Valid() && api.Grew() && old(engine.log) <= engine.log
      ensures Advanced(old(engine.state), engine.state, scope.name)
      ensures engine.budget <= old(engine.budget) && connection.outages <= old(connection.outages)
      ensures gone ==> Absent(engine.state, scope.name)
      ensures connection.attempts == old(connection.attempts) + 1
      ensures !gone ==> engine.budget < old(engine.budget) || connection.outages < old(connection.outages)
    {
      hide LegalLog, State, Absent, Advanced, Good, MachineAPI.Shape, IdsBelow, WellFormed;
      var machine := api.Get();
      var result := Delete(scope, machine);
      gone := result == Ok;
    }

    // The machine controller calls Delete again until it reports no error.
    method DeleteUntilGone(scope: MachineScope) returns (calls: nat)
      requires Valid() && scope.engine == engine
      modifies engine, api, connection
      ensures Valid() && old(api.hist) <= api.hist
      ensures old(engine.log) <= engine.log && engine.budget <= old(engine.budget)
      ensures Absent(engine.state, scope.name) && Advanced(old(engine.state), engine.state, scope.name)
      ensures 1 <= calls <= old(engine.budget) + old(connection.outages) + 1
      ensures connection.attempts == old(connection.attempts) + calls
    {
      hide LegalLog, State, Absent, Advanced, Good, MachineAPI.Shape, IdsBelow, WellFormed;
      ghost var s0 := engine.state;
      var gone := DeleteOnce(scope);
      calls := 1;
      while !gone
        invariant Valid() && old(api.hist) <= api.hist && old(engine.log) <= engine.log
        invariant engine.budget <= old(engine.budget) && Advanced(s0, engine.state, scope.name)
        invariant gone ==> Absent(engine.state, scope.name)
        invariant connection.attempts == old(connection.attempts) + calls
        invariant engine.budget + connection.outages <= old(engine.budget) + old(connection.outages)
        invariant var spent := old(engine.budget) + old(connection.outages) - engine.budget - connection.outages;
                  1 <= calls <= if gone then spent + 1 else spent
        decreases engine.budget + connection.outages, !gone
      {
        ghost var s := engine.state;
        gone := DeleteOnce(scope);
        AdvancedTrans(s0, s, engine.state, scope.name);
        calls := calls + 1;
      }
    }

    method Exists(scope: MachineScope, machine: Copy) returns (found: bool, result: Result)
      requires Valid() && scope.engine == engine && api.Known(machine)
      modifies engine, api, connection
      ensures Valid() && api.Grew() && engine.Undisturbed(scope.name)
      ensures Cut(result, InvalidConfiguration) && connection.attempts == old(connection.attempts) + 1
      ensures result in {Ok, PlainError, MachineError(InvalidConfiguration)}
      ensures result == MachineError(InvalidConfiguration) ==> connection.outages < old(connection.outages)
      ensures result == Ok ==> (found <==> !Absent(engine.state, scope.name))
      ensures result != Ok ==>
                !found && (engine.budget < old(engine.budget) || connection.outages < old(connection.outages))
    {
      hide LegalLog, State, Good, Calm, Paired, At;
      found := false;
      CalmRefl(engine.V(), scope.name);
      var failed := connection.Get();
      if failed {
        api.KnownPaired(machine);
        ghost var at;
        result, at := HandleMachineError(machine, InvalidConfiguration);
        return;
      }
      found, failed := scope.Exists();
      result := if failed then PlainError else Ok;
    }
  }

  lemma NewMachinePaired(doc: Json)
    requires doc.Obj? && "metadata" !in doc.members && "spec" !in doc.members && "status" !in doc.members
    ensures Paired(doc) && At(doc, INSTANCE_ID) == None
  {
  }

  // One writer, no fault, and the machine error is lost: the object is the version
  // before the one that is stored.
  method StaleObjectLosesError() returns (result: Result)
    ensures result == PlainError
  {
    hide LegalLog, State, Good, Between, SameProtected, OvirtActuator.Persisting, Safe, Paired, At;
    var engine := new Engine(map[], [], {}, false, 0);
    var first := Copy(Obj(map[]), 0);
    NewMachinePaired(Obj(map[]));
    NewMachinePaired(Obj(map["kind" := Str("Machine")]));
    var api := new MachineAPI(first, true, Infrastructure("10.0.0.5", "10.0.0.6"), 0);
    var connection := new Connection(0);
    var actuator := new OvirtActuator(engine, api, connection);
    var resp;
    ghost var at;
    resp, at := api.Update(Copy(Obj(map["kind" := Str("Machine")]), 0));
    assert "kind" in api.stored.doc.members;
    assert api.hist[0] == first != api.stored;
    result, at := actuator.HandleMachineError(first, UpdateError);
  }

  function WithError(doc: Json, reason: string, message: string): Json {
    Put(Put(doc, ERROR_REASON, Str(reason)), ERROR_MESSAGE, Str(message))
  }

  /** A nil Create or Update: one reading of the VM, which was up, migrating or
      down, and the two patches of the Machine reconciled with it. */
  ghost predicate Synced(engine: Engine, api: MachineAPI, name: string, machine: Copy, read: Reading, sent: Patching,
                         log0: seq<Event>, versions: nat)
    reads engine, api
  {
    && read.Reported(name, api.infrastructure.Addresses()) && Within(read, log0, engine.log)
    && Patched(api, versions, machine, Reconciled(machine.doc, name, read.Id(), read.Status(), read.ip), sent)
  }

  /** A Create or Update that stopped without a fault, on a VM that it read: the
      reconcile could not go on, or others overtook its second patch. */
  ghost predicate Halted(engine: Engine, api: MachineAPI, name: string, machine: Copy, read: Reading, sent: Patching,
                         log0: seq<Event>, versions: nat)
    reads engine, api
  {
    && read.Of(name) && Within(read, log0, engine.log)
    && (Hampered(api, read, machine.doc) ||
        (read.Reported(name, api.infrastructure.Addresses()) &&
         var doc := Reconciled(machine.doc, name, read.Id(), read.Status(), read.ip);
         Overtaken(api, versions, machine, doc, sent)))
  }

  // Whoever else wrote in between, the addresses are there after success, if the
  // object did not have them already.
  lemma SyncedAddresses(engine: Engine, api: MachineAPI, name: string, machine: Copy, read: Reading, sent: Patching,
                        log0: seq<Event>, versions: nat)
    requires api.Valid() && Synced(engine, api, name, machine, read, sent, log0, versions) && read.ip.Some?
    requires At(machine.doc, ADDRESSES) != Some(Addresses(name, read.ip.value))
    ensures Lists(api.stored.doc, "InternalDNS", name) && Lists(api.stored.doc, "InternalIP", read.ip.value)
  {
    hide At, Spine, Good, Patched, MachineAPI.Shape, Lists, Moment, Reading.Reported, Reconciled;
    var doc := Reconciled(machine.doc, name, read.Id(), read.Status(), read.ip);
    PatchedDocs(api, versions, machine, doc, sent);
    ReconciledStatus(machine.doc, name, read.Id(), read.Status(), read.ip);
    LeafAddresses(name, read.ip.value);
    ChangedFieldsHeld(api, versions, machine, doc, sent, ADDRESSES);
    AddressesListed(api.stored.doc, name, read.ip.value);
  }

  lemma PatchedDocs(api: MachineAPI, n: nat, original: Copy, doc: Json, sent: Patching)
    requires Patched(api, n, original, doc, sent)
    ensures original.doc.Obj? && doc.Obj?
  {
  }

  lemma SyncedReads(engine: Engine, api: MachineAPI, name: string, machine: Copy, read: Reading, sent: Patching,
                    log0: seq<Event>, versions: nat)
    ensures Synced(engine, api, name, machine, read, sent, log0, versions) ||
            Halted(engine, api, name, machine, read, sent, log0, versions) ==>
              read.Of(name) && Moment(read.at, log0, engine.log)
  {
  }

  // A reading belongs to any longer interval as well.
  lemma ReadEarlier(engine: Engine, api: MachineAPI, name: string, machine: Copy, read: Reading, sent: Patching,
                    log0: seq<Event>, log1: seq<Event>, versions: nat)
    requires log0 <= log1
    ensures Synced(engine, api, name, machine, read, sent, log1, versions) ==>
              Synced(engine, api, name, machine, read, sent, log0, versions)
    ensures Halted(engine, api, name, machine, read, sent, log1, versions) ==>
              Halted(engine, api, name, machine, read, sent, log0, versions)
    ensures Missed(engine, name, read, log1) ==> Missed(engine, name, read, log0)
  {
    hide State, Patched, Moment, Hampered, Overtaken;
    if Moment(read.at, log1, engine.log) { MomentEarlier(read.at, log0, log1, engine.log); }
    if Moment(read.looked, log1, engine.log) { MomentEarlier(read.looked, log0, log1, engine.log); }
  }

  // One call of the machine controller.
  datatype Call =
    | CallCreate(tag: string, secret: Option<string>, spec: Option<ProviderSpec>)
    | CallUpdate(specParses: bool)
    | CallExists
    | CallDelete

  ghost predicate AlwaysWas(log: seq<Event>) {
    forall k :: 0 <= k <= |log| ==> Safe(State(log[..k]))
  }

  /** Any run: any number of calls in any order, each on a possibly stale copy of
      the Machine, with anything in between that the others may do. At every
      moment of it no two live VMs share a name and each is what a prefix of its
      command list makes of the template, and every version of the Machine pairs
      its provider id with its annotation and has its status justified. Call i wrote
      what the log holds from starts[i] to starts[i + 1]. */
  method Run(actuator: OvirtActuator, name: string, calls: seq<Call>) returns (ghost starts: seq<nat>)
    requires actuator.Valid()
    modifies actuator.engine, actuator.api, actuator.connection
    ensures actuator.Valid() && old(actuator.engine.log) <= actuator.engine.log
    ensures old(actuator.api.hist) <= actuator.api.hist
    ensures AlwaysWas(actuator.engine.log) && Good(actuator.api.hist)
    ensures |starts| == |calls| + 1
    ensures starts[0] == |old(actuator.engine.log)| && starts[|calls|] == |actuator.engine.log|
    ensures forall i :: 0 <= i < |calls| ==> Served(calls[i], name, actuator.engine.log, starts[i], starts[i + 1])
    // Without a Delete among the calls, nothing is written while the name has a VM.
    ensures CallDelete !in calls ==> OnlyAfterAbsence(old(actuator.engine.log), actuator.engine.log, name)
  {
    hide LegalLog, State, Good, AlwaysWas, OnlyAfterAbsence, Served;
    var engine, api := actuator.engine, actuator.api;
    ghost var log0 := engine.log;
    NothingYet(log0, name);
    starts := [|log0|];
    for i := 0 to |calls|
      invariant actuator.Valid() && log0 <= engine.log && old(api.hist) <= api.hist
      invariant |starts| == i + 1 && starts[0] == |log0| && starts[i] == |engine.log|
      invariant forall j :: 0 <= j < i ==> Served(calls[j], name, engine.log, starts[j], starts[j + 1])
      invariant CallDelete !in calls[..i] ==> OnlyAfterAbsence(log0, engine.log, name)
    {
      ghost var log1 := engine.log;
      Serve(actuator, name, calls[i]);
      forall j | 0 <= j < i ensures Served(calls[j], name, engine.log, starts[j], starts[j + 1]) {
        ServedStays(calls[j], name, log1, engine.log, starts[j], starts[j + 1]);
      }
      starts := starts + [|engine.log|];
      if calls[i] != CallDelete { ServedWrites(calls[i], name, log1, engine.log); }
      assert calls[..i + 1] == calls[..i] + [calls[i]];
      if CallDelete !in calls[..i + 1] { OnlyAfterAbsenceTrans(log0, log1, engine.log, name); }
    }
    assert calls[..|calls|] == calls;
    AlwaysSafeAlong(engine.log);
  }

  // What a call may write under its name: an Update or an Exists nothing, a Create
  // nothing while the name has a VM, and a Delete only what brings the VM closer to
  // its removal.
  ghost predicate Served(call: Call, name: string, log: seq<Event>, i: nat, j: nat) {
    && i <= j <= |log|
    && match call {
         case CallCreate(_, _, _) => OnlyAfterAbsence(log[..i], log[..j], name)
         case CallUpdate(_) => NoWrites(log[..i], log[..j], name)
         case CallExists => NoWrites(log[..i], log[..j], name)
         case CallDelete => Advanced(State(log[..i]), State(log[..j]), name)
       }
  }

  lemma ServedStays(call: Call, name: string, log: seq<Event>, more: seq<Event>, i: nat, j: nat)
    requires Served(call, name, log, i, j) && log <= more
    ensures Served(call, name, more, i, j)
  {
    assert more[..i] == log[..i] && more[..j] == log[..j];
  }

  lemma ServedWrites(call: Call, name: string, log: seq<Event>, more: seq<Event>)
    requires Served(call, name, more, |log|, |more|) && log <= more && call != CallDelete
    ensures OnlyAfterAbsence(log, more, name)
  {
    hide State;
    assert more[..|log|] == log && more[..|more|] == more;
  }

  lemma NothingYet(log: seq<Event>, name: string)
    ensures OnlyAfterAbsence(log, log, name)
  {
    hide State, Absent;
  }

  method Serve(actuator: OvirtActuator, name: string, call: Call)
    requires actuator.Valid()
    modifies actuator.engine, actuator.api, actuator.connection
    ensures actuator.Valid() && old(actuator.engine.log) <= actuator.engine.log
    ensures old(actuator.api.hist) <= actuator.api.hist
    ensures Served(call, name, actuator.engine.log, |old(actuator.engine.log)|, |actuator.engine.log|)
  {
    hide LegalLog, State, Good, Synced, UpToDate, Shows, Keeps, Calm, Paired, At, OnlyAfterAbsence, NoWrites, Advanced;
    hide Halted, Missed, Hindered, PanicsIn, Absent, IdsBelow, WellFormed, MachineAPI.Shape, OvirtActuator.Cut;
    hide OvirtActuator.CreatedFrom, OvirtActuator.Provided, ValidateMachine;
    var engine, api := actuator.engine, actuator.api;
    ghost var v0 := engine.V();
    var machine := api.Get();
    match call {
      case CallCreate(tag, secret, spec) =>
        var _, _, _ := actuator.Create(name, tag, secret, machine, spec);
      case CallUpdate(specParses) =>
        var _, _, _ := actuator.Update(name, machine, specParses);
        CalmWrites(v0, engine.V(), name);
      case CallExists =>
        var scope := new MachineScope(engine, name, "", NO_SPEC, None);
        var _, _ := actuator.Exists(scope, machine);
        CalmWrites(v0, engine.V(), name);
      case CallDelete =>
        var scope := new MachineScope(engine, name, "", NO_SPEC, None);
        var _ := actuator.Delete(scope, machine);
    }
    assert engine.log[..|v0.log|] == v0.log && engine.log[..|engine.log|] == engine.log;
  }

  lemma AlwaysSafeAlong(log: seq<Event>)
    requires LegalLog(log)
    ensures AlwaysWas(log)
  {
    hide LegalLog, State, Safe;
    forall k | 0 <= k <= |log| ensures Safe(State(log[..k])) {
      AlwaysSafe(log, k);
    }
  }

  lemma ErrorKeepsPaired(doc: Json, reason: string, message: string)
    requires Paired(doc)
    ensures var d := WithError(doc, reason, message); d.Obj? && Paired(d)
  {
  }

  // What the object carries, although the server ignores it.
  lemma ErrorSet(doc: Json, reason: Reason, message: string)
    ensures var d := WithError(doc, ReasonText(reason), message);
            && At(d, ["status", "errorMessage"]) == Some(Str(message))
            && At(d, ["status", "errorReason"])
               == Some(Str(if reason == InvalidConfiguration then "InvalidConfiguration"
                           else if reason == CreateError then "CreateError" else "UpdateError"))
  {
    hide At, Put;
    var d1 := Put(doc, ERROR_REASON, Str(ReasonText(reason)));
    PutAt(doc, ERROR_REASON, Str(ReasonText(reason)));
    PutAt(d1, ERROR_MESSAGE, Str(message));
    assert Apart(ERROR_MESSAGE, ERROR_REASON);
    PutApart(d1, ERROR_MESSAGE, Str(message), ERROR_REASON);
  }

  // An update with the error set replaces everything but the status.
  lemma MainOnly(doc: Json, reason: string, message: string, before: Json, p: Path)
    requires before.Obj? && p != []
    ensures At(WithStatusOf(WithError(doc, reason, message), before), p)
            == At(if p[0] == "status" then before else doc, p)
  {
  }
}
