/** The engine as an append-only log of the writes that took effect. A log is
    legal when every write under a machine name obeys the protocol of the
    machine actuator; legality is closed under prefixes, so what holds of every
    legal log holds at every moment of a run. */
module EngineLog {
  import opened Prelude
  import opened VMAddresses
  import opened Templates
  import opened Plan
  import PlanProofs

  // VM ids: the engine never hands one out twice.
  type VMID = nat

  // What the engine is busy with: the disks of a new instance are being copied, or
  // one of them is being resized.
  datatype Pending = Locked | Resizing | Idle

  // todo, origin, stopping and pending are history variables; no operation reads them.
  datatype VM = VM(
    name: string,
    config: Config,
    status: string,
    addresses: Report,
    origin: Origin,
    todo: seq<Command>,
    stopping: bool,
    pending: Pending
  )

  datatype EngineState = EngineState(vms: map<VMID, VM>, nextId: nat)

  datatype Event =
    | Created(id: VMID, name: string, origin: Origin)
    | Configured(id: VMID, cmd: Command)
    | Stopped(id: VMID)
    | Removed(id: VMID)
    | RemovedExternally(id: VMID)
    | StatusChanged(id: VMID, status: string)
    | AddressesReported(id: VMID, addresses: Report)
    | DiskReady(id: VMID)

  const EMPTY := EngineState(map[], 0)

  function FreshVM(name: string, o: Origin): VM {
    VM(name, Instance(o), "image_locked", map[], o, Commands(o), false, Locked)
  }

  // The VM after the next command of its list took effect.
  function Stepped(v: VM): VM
    requires v.todo != []
  {
    v.(config := Apply(v.config, v.todo[0]), todo := v.todo[1..],
       pending := if v.todo[0].ExtendDisk? then Resizing else v.pending)
  }

  // A new instance is first seen down when its disks were copied.
  function Noticed(v: VM, status: string): VM {
    v.(status := status, pending := if status == "down" && v.pending.Locked? then Idle else v.pending)
  }

  function DiskDone(v: VM): VM {
    v.(pending := if v.pending.Resizing? then Idle else v.pending)
  }

  function After(s: EngineState, e: Event): EngineState {
    match e
    case Created(id, name, o) => EngineState(s.vms[id := FreshVM(name, o)], id + 1)
    case Configured(id, cmd) =>
      if id in s.vms && s.vms[id].todo != [] then s.(vms := s.vms[id := Stepped(s.vms[id])]) else s
    case Stopped(id) => if id in s.vms then s.(vms := s.vms[id := s.vms[id].(stopping := true)]) else s
    case Removed(id) => s.(vms := s.vms - {id})
    case RemovedExternally(id) => s.(vms := s.vms - {id})
    case StatusChanged(id, st) => if id in s.vms then s.(vms := s.vms[id := Noticed(s.vms[id], st)]) else s
    case AddressesReported(id, a) => if id in s.vms then s.(vms := s.vms[id := s.vms[id].(addresses := a)]) else s
    case DiskReady(id) => if id in s.vms then s.(vms := s.vms[id := DiskDone(s.vms[id])]) else s
  }

  ghost predicate Absent(s: EngineState, name: string) {
    forall id :: id in s.vms ==> s.vms[id].name != name
  }

  // Once the actuator stopped a VM and it went down, it stays down: nobody else starts it.
  predicate StaysDown(v: VM, status: string) {
    v.stopping && v.status == "down" ==> status == "down"
  }

  /** The protocol. A VM is created under a fresh id and only while its name is
      absent; it is configured by the next command of the list compiled from its
      origin, only while nothing is pending, and never again once it is being
      stopped; the actuator removes it only after stopping it, when it is down. */
  ghost predicate Legal(s: EngineState, e: Event) {
    match e
    case Created(id, name, o) => id >= s.nextId && Absent(s, name) && WellFormed(o.template) && o.machineName == name
    case Configured(id, cmd) =>
      && id in s.vms && !s.vms[id].stopping && s.vms[id].pending == Idle
      && s.vms[id].todo != [] && s.vms[id].todo[0] == cmd
    case Stopped(id) => id in s.vms
    case Removed(id) => id in s.vms && s.vms[id].stopping && s.vms[id].status == "down"
    case RemovedExternally(id) => id in s.vms
    case StatusChanged(id, st) => id in s.vms && StaysDown(s.vms[id], st)
    case AddressesReported(id, _) => id in s.vms
    case DiskReady(id) => id in s.vms
  }

  function State(log: seq<Event>): EngineState {
    if log == [] then EMPTY else After(State(log[..|log| - 1]), log[|log| - 1])
  }

  ghost predicate LegalLog(log: seq<Event>) {
    forall k :: 0 <= k < |log| ==> Legal(State(log[..k]), log[k])
  }

  // The VM is what some prefix of its command list makes of the fresh instance.
  ghost predicate ReachedByPrefix(v: VM) {
    exists k :: 0 <= k <= |Commands(v.origin)| && AtStep(v, k)
  }

  ghost predicate AtStep(v: VM, k: nat)
    requires k <= |Commands(v.origin)|
  {
    v.todo == Commands(v.origin)[k..] && v.config == Exec(Instance(v.origin), Commands(v.origin)[..k])
  }

  ghost predicate IdsBelow(s: EngineState) {
    forall i :: i in s.vms ==> i < s.nextId
  }

  ghost predicate Safe(s: EngineState) {
    && IdsBelow(s)
    && (forall i, j :: i in s.vms && j in s.vms && i != j ==> s.vms[i].name != s.vms[j].name)
    && (forall i :: i in s.vms ==> ReachedByPrefix(s.vms[i]) && WellFormed(s.vms[i].origin.template))
  }

  /* ---- Appending ---- */

  lemma Append(log: seq<Event>, e: Event)
    ensures State(log + [e]) == After(State(log), e)
    ensures LegalLog(log) && Legal(State(log), e) ==> LegalLog(log + [e])
  {
    var all := log + [e];
    assert all[..|all| - 1] == log;
    if LegalLog(log) && Legal(State(log), e) {
      forall k | 0 <= k < |all| ensures Legal(State(all[..k]), all[k]) {
        assert all[..k] == log[..k] || k == |log|;
        if k < |log| { assert all[..k] == log[..k]; }
      }
    }
  }

  lemma PrefixLegal(log: seq<Event>, k: nat)
    requires LegalLog(log) && k <= |log|
    ensures LegalLog(log[..k])
  {
    forall j | 0 <= j < k ensures Legal(State(log[..k][..j]), log[..k][j]) {
      assert log[..k][..j] == log[..j];
    }
  }

  /* ---- Safety of every legal log ---- */

  lemma SteppedReached(v: VM)
    requires v.todo != [] && ReachedByPrefix(v)
    ensures ReachedByPrefix(Stepped(v))
  {
    var cmds, c := Commands(v.origin), Instance(v.origin);
    var k :| 0 <= k <= |cmds| && AtStep(v, k);
    PlanProofs.ExecNext(c, cmds, k);
    var w := Stepped(v);
    assert cmds[k..][1..] == cmds[k + 1..] && cmds[k..][0] == cmds[k];
    assert w.config == Apply(v.config, cmds[k]) && w.todo == cmds[k + 1..];
    assert AtStep(w, k + 1);
  }

  lemma FreshReached(name: string, o: Origin)
    ensures ReachedByPrefix(FreshVM(name, o))
  {
    assert Commands(o)[..0] == [];
    assert AtStep(FreshVM(name, o), 0);
  }

  lemma MarkedReached(v: VM, w: VM)
    requires ReachedByPrefix(v)
    requires w.(status := v.status, addresses := v.addresses, stopping := v.stopping, pending := v.pending) == v
    ensures ReachedByPrefix(w)
  {
    var k :| 0 <= k <= |Commands(v.origin)| && AtStep(v, k);
    assert AtStep(w, k);
  }

  lemma UpdateSafe(s: EngineState, id: VMID, w: VM)
    requires Safe(s) && id in s.vms
    requires w.name == s.vms[id].name && w.origin == s.vms[id].origin && ReachedByPrefix(w)
    ensures Safe(s.(vms := s.vms[id := w]))
  {
    hide ReachedByPrefix;
  }

  lemma CreateSafe(s: EngineState, id: VMID, w: VM)
    requires Safe(s) && id >= s.nextId && Absent(s, w.name)
    requires ReachedByPrefix(w) && WellFormed(w.origin.template)
    ensures Safe(EngineState(s.vms[id := w], id + 1))
  {
    hide ReachedByPrefix;
  }

  lemma StepSafe(s: EngineState, e: Event)
    requires Safe(s) && Legal(s, e)
    ensures Safe(After(s, e))
  {
    hide Commands, Instance;
    match e {
      case Created(id, name, o) =>
        FreshReached(name, o);
        CreateSafe(s, id, FreshVM(name, o));
      case Configured(id, cmd) =>
        SteppedReached(s.vms[id]);
        UpdateSafe(s, id, Stepped(s.vms[id]));
      case Stopped(id) =>
        var w := s.vms[id].(stopping := true);
        MarkedReached(s.vms[id], w);
        UpdateSafe(s, id, w);
      case Removed(id) =>
      case RemovedExternally(id) =>
      case StatusChanged(id, st) =>
        var w := Noticed(s.vms[id], st);
        MarkedReached(s.vms[id], w);
        UpdateSafe(s, id, w);
      case AddressesReported(id, a) =>
        var w := s.vms[id].(addresses := a);
        MarkedReached(s.vms[id], w);
        UpdateSafe(s, id, w);
      case DiskReady(id) =>
        MarkedReached(s.vms[id], DiskDone(s.vms[id]));
        UpdateSafe(s, id, DiskDone(s.vms[id]));
    }
  }

  // At every moment of every legal run at most one live VM carries a name, and
  // every live VM is what a prefix of its compiled command list makes of it.
  lemma {:induction false} AlwaysSafe(log: seq<Event>, k: nat)
    requires LegalLog(log) && k <= |log|
    ensures Safe(State(log[..k]))
    decreases k
  {
    hide Safe, After, Legal;
    if k == 0 {
      EmptySafe();
    } else {
      AlwaysSafe(log, k - 1);
      assert log[..k][..k - 1] == log[..k - 1];
      StepSafe(State(log[..k - 1]), log[k - 1]);
    }
  }

  lemma EmptySafe()
    ensures Safe(EMPTY)
  {
  }

  // The event takes this VM away.
  predicate Removes(e: Event, id: VMID) {
    e == Removed(id) || e == RemovedExternally(id)
  }

  // CreateVM takes effect at most once between two removals: before a second
  // creation under a name the first VM was removed, and the two ids differ.
  lemma CreatedOncePerAbsence(log: seq<Event>, i: nat, j: nat)
    requires LegalLog(log) && i < j < |log|
    requires log[i].Created? && log[j].Created? && log[i].name == log[j].name
    ensures exists r :: i < r < j && Removes(log[r], log[i].id)
    ensures log[i].id != log[j].id
  {
    hide Commands, Instance, WellFormed, Absent, Removes;
    assert log[..i + 1][..i] == log[..i];
    assert log[i].id in State(log[..i + 1]).vms;
    NextIdGrows(log, i + 1, j);
    if forall r :: i < r < j ==> !Removes(log[r], log[i].id) {
      StaysUntilRemoved(log, i + 1, j, log[i].id);
      SecondNeedsAbsence(log, j, log[i].id);
    }
  }

  lemma SecondNeedsAbsence(log: seq<Event>, j: nat, id: VMID)
    requires LegalLog(log) && j < |log| && log[j].Created? && id in State(log[..j]).vms
    ensures State(log[..j]).vms[id].name != log[j].name
  {
    hide State;
    assert Legal(State(log[..j]), log[j]);
  }

  lemma {:induction false} StaysUntilRemoved(log: seq<Event>, i: nat, j: nat, id: VMID)
    requires LegalLog(log) && i <= j <= |log| && id in State(log[..i]).vms
    requires forall r :: i <= r < j ==> !Removes(log[r], id)
    ensures id in State(log[..j]).vms && State(log[..j]).vms[id].name == State(log[..i]).vms[id].name
    decreases j
  {
    hide After, Legal, Removes;
    if i < j {
      StaysUntilRemoved(log, i, j - 1, id);
      assert log[..j][..j - 1] == log[..j - 1];
      StaysOneStep(log, j - 1, id);
    }
  }

  lemma StaysOneStep(log: seq<Event>, k: nat, id: VMID)
    requires LegalLog(log) && k < |log| && id in State(log[..k]).vms && !Removes(log[k], id)
    ensures var s := State(log[..k]); var t := After(s, log[k]);
            id in t.vms && t.vms[id].name == s.vms[id].name
  {
    hide State, Commands, Instance;
    AlwaysSafe(log, k);
    assert Legal(State(log[..k]), log[k]);
  }

  lemma StepGrows(s: EngineState, e: Event)
    requires Legal(s, e)
    ensures s.nextId <= After(s, e).nextId
  {
  }

  lemma {:induction false} NextIdGrows(log: seq<Event>, i: nat, j: nat)
    requires LegalLog(log) && i <= j <= |log|
    ensures State(log[..i]).nextId <= State(log[..j]).nextId
    decreases j
  {
    hide Commands, Instance, WellFormed;
    if i < j {
      NextIdGrows(log, i, j - 1);
      assert log[..j][..j - 1] == log[..j - 1];
      StepGrows(State(log[..j - 1]), log[j - 1]);
    }
  }

  lemma Unfold(log: seq<Event>, k: nat)
    requires LegalLog(log) && k < |log|
    ensures State(log[..k + 1]) == After(State(log[..k]), log[k]) && Legal(State(log[..k]), log[k])
  {
    assert log[..k + 1][..k] == log[..k];
  }

  // A VM is configured only after it was seen down, when its disks are copied;
  lemma ConfiguredAfterDown(log: seq<Event>, k: nat)
    requires LegalLog(log) && k < |log| && log[k].Configured?
    ensures StatusChanged(log[k].id, "down") in log[..k]
  {
    hide State, Commands, Instance;
    Unfold(log, k);
    UnlockedByDown(log, k, log[k].id);
  }

  lemma {:induction false} UnlockedByDown(log: seq<Event>, k: nat, id: VMID)
    requires LegalLog(log) && k <= |log| && id in State(log[..k]).vms && State(log[..k]).vms[id].pending != Locked
    ensures StatusChanged(id, "down") in log[..k]
    decreases k
  {
    hide State, Commands, Instance, WellFormed, Absent;
    if k == 0 {
      NoVMsYet(log);
    } else {
      Unfold(log, k - 1);
      assert log[..k] == log[..k - 1] + [log[k - 1]];
      if log[k - 1] != StatusChanged(id, "down") { UnlockedByDown(log, k - 1, id); }
    }
  }

  lemma NoVMsYet(log: seq<Event>)
    ensures State(log[..0]).vms == map[]
  {
  }

  // after a disk was resized only once that was done;
  lemma ConfiguredAfterResize(log: seq<Event>, i: nat, k: nat)
    requires LegalLog(log) && i < k < |log| && log[i].Configured? && log[i].cmd.ExtendDisk?
    requires log[k].Configured? && log[k].id == log[i].id
    ensures exists j :: i < j < k && log[j] == DiskReady(log[i].id)
  {
    hide State, Commands, Instance;
    Unfold(log, k);
    ResizedByReady(log, i, k, log[i].id);
  }

  lemma {:induction false} ResizedByReady(log: seq<Event>, i: nat, k: nat, id: VMID)
    requires LegalLog(log) && i < k <= |log| && log[i].Configured? && log[i].id == id && log[i].cmd.ExtendDisk?
    requires id in State(log[..k]).vms && State(log[..k]).vms[id].pending != Resizing
    ensures exists j :: i < j < k && log[j] == DiskReady(id)
    decreases k
  {
    hide State, After, Legal;
    ResizingStep(log, k - 1, id);
    if k > i + 1 && log[k - 1] != DiskReady(id) {
      KnownId(log, i, k - 1, id);
      ResizedByReady(log, i, k - 1, id);
    }
  }

  // A resize is over only when the disk is ready.
  lemma ResizingStep(log: seq<Event>, k: nat, id: VMID)
    requires LegalLog(log) && k < |log| && id in State(log[..k + 1]).vms
    ensures log[k].Configured? && log[k].id == id && log[k].cmd.ExtendDisk? ==>
              State(log[..k + 1]).vms[id].pending == Resizing
    ensures State(log[..k + 1]).vms[id].pending != Resizing && log[k] != DiskReady(id) ==>
              log[k] == Created(id, State(log[..k + 1]).vms[id].name, State(log[..k + 1]).vms[id].origin) ||
              (id in State(log[..k]).vms && State(log[..k]).vms[id].pending != Resizing)
  {
    hide State, Commands, Instance, WellFormed, Absent;
    Unfold(log, k);
  }

  // An id in use at i is not handed out again.
  lemma KnownId(log: seq<Event>, i: nat, k: nat, id: VMID)
    requires LegalLog(log) && i <= k < |log| && log[i].Configured? && log[i].id == id
    ensures log[k].Created? ==> log[k].id != id
  {
    hide State, Commands, Instance, WellFormed, Absent;
    Unfold(log, i);
    Unfold(log, k);
    AlwaysSafe(log, i);
    NextIdGrows(log, i, k);
  }

  // and removed by the actuator only after it was stopped, when it is down.
  lemma RemovedAfterStop(log: seq<Event>, k: nat)
    requires LegalLog(log) && k < |log| && log[k].Removed?
    ensures Stopped(log[k].id) in log[..k]
    ensures log[k].id in State(log[..k]).vms && State(log[..k]).vms[log[k].id].status == "down"
  {
    hide State, Commands, Instance;
    Unfold(log, k);
    StoppingByStop(log, k, log[k].id);
  }

  lemma {:induction false} StoppingByStop(log: seq<Event>, k: nat, id: VMID)
    requires LegalLog(log) && k <= |log| && id in State(log[..k]).vms && State(log[..k]).vms[id].stopping
    ensures Stopped(id) in log[..k]
    decreases k
  {
    hide State, Commands, Instance, WellFormed, Absent;
    if k == 0 {
      NoVMsYet(log);
    } else {
      Unfold(log, k - 1);
      assert log[..k] == log[..k - 1] + [log[k - 1]];
      if log[k - 1] != Stopped(id) { StoppingByStop(log, k - 1, id); }
    }
  }

  // At every moment the interfaces of a live VM are a suffix of its template's
  // or a prefix of its spec's, and none of its disks is smaller than the
  // template's.
  lemma DevicesAlwaysConsistent(log: seq<Event>, k: nat, id: VMID)
    requires LegalLog(log) && k <= |log| && id in State(log[..k]).vms
    ensures var v := State(log[..k]).vms[id];
            PlanProofs.NeverMixed(v.config.nics, v.origin) &&
            |v.config.disks| == |v.origin.template.disks| &&
            forall i :: 0 <= i < |v.config.disks| ==>
              v.config.disks[i].provisionedSize >= v.origin.template.disks[i].provisionedSize
  {
    hide Commands, Instance;
    AlwaysSafe(log, k);
    var v := State(log[..k]).vms[id];
    var n :| 0 <= n <= |Commands(v.origin)| && AtStep(v, n);
    PlanProofs.NicsNeverMixed(v.origin, n);
    PlanProofs.DisksNeverShrink(v.origin, n);
  }

  // A VM with nothing left to do whose spec could be carried through is exactly
  // the VM the spec declares.
  lemma FinishedIsExpected(s: EngineState, id: VMID)
    requires Safe(s) && id in s.vms && s.vms[id].todo == [] && Complete(s.vms[id].origin)
    ensures s.vms[id].config == ExpectedVM(s.vms[id].origin)
  {
    hide Commands, Instance, ExpectedVM;
    var v := s.vms[id];
    var cmds := Commands(v.origin);
    var n :| 0 <= n <= |cmds| && AtStep(v, n);
    assert n == |cmds| && cmds[..n] == cmds;
    PlanProofs.CompilerCorrect(v.origin);
  }

  /* ---- What others may do while one operation runs ---- */

  // The same VM, up to what it reports of itself, and what the engine finished.
  predicate Like(v: VM, w: VM) {
    && v.(status := w.status, addresses := w.addresses, pending := w.pending) == w
    && StaysDown(v, w.status) && w.pending in {v.pending, Idle}
  }

  // The event is none of the writes of an operation on this machine name.
  ghost predicate Foreign(s: EngineState, e: Event, name: string) {
    match e
    case Created(_, n, _) => n != name
    case Configured(id, _) => id in s.vms ==> s.vms[id].name != name
    case Stopped(id) => id in s.vms ==> s.vms[id].name != name
    case Removed(id) => id in s.vms ==> s.vms[id].name != name
    case RemovedExternally(_) => true
    case StatusChanged(_, _) => true
    case AddressesReported(_, _) => true
    case DiskReady(_) => true
  }

  // log extends log0, and operations on this machine name wrote nothing in between.
  ghost predicate NoWrites(log0: seq<Event>, log: seq<Event>, name: string) {
    && log0 <= log
    && forall k :: |log0| <= k < |log| ==> Foreign(State(log[..k]), log[k], name)
  }

  // While the name had a VM, operations on it wrote nothing: every write of
  // theirs comes after a moment at which it had none.
  ghost predicate OnlyAfterAbsence(log0: seq<Event>, log: seq<Event>, name: string) {
    || NoWrites(log0, log, name)
    || exists k :: |log0| <= k <= |log| && Absent(State(log[..k]), name) && NoWrites(log0, log[..k], name)
  }

  lemma OnlyAfterAbsenceTrans(a: seq<Event>, b: seq<Event>, c: seq<Event>, name: string)
    requires OnlyAfterAbsence(a, b, name) && OnlyAfterAbsence(b, c, name) && b <= c
    ensures OnlyAfterAbsence(a, c, name)
  {
    hide State, NoWrites, Absent;
    if NoWrites(a, b, name) {
      if NoWrites(b, c, name) {
        NoWritesTrans(a, b, c, name);
      } else {
        var k :| |b| <= k <= |c| && Absent(State(c[..k]), name) && NoWrites(b, c[..k], name);
        NoWritesTrans(a, b, c[..k], name);
        NoWritesLonger(a, c[..k], name);
      }
    } else {
      var k :| |a| <= k <= |b| && Absent(State(b[..k]), name) && NoWrites(a, b[..k], name);
      assert c[..k] == b[..k];
    }
  }

  lemma NoWritesLonger(a: seq<Event>, b: seq<Event>, name: string)
    requires NoWrites(a, b, name)
    ensures a <= b
  {
  }

  // The name is absent now, and nothing was written for it so far.
  lemma AbsentNow(log0: seq<Event>, now: seq<Event>, log: seq<Event>, name: string)
    requires NoWrites(log0, now, name) && Absent(State(now), name) && now <= log
    ensures OnlyAfterAbsence(log0, log, name)
  {
    hide State, Absent;
    assert log[..|now|] == now;
  }

  // What such an extension leaves of the VM under the name.
  ghost predicate Keeps(s0: EngineState, s: EngineState, name: string) {
    && s0.nextId <= s.nextId
    && (forall id :: id in s.vms && s.vms[id].name == name ==> id in s0.vms && Like(s0.vms[id], s.vms[id]))
    && IdsBelow(s0) && IdsBelow(s)
    && (forall id :: id in s.vms && id < s0.nextId ==> id in s0.vms && s0.vms[id].name == s.vms[id].name)
  }

  lemma ForeignKeeps(s: EngineState, e: Event, name: string)
    requires Legal(s, e) && Foreign(s, e, name) && IdsBelow(s)
    ensures Keeps(s, After(s, e), name)
  {
    hide Commands, Instance;
  }

  lemma KeepsTrans(a: EngineState, b: EngineState, c: EngineState, name: string)
    requires Keeps(a, b, name) && Keeps(b, c, name)
    ensures Keeps(a, c, name)
  {
  }

  lemma KeepsRefl(s: EngineState, name: string)
    requires Safe(s)
    ensures Keeps(s, s, name)
  {
    hide ReachedByPrefix;
  }

  lemma KeepsIds(a: EngineState, b: EngineState, name: string)
    requires Keeps(a, b, name)
    ensures IdsBelow(b)
  {
  }

  lemma {:induction false} NoWritesKeeps(log0: seq<Event>, log: seq<Event>, name: string)
    requires LegalLog(log) && NoWrites(log0, log, name)
    ensures Keeps(State(log0), State(log), name)
    decreases |log|
  {
    hide ReachedByPrefix, After, Legal, Foreign, Keeps, IdsBelow;
    if |log0| == |log| {
      assert log0 == log;
      AlwaysSafe(log, |log|);
      assert log[..|log|] == log;
      KeepsRefl(State(log), name);
    } else {
      var n := |log| - 1;
      PrefixLegal(log, n);
      assert forall k :: 0 <= k <= n ==> log[..n][..k] == log[..k];
      NoWritesKeeps(log0, log[..n], name);
      KeepsIds(State(log0), State(log[..n]), name);
      ForeignKeeps(State(log[..n]), log[n], name);
      KeepsTrans(State(log0), State(log[..n]), State(log), name);
    }
  }

  lemma NoWritesTrans(a: seq<Event>, b: seq<Event>, c: seq<Event>, name: string)
    requires NoWrites(a, b, name) && NoWrites(b, c, name)
    ensures NoWrites(a, c, name)
  {
    forall k | |a| <= k < |c| ensures Foreign(State(c[..k]), c[k], name) {
      if k < |b| { assert c[..k] == b[..k]; }
    }
  }

  lemma NoWritesAppend(a: seq<Event>, b: seq<Event>, e: Event, name: string)
    requires NoWrites(a, b, name) && Foreign(State(b), e, name)
    ensures NoWrites(a, b + [e], name)
  {
    hide Commands, Instance, Foreign, State;
    var c := b + [e];
    forall k | |a| <= k < |c| ensures Foreign(State(c[..k]), c[k], name) {
      assert c[..k] == b[..k];
      assert k == |b| ==> b[..k] == b;
    }
  }

  /* ---- One event after an interval in which others acted ---- */

  lemma StatusKeeps(s0: EngineState, s: EngineState, id: VMID, status: string, name: string)
    requires Keeps(s0, s, name) && id in s.vms && StaysDown(s.vms[id], status)
    ensures var t := After(s, StatusChanged(id, status));
            && Keeps(s0, t, name) && t.vms.Keys == s.vms.Keys && t.vms[id].status == status
            && (status == "down" ==> t.vms[id].pending != Locked)
  {
    hide Commands, Instance;
  }

  lemma DiskKeeps(s0: EngineState, s: EngineState, id: VMID, name: string)
    requires Keeps(s0, s, name) && id in s.vms
    ensures var t := After(s, DiskReady(id));
            Keeps(s0, t, name) && t.vms.Keys == s.vms.Keys && t.vms[id].pending != Resizing
  {
    hide Commands, Instance;
  }

  lemma ConfiguredKeeps(s0: EngineState, s: EngineState, id: VMID, cmd: Command, name: string)
    requires Keeps(s0, s, name) && Legal(s, Configured(id, cmd)) && s.vms[id].name == name
    ensures var t := After(s, Configured(id, cmd));
            && t.vms.Keys == s.vms.Keys && t.nextId == s.nextId
            && id in s0.vms && s0.vms[id].todo != [] && Like(Stepped(s0.vms[id]), t.vms[id])
            && forall j :: j in t.vms && t.vms[j].name == name && j != id ==> j in s0.vms && Like(s0.vms[j], t.vms[j])
  {
    hide Commands, Instance, Apply;
  }

  // How far the deletion of a VM got.
  function Stage(v: VM): nat {
    if !v.stopping then 0 else if v.status != "down" then 1 else 2
  }

  // What a deletion may do to the VMs of its name: bring them further towards
  // removal, and nothing else.
  ghost predicate Advanced(s0: EngineState, s: EngineState, name: string) {
    forall j :: j in s.vms && s.vms[j].name == name ==>
      && j in s0.vms && Stage(s0.vms[j]) <= Stage(s.vms[j])
      && var v := s.vms[j];
         s0.vms[j].(status := v.status, addresses := v.addresses, stopping := v.stopping, pending := v.pending) == v
  }

  lemma AdvancedTrans(a: EngineState, b: EngineState, c: EngineState, name: string)
    requires Advanced(a, b, name) && Advanced(b, c, name)
    ensures Advanced(a, c, name)
  {
  }

  lemma Unadvanced(s: EngineState, name: string)
    ensures Advanced(s, s, name)
  {
  }

  lemma AdvancedGone(s0: EngineState, s: EngineState, id: VMID, name: string)
    requires Advanced(s0, s, name) && id !in s.vms
    requires forall j :: j in s0.vms && s0.vms[j].name == name ==> j == id
    ensures Absent(s, name)
  {
  }

  // Of the VMs of the name, id may have been marked as stopping, and any may be gone.
  ghost predicate OnlyStopped(s0: EngineState, s: EngineState, id: VMID, name: string) {
    forall j :: j in s.vms && s.vms[j].name == name ==>
      j in s0.vms &&
      (Like(s0.vms[j], s.vms[j]) ||
       (j == id && !s0.vms[j].stopping &&
        s0.vms[j].(stopping := true, status := s.vms[j].status, addresses := s.vms[j].addresses,
                   pending := s.vms[j].pending) == s.vms[j]))
  }

  lemma StoppedAdvances(s0: EngineState, s: EngineState, id: VMID, name: string)
    requires OnlyStopped(s0, s, id, name)
    ensures Advanced(s0, s, name)
  {
  }

  lemma KeepsAdvances(s0: EngineState, s: EngineState, name: string)
    requires Keeps(s0, s, name)
    ensures Advanced(s0, s, name)
  {
  }

  // Other machines' operations see the writes of this one as foreign.
  lemma ForeignToOthers(s: EngineState, e: Event, name: string, other: string)
    requires Legal(s, e) && other != name
    requires e.Created? ==> e.name == name
    requires !e.Created? ==> s.vms[e.id].name == name
    ensures Foreign(s, e, other)
  {
  }

  /* ---- Intervals without writes for a name ---- */

  // An engine, its log, and how many misfortunes are left.
  datatype View = View(state: EngineState, log: seq<Event>, budget: nat)

  // No VM of the name was lost without being paid for.
  ghost predicate Charged(a: View, b: View, name: string) {
    && b.budget <= a.budget
    && (b.budget == a.budget ==>
          forall id :: id in a.state.vms && a.state.vms[id].name == name ==> id in b.state.vms)
  }

  // Nothing was written on behalf of the name.
  ghost predicate Calm(a: View, b: View, name: string) {
    NoWrites(a.log, b.log, name) && Keeps(a.state, b.state, name) && Charged(a, b, name)
  }

  lemma CalmRefl(a: View, name: string)
    requires IdsBelow(a.state)
    ensures Calm(a, a, name)
  {
  }

  lemma CalmWrites(a: View, b: View, name: string)
    requires Calm(a, b, name)
    ensures NoWrites(a.log, b.log, name) && OnlyAfterAbsence(a.log, b.log, name)
  {
  }

  lemma CalmKeeps(a: View, b: View, name: string)
    requires Calm(a, b, name)
    ensures Keeps(a.state, b.state, name)
  {
  }

  // A name that was absent stays absent, and losing the last VM of a name is a misfortune.
  lemma CalmAbsent(a: View, b: View, name: string)
    requires Calm(a, b, name)
    ensures Absent(a.state, name) ==> Absent(b.state, name)
    ensures !Absent(a.state, name) && b.budget == a.budget ==> !Absent(b.state, name)
  {
  }

  lemma CalmTrans(a: View, b: View, c: View, name: string)
    requires Calm(a, b, name) && Calm(b, c, name)
    ensures Calm(a, c, name)
  {
    hide Commands, Instance, Foreign, State, NoWrites;
    NoWritesTrans(a.log, b.log, c.log, name);
  }

  lemma OnlyTheCreated(s: EngineState, name: string, o: Origin)
    requires Absent(s, name) && IdsBelow(s)
    ensures var t := After(s, Created(s.nextId, name, o));
            && t.vms[s.nextId] == FreshVM(name, o)
            && t.nextId == s.nextId + 1 && IdsBelow(t)
            && forall j :: j in t.vms && t.vms[j].name == name ==> j == s.nextId
  {
    hide Commands, Instance;
  }
}
