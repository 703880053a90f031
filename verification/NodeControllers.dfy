/** The two Reconcile functions as programs over the shared world: each call they
    make is one atomic action, and between any two of them everybody else, other
    reconciles included, may act. */
module NodeControllers {
  import opened Prelude
  import opened NodeSystem

  datatype Requeue = NoRequeue | RequeueDefault | RequeueAfter(seconds: nat)

  const RETRY_INTERVAL_VM_DOWN: nat := 60

  // The action is a step of reconcile t.
  predicate StepOf(a: Action, t: nat) {
    match a
    case NoNode(u) => u == t
    case ReadNode(u, _) => u == t
    case SeeVM(u, _, _) => u == t
    case MissVM(u) => u == t
    case DeleteNode(u) => u == t
    case ReadId(u, _) => u == t
    case NoVMToName(u) => u == t
    case FindVM(u, _) => u == t
    case WriteId(u) => u == t
    case Skip(u) => u == t
    case _ => false
  }

  // The steps of reconcile t from position n of the run on.
  function Steps(run: seq<Action>, n: nat, t: nat): seq<Action> {
    if |run| <= n then []
    else
      var a := run[|run| - 1];
      Steps(run[..|run| - 1], n, t) + if StepOf(a, t) then [a] else []
  }

  /** What the steps of a node reconcile say about its result. Whatever happens
      after the VM was missed, a successful delete included, is an error. */
  predicate NodeOutcome(steps: seq<Action>, t: nat, node: Node, id: nat, result: Requeue, failed: bool) {
    if failed then
      result == RequeueDefault && steps <= [ReadNode(t, node), MissVM(t), DeleteNode(t)]
    else if result == RequeueAfter(60) then
      steps == [ReadNode(t, node), SeeVM(t, id, true)]
    else
      && result == NoRequeue
      && (steps == [NoNode(t)] || steps == [ReadNode(t, node), Skip(t)] ||
          steps == [ReadNode(t, node), SeeVM(t, id, false)])
  }

  // The same for a ProviderID reconcile.
  predicate IdOutcome(steps: seq<Action>, t: nat, node: Node, id: nat, result: Requeue, failed: bool) {
    var written := [ReadId(t, node), FindVM(t, id), WriteId(t)];
    if failed then
      result == RequeueDefault && steps <= written
    else
      && result == NoRequeue
      && (steps == written || steps == [NoNode(t)] || steps == [ReadId(t, node), Skip(t)] ||
          steps == [ReadId(t, node), NoVMToName(t)])
  }

  // The steps say which result it is, except that a write may fail after its effect.
  lemma OneResult(steps: seq<Action>, t: nat, node: Node, node': Node, id: nat, id': nat,
                  result: Requeue, result': Requeue, failed: bool, failed': bool)
    ensures NodeOutcome(steps, t, node, id, result, failed) && NodeOutcome(steps, t, node', id', result', failed') ==>
              result == result' && failed == failed'
    ensures IdOutcome(steps, t, node, id, result, failed) && IdOutcome(steps, t, node', id', result', failed')
            && |steps| < 3 ==>
              result == result' && failed == failed'
    ensures IdOutcome(steps, t, node, id, result, failed) && |steps| >= 3 ==>
              steps[2] == WriteId(t) && result == if failed then RequeueDefault else NoRequeue
  {
    if |steps| > 1 { var first, second := steps[0], steps[1]; } else if |steps| > 0 { var first := steps[0]; }
  }

  // What only the engine could tell.
  predicate AskedEngine(steps: seq<Action>) {
    exists a :: a in steps && (a.SeeVM? || a.MissVM? || a.FindVM? || a.NoVMToName?)
  }

  // A reconcile that ended before it came to the engine.
  lemma NodeEarly(t: nat, node: Node, id: nat)
    ensures NodeOutcome([], t, node, id, RequeueDefault, true) && !AskedEngine([])
    ensures NodeOutcome([NoNode(t)], t, node, id, NoRequeue, false) && !AskedEngine([NoNode(t)])
    ensures var skipped := [ReadNode(t, node), Skip(t)];
            NodeOutcome(skipped, t, node, id, NoRequeue, false) && !AskedEngine(skipped)
  {
  }

  lemma IdEarly(t: nat, node: Node, id: nat)
    ensures IdOutcome([], t, node, id, RequeueDefault, true) && !AskedEngine([])
    ensures IdOutcome([NoNode(t)], t, node, id, NoRequeue, false) && !AskedEngine([NoNode(t)])
    ensures var skipped := [ReadId(t, node), Skip(t)];
            IdOutcome(skipped, t, node, id, NoRequeue, false) && !AskedEngine(skipped)
  {
  }

  // The Node that was read is no longer the stored one.
  predicate MovedOn(w: World, name: string, version: nat) {
    name in w.nodes ==> w.nodes[name].version != version
  }

  class Cluster {
    var world: World
    // How many calls may still fail, and how many connections to the engine were made.
    var faults: nat
    var connections: nat
    // With upToDate set, the manager's cache is.
    const upToDate: bool
    ghost var run: seq<Action>

    ghost predicate Valid()
      reads this
    {
      Legal(run) && world == After(run) && world.vms != []
    }

    // The run went on without reconcile t, which is where it was.
    twostate predicate Without(t: nat)
      reads this
    {
      && Valid() && old(run) <= run && old(world).nextTask <= world.nextTask && faults <= old(faults)
      && (forall n: nat :: n <= |old(run)| ==> Steps(run, n, t) == Steps(old(run), n, t))
      && (t in old(world).tasks ==> t in world.tasks && world.tasks[t] == old(world).tasks[t])
    }

    constructor (misfortunes: nat, cached: bool)
      ensures Valid() && run == [] && faults == misfortunes && upToDate == cached
    {
      world, run, faults, connections, upToDate := START, [], misfortunes, 0, cached;
    }

    // What everybody else may do between two calls of reconcile t.
    method Interfere(ghost t: nat)
      requires Valid()
      modifies this`world, this`run
      ensures Without(t)
    {
    }

    method Misfortune() returns (failed: bool)
      modifies this`faults
      ensures faults == if failed then old(faults) - 1 else old(faults)
    {
      failed := false;
      if * {
        if faults > 0 {
          failed := true;
          faults := faults - 1;
        }
      }
    }

    // cachedOVirtClient.Get, on behalf of a controller.
    method Connect() returns (failed: bool)
      modifies this`faults, this`connections
      ensures connections == old(connections) + 1
      ensures faults == if failed then old(faults) - 1 else old(faults)
    {
      connections := connections + 1;
      failed := Misfortune();
    }

    method Do(a: Action, ghost t: nat)
      requires Valid() && Enabled(world, a)
      modifies this`world, this`run
      ensures Valid() && run == old(run) + [a] && world == Perform(old(world), a)
      ensures forall n: nat :: n <= |old(run)| ==>
                Steps(run, n, t) == Steps(old(run), n, t) + if StepOf(a, t) then [a] else []
    {
      hide Enabled, Legal, After;
      AppendAction(run, a);
      KeepsVMs(world, a);
      run := run + [a];
      world := Perform(world, a);
      assert run[..|run| - 1] == old(run);
    }

    // A read through the manager's cache: any version ever stored, or none.
    method Get(name: string, ghost t: nat) returns (node: Option<Node>, err: Option<Error>)
      requires Valid()
      modifies this`world, this`run, this`faults
      ensures Without(t)
      ensures node.Some? <==> err.None?
      ensures node.Some? ==> (name, node.value) in world.ever
      ensures upToDate && node.Some? ==> name in world.nodes && node.value == world.nodes[name]
      ensures upToDate && err == Some(ENotFound) ==> name !in world.nodes
      ensures err == Some(EOther) ==> faults < old(faults)
    {
      Interfere(t);
      var failed := Misfortune();
      if failed { return None, Some(EOther); }
      if upToDate {
        if name !in world.nodes { return None, Some(ENotFound); }
        StoredEver(world, run, name);
        return Some(world.nodes[name]), None;
      }
      if * { return None, Some(ENotFound); }
      if e :| e in world.ever && e.0 == name { return Some(e.1), None; }
      return None, Some(ENotFound);
    }

    method GetVMByName(name: string, ghost t: nat) returns (vm: Option<nat>, status: string, err: Option<Error>)
      requires Valid()
      modifies this`world, this`run, this`faults
      ensures Without(t)
      ensures vm.Some? <==> err.None?
      ensures err == Some(EOther) ==> faults < old(faults)
      ensures vm.Some? ==> Bears(world.vms[Now(world)], vm.value, name) &&
                           status == world.vms[Now(world)][vm.value].status
      ensures err == Some(ENotFound) ==> NoVM(world.vms[Now(world)], name)
    {
      Interfere(t);
      var failed := Misfortune();
      if failed { return None, "", Some(EOther); }
      var table := world.vms[Now(world)];
      if id :| id in table && table[id].name == name { return Some(id), table[id].status, None; }
      return None, "", Some(ENotFound);
    }

    // The write took effect, or failed before or after it did.
    twostate predicate MayHave(a: Action, t: nat, failed: bool)
      reads this
    {
      && Valid() && old(run) <= run && faults <= old(faults)
      && forall n: nat :: n <= |old(run)| ==>
           || Steps(run, n, t) == Steps(old(run), n, t) + [a]
           || (failed && Steps(run, n, t) == Steps(old(run), n, t))
    }

    // Deletes whatever Node has the name now.
    method Delete(t: nat) returns (failed: bool)
      requires Valid() && t in world.tasks && world.tasks[t].NodeMissing?
      modifies this`world, this`run, this`faults
      ensures MayHave(DeleteNode(t), t, failed)
      ensures failed && faults == old(faults) ==>
                && old(world.tasks[t].name) !in world.nodes
                && forall n: nat :: n <= |old(run)| ==> Steps(run, n, t) == Steps(old(run), n, t)
    {
      hide Perform, Legal, After, Steps;
      Interfere(t);
      failed := Misfortune();
      if failed { return true; }
      if world.tasks[t].name !in world.nodes { return true; }
      Do(DeleteNode(t), t);
      failed := Misfortune();
    }

    // Stores the provider id if the Node still has the version that was read.
    method Update(t: nat) returns (failed: bool)
      requires Valid() && t in world.tasks && world.tasks[t].IdFound?
      modifies this`world, this`run, this`faults
      ensures MayHave(WriteId(t), t, failed)
      ensures failed && faults == old(faults) ==>
                && MovedOn(world, old(world.tasks[t].name), old(world.tasks[t].read.version))
                && forall n: nat :: n <= |old(run)| ==> Steps(run, n, t) == Steps(old(run), n, t)
    {
      hide Perform, Legal, After, Steps;
      Interfere(t);
      failed := Misfortune();
      if failed { return true; }
      var task := world.tasks[t];
      if task.name !in world.nodes || world.nodes[task.name].version != task.read.version { return true; }
      Do(WriteId(t), t);
      failed := Misfortune();
    }
  }

  lemma KeepsVMs(w: World, a: Action)
    requires Enabled(w, a)
    ensures Perform(w, a).vms != []
  {
  }

  lemma StoredEver(w: World, run: seq<Action>, name: string)
    requires Legal(run) && w == After(run) && name in w.nodes
    ensures (name, w.nodes[name]) in w.ever
  {
    hide After, Legal, Numbered, WriteOnce, Honest;
    AlwaysInv(run, |run|);
    assert run[..|run|] == run;
  }

  lemma NoStepsYet(run: seq<Action>, t: nat)
    ensures Steps(run, |run|, t) == []
  {
  }

  lemma Begins(w: World, name: string)
    requires w.vms != []
    ensures Enabled(w, BeginNode(name)) && Enabled(w, BeginId(name))
    ensures var v := Perform(w, BeginNode(name));
            w.nextTask in v.tasks && v.tasks[w.nextTask] == NodeBegun(name, Now(w))
    ensures var v := Perform(w, BeginId(name));
            w.nextTask in v.tasks && v.tasks[w.nextTask] == IdBegun(name, Now(w))
  {
  }

  lemma FindsNone(w: World, t: nat)
    requires w.vms != [] && t in w.tasks && (w.tasks[t].NodeBegun? || w.tasks[t].IdBegun?)
    ensures Enabled(w, NoNode(t)) && Perform(w, NoNode(t)).nodes == w.nodes
  {
  }

  lemma Reads(w: World, t: nat, node: Node)
    requires w.vms != [] && t in w.tasks
    ensures w.tasks[t].NodeBegun? && (w.tasks[t].name, node) in w.ever ==>
              && Enabled(w, ReadNode(t, node))
              && var v := Perform(w, ReadNode(t, node));
              && t in v.tasks && v.tasks[t] == NodeRead(w.tasks[t].name, w.tasks[t].since, node)
              && (!Contains(node.providerID, PROVIDER_ID_PREFIX) ==> Enabled(v, Skip(t)))
    ensures w.tasks[t].IdBegun? && (w.tasks[t].name, node) in w.ever ==>
              && Enabled(w, ReadId(t, node))
              && var v := Perform(w, ReadId(t, node));
              && t in v.tasks && v.tasks[t] == IdRead(w.tasks[t].name, w.tasks[t].since, node)
              && (node.providerID != "" ==> Enabled(v, Skip(t)))
  {
    hide Contains;
  }

  class NodeController {
    const cluster: Cluster

    constructor (c: Cluster)
      ensures cluster == c
    {
      cluster := c;
    }

    // t is the number of this reconcile; node and id are what it read and found.
    method Reconcile(name: string)
      returns (result: Requeue, failed: bool, ghost t: nat, ghost node: Node, ghost id: nat)
      requires cluster.Valid()
      modifies cluster
      ensures cluster.Valid() && old(cluster.run) < cluster.run && t >= old(cluster.world).nextTask
      ensures var steps := Steps(cluster.run, |old(cluster.run)|, t);
              && NodeOutcome(steps, t, node, id, result, failed)
              && (failed && cluster.faults == old(cluster.faults) ==>
                    || steps == [ReadNode(t, node), MissVM(t), DeleteNode(t)]
                    || (steps == [ReadNode(t, node), MissVM(t)] && name !in cluster.world.nodes))
              && (cluster.upToDate && steps == [NoNode(t)] ==> name !in cluster.world.nodes)
              && (AskedEngine(steps) ==> cluster.connections == old(cluster.connections) + 1)
              && (!failed && !AskedEngine(steps) ==> cluster.connections == old(cluster.connections))
      ensures cluster.faults <= old(cluster.faults)
    {
      hide Legal, After, Contains, Steps, Enabled, Perform, AskedEngine, NodeOutcome, MovedOn;
      ghost var n := |cluster.run|;
      node, id := Node(0, 0, ""), 0;
      var task := cluster.world.nextTask;
      t := task;
      NoStepsYet(cluster.run, t);
      Begins(cluster.world, name);
      cluster.Do(BeginNode(name), t);
      var found, err := cluster.Get(name, t);
      if err.Some? {
        assert err.value == ENotFound || err.value == EOther;
        NodeEarly(t, node, id);
        if err.value == ENotFound {
          FindsNone(cluster.world, task);
          cluster.Do(NoNode(task), t);
          assert Steps(cluster.run, n, t) == [NoNode(t)];
          return NoRequeue, false, t, node, id;
        }
        return RequeueDefault, true, t, node, id;
      }
      node := found.value;
      NodeEarly(t, node, id);
      Reads(cluster.world, task, found.value);
      cluster.Do(ReadNode(task, found.value), t);
      assert Steps(cluster.run, n, t) == [ReadNode(t, node)];
      if !Contains(found.value.providerID, PROVIDER_ID_PREFIX) {
        cluster.Do(Skip(task), t);
        assert Steps(cluster.run, n, t) == [ReadNode(t, node), Skip(t)];
        return NoRequeue, false, t, node, id;
      }
      result, failed, id := ReconcileVM(name, task, found.value, n);
    }

    // The part that asks the engine.
    method ReconcileVM(name: string, t: nat, ghost node: Node, ghost n: nat)
      returns (result: Requeue, failed: bool, ghost id: nat)
      requires cluster.Valid() && n <= |cluster.run| && Steps(cluster.run, n, t) == [ReadNode(t, node)]
      requires t in cluster.world.tasks && cluster.world.tasks[t].NodeRead?
      requires cluster.world.tasks[t].name == name &&
                Contains(cluster.world.tasks[t].read.providerID, PROVIDER_ID_PREFIX)
      modifies cluster
      ensures cluster.Valid() && old(cluster.run) <= cluster.run && cluster.faults <= old(cluster.faults)
      ensures NodeOutcome(Steps(cluster.run, n, t), t, node, id, result, failed)
      ensures failed && cluster.faults == old(cluster.faults) ==>
                || Steps(cluster.run, n, t) == [ReadNode(t, node), MissVM(t), DeleteNode(t)]
                || (Steps(cluster.run, n, t) == [ReadNode(t, node), MissVM(t)] && name !in cluster.world.nodes)
      ensures !failed ==> AskedEngine(Steps(cluster.run, n, t))
      ensures Steps(cluster.run, n, t) != [NoNode(t)]
      ensures cluster.connections == old(cluster.connections) + 1
    {
      hide Legal, After, Contains, NoVM, Bears, Steps;
      id := 0;
      failed := cluster.Connect();
      if failed { return RequeueDefault, true, id; }
      var vm, status, err := cluster.GetVMByName(name, t);
      if err.Some? {
        assert err.value == ENotFound || err.value == EOther;
        if err.value == ENotFound {
          cluster.Do(MissVM(t), t);
          assert Steps(cluster.run, n, t) == [ReadNode(t, node), MissVM(t)];
          failed := cluster.Delete(t);
          assert Steps(cluster.run, n, t) == [ReadNode(t, node), MissVM(t)] ||
                 Steps(cluster.run, n, t) == [ReadNode(t, node), MissVM(t), DeleteNode(t)];
          if failed { return RequeueDefault, true, id; }
        }
        // Falling through: a delete without error ends in this error, too.
        return RequeueDefault, true, id;
      }
      id := vm.value;
      SeesVM(cluster.world, t, vm.value);
      cluster.Do(SeeVM(t, vm.value, status == "down"), t);
      assert Steps(cluster.run, n, t) == [ReadNode(t, node), SeeVM(t, id, status == "down")];
      if status == "down" { return RequeueAfter(RETRY_INTERVAL_VM_DOWN), false, id; }
      return NoRequeue, false, id;
    }
  }

  lemma SeesVM(w: World, t: nat, id: nat)
    requires t in w.tasks && w.tasks[t].NodeRead? && Contains(w.tasks[t].read.providerID, PROVIDER_ID_PREFIX)
    requires w.vms != [] && Bears(w.vms[Now(w)], id, w.tasks[t].name)
    ensures id in w.vms[Now(w)] && Enabled(w, SeeVM(t, id, w.vms[Now(w)][id].status == "down"))
  {
  }

  class ProviderIDController {
    const cluster: Cluster

    constructor (c: Cluster)
      ensures cluster == c
    {
      cluster := c;
    }

    // A missing VM is no error, and no id either.
    method FetchOvirtVmID(name: string, ghost t: nat) returns (vm: Option<nat>, failed: bool)
      requires cluster.Valid()
      modifies cluster
      ensures cluster.Without(t) && cluster.connections == old(cluster.connections) + 1
      ensures failed ==> vm.None? && cluster.faults < old(cluster.faults)
      ensures vm.Some? ==> Bears(cluster.world.vms[Now(cluster.world)], vm.value, name)
      ensures !failed && vm.None? ==> NoVM(cluster.world.vms[Now(cluster.world)], name)
    {
      hide Legal, After, NoVM, Steps;
      failed := cluster.Connect();
      if failed { return None, true; }
      var status, err;
      vm, status, err := cluster.GetVMByName(name, t);
      assert err.Some? ==> err.value == ENotFound || err.value == EOther;
      return vm, err.Some? && err.value != ENotFound;
    }

    method Reconcile(name: string)
      returns (result: Requeue, failed: bool, ghost t: nat, ghost node: Node, ghost id: nat)
      requires cluster.Valid()
      modifies cluster
      ensures cluster.Valid() && old(cluster.run) < cluster.run && t >= old(cluster.world).nextTask
      ensures var steps := Steps(cluster.run, |old(cluster.run)|, t);
              && IdOutcome(steps, t, node, id, result, failed)
              && (failed && cluster.faults == old(cluster.faults) ==>
                    steps == [ReadId(t, node), FindVM(t, id)] && MovedOn(cluster.world, name, node.version))
              && (cluster.upToDate && steps == [NoNode(t)] ==> name !in cluster.world.nodes)
              && (AskedEngine(steps) ==> cluster.connections == old(cluster.connections) + 1)
              && (!failed && !AskedEngine(steps) ==> cluster.connections == old(cluster.connections))
      ensures cluster.faults <= old(cluster.faults)
    {
      hide Legal, After, Contains, Steps, Enabled, Perform, AskedEngine, IdOutcome, MovedOn;
      ghost var n := |cluster.run|;
      node, id := Node(0, 0, ""), 0;
      var task := cluster.world.nextTask;
      t := task;
      NoStepsYet(cluster.run, t);
      Begins(cluster.world, name);
      cluster.Do(BeginId(name), t);
      var found, err := cluster.Get(name, t);
      if err.Some? {
        assert err.value == ENotFound || err.value == EOther;
        IdEarly(t, node, id);
        if err.value == ENotFound {
          FindsNone(cluster.world, task);
          cluster.Do(NoNode(task), t);
          assert Steps(cluster.run, n, t) == [NoNode(t)];
          return NoRequeue, false, t, node, id;
        }
        return RequeueDefault, true, t, node, id;
      }
      node := found.value;
      IdEarly(t, node, id);
      Reads(cluster.world, task, found.value);
      cluster.Do(ReadId(task, found.value), t);
      assert Steps(cluster.run, n, t) == [ReadId(t, node)];
      if found.value.providerID == "" {
        result, failed, id := SetProviderID(name, task, found.value, n);
        return;
      }
      cluster.Do(Skip(task), t);
      assert Steps(cluster.run, n, t) == [ReadId(t, node), Skip(t)];
      return NoRequeue, false, t, node, id;
    }

    // The part for a Node without a provider id.
    method SetProviderID(name: string, t: nat, ghost node: Node, ghost n: nat)
      returns (result: Requeue, failed: bool, ghost id: nat)
      requires cluster.Valid() && n <= |cluster.run| && Steps(cluster.run, n, t) == [ReadId(t, node)]
      requires t in cluster.world.tasks && cluster.world.tasks[t].IdRead?
      requires cluster.world.tasks[t].name == name && cluster.world.tasks[t].read == node && node.providerID == ""
      modifies cluster
      ensures cluster.Valid() && old(cluster.run) <= cluster.run && cluster.faults <= old(cluster.faults)
      ensures IdOutcome(Steps(cluster.run, n, t), t, node, id, result, failed)
      ensures failed && cluster.faults == old(cluster.faults) ==>
                && Steps(cluster.run, n, t) == [ReadId(t, node), FindVM(t, id)]
                && MovedOn(cluster.world, name, node.version)
      ensures !failed ==> AskedEngine(Steps(cluster.run, n, t))
      ensures Steps(cluster.run, n, t) != [NoNode(t)]
      ensures cluster.connections == old(cluster.connections) + 1
    {
      hide Legal, After, Contains, NoVM, Bears, Steps;
      id := 0;
      var vm;
      vm, failed := FetchOvirtVmID(name, t);
      if failed { return RequeueDefault, true, id; }
      if vm.None? {
        cluster.Do(NoVMToName(t), t);
        assert Steps(cluster.run, n, t) == [ReadId(t, node), NoVMToName(t)];
        return NoRequeue, false, id;
      }
      id := vm.value;
      cluster.Do(FindVM(t, vm.value), t);
      assert Steps(cluster.run, n, t) == [ReadId(t, node), FindVM(t, id)];
      failed := cluster.Update(t);
      assert Steps(cluster.run, n, t) == [ReadId(t, node), FindVM(t, id), WriteId(t)] ||
             (failed && Steps(cluster.run, n, t) == [ReadId(t, node), FindVM(t, id)]);
      return if failed then RequeueDefault else NoRequeue, failed, id;
    }
  }
}
