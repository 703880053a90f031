/** Both node controllers at work: any number of reconciles of either kind, over
    Nodes that others add, change and remove, reads that may be arbitrarily
    stale, and an engine whose VMs come and go. A world is what a run of atomic
    actions leads to; a run is legal when each action was enabled. */
module NodeSystem {
  import opened Prelude
  import Decimal

  // uid tells incarnations of one name apart; versions are unique in the cluster.
  datatype Node = Node(uid: nat, version: nat, providerID: string)

  datatype VMInfo = VMInfo(name: string, status: string)

  type VMTable = map<nat, VMInfo>

  // Where one reconcile stands, and what it learnt; since is the moment it began.
  datatype Task =
    | NodeBegun(name: string, since: nat)
    | NodeRead(name: string, since: nat, read: Node)
    | NodeMissing(name: string, since: nat, read: Node)
    | IdBegun(name: string, since: nat)
    | IdRead(name: string, since: nat, read: Node)
    | IdFound(name: string, since: nat, read: Node, id: nat)
    | Ended

  // vms holds the engine's VMs at every moment so far, ever every version of
  // every Node ever stored.
  datatype World = World(
    nodes: map<string, Node>,
    ever: set<(string, Node)>,
    nextUid: nat,
    nextVersion: nat,
    vms: seq<VMTable>,
    tasks: map<nat, Task>,
    nextTask: nat
  )

  datatype Action =
    | VMsChange(table: VMTable)
    | NodeAdded(name: string, providerID: string)
    | NodeChanged(name: string, providerID: string)
    | NodeGone(name: string)
    | BeginNode(name: string)
    | NoNode(t: nat)
    | ReadNode(t: nat, node: Node)
    | SeeVM(t: nat, id: nat, down: bool)
    | MissVM(t: nat)
    | DeleteNode(t: nat)
    | BeginId(name: string)
    | ReadId(t: nat, node: Node)
    | NoVMToName(t: nat)
    | FindVM(t: nat, id: nat)
    | WriteId(t: nat)
    | Skip(t: nat)

  const START := World(map[], {}, 0, 0, [map[]], map[], 0)

  predicate NoVM(table: VMTable, name: string) {
    forall id :: id in table ==> table[id].name != name
  }

  predicate Bears(table: VMTable, id: nat, name: string) {
    id in table && table[id].name == name
  }

  function Now(w: World): nat
    requires w.vms != []
  {
    |w.vms| - 1
  }

  // Storing one more version of a Node.
  function Stored(w: World, name: string, uid: nat, providerID: string): World {
    var n := Node(uid, w.nextVersion, providerID);
    w.(nodes := w.nodes[name := n], ever := w.ever + {(name, n)}, nextVersion := w.nextVersion + 1)
  }

  function Moved(w: World, t: nat, task: Task): World {
    w.(tasks := w.tasks[t := task])
  }

  function ProviderIDOf(id: nat): string {
    PROVIDER_ID_PREFIX + Decimal.Render(id)
  }

  /** When an action may happen. Others set a provider id only where there is
      none; a read returns any version ever stored under the name; an update needs
      the version that was read; a delete needs none. */
  predicate Enabled(w: World, a: Action) {
    w.vms != [] &&
    match a
    case VMsChange(_) => true
    case NodeAdded(name, p) => name !in w.nodes
    case NodeChanged(name, p) => name in w.nodes && (w.nodes[name].providerID != "" ==> p == w.nodes[name].providerID)
    case NodeGone(name) => name in w.nodes
    case BeginNode(name) => true
    case ReadNode(t, n) => t in w.tasks && w.tasks[t].NodeBegun? && (w.tasks[t].name, n) in w.ever
    case NoNode(t) => t in w.tasks && (w.tasks[t].NodeBegun? || w.tasks[t].IdBegun?)
    case SeeVM(t, id, down) =>
      && t in w.tasks && w.tasks[t].NodeRead? && Contains(w.tasks[t].read.providerID, PROVIDER_ID_PREFIX)
      && Bears(w.vms[Now(w)], id, w.tasks[t].name) && (w.vms[Now(w)][id].status == "down" <==> down)
    case MissVM(t) =>
      && t in w.tasks && w.tasks[t].NodeRead? && Contains(w.tasks[t].read.providerID, PROVIDER_ID_PREFIX)
      && NoVM(w.vms[Now(w)], w.tasks[t].name)
    case DeleteNode(t) => t in w.tasks && w.tasks[t].NodeMissing? && w.tasks[t].name in w.nodes
    case BeginId(name) => true
    case ReadId(t, n) => t in w.tasks && w.tasks[t].IdBegun? && (w.tasks[t].name, n) in w.ever
    case NoVMToName(t) =>
      && t in w.tasks && w.tasks[t].IdRead? && w.tasks[t].read.providerID == ""
      && NoVM(w.vms[Now(w)], w.tasks[t].name)
    case FindVM(t, id) =>
      && t in w.tasks && w.tasks[t].IdRead? && w.tasks[t].read.providerID == ""
      && Bears(w.vms[Now(w)], id, w.tasks[t].name)
    case WriteId(t) =>
      && t in w.tasks && w.tasks[t].IdFound? && w.tasks[t].name in w.nodes
      && w.nodes[w.tasks[t].name].version == w.tasks[t].read.version
    case Skip(t) =>
      t in w.tasks &&
      ((w.tasks[t].NodeRead? && !Contains(w.tasks[t].read.providerID, PROVIDER_ID_PREFIX)) ||
       (w.tasks[t].IdRead? && w.tasks[t].read.providerID != ""))
  }

  function Perform(w: World, a: Action): World
    requires Enabled(w, a)
  {
    match a
    case VMsChange(table) => w.(vms := w.vms + [table])
    case NodeAdded(name, p) => Stored(w, name, w.nextUid, p).(nextUid := w.nextUid + 1)
    case NodeChanged(name, p) => Stored(w, name, w.nodes[name].uid, p)
    case NodeGone(name) => w.(nodes := w.nodes - {name})
    case BeginNode(name) => Moved(w, w.nextTask, NodeBegun(name, Now(w))).(nextTask := w.nextTask + 1)
    case ReadNode(t, n) => Moved(w, t, NodeRead(w.tasks[t].name, w.tasks[t].since, n))
    case MissVM(t) => Moved(w, t, NodeMissing(w.tasks[t].name, w.tasks[t].since, w.tasks[t].read))
    case DeleteNode(t) => Moved(w, t, Ended).(nodes := w.nodes - {w.tasks[t].name})
    case BeginId(name) => Moved(w, w.nextTask, IdBegun(name, Now(w))).(nextTask := w.nextTask + 1)
    case ReadId(t, n) => Moved(w, t, IdRead(w.tasks[t].name, w.tasks[t].since, n))
    case FindVM(t, id) => Moved(w, t, IdFound(w.tasks[t].name, w.tasks[t].since, w.tasks[t].read, id))
    case WriteId(t) =>
      var task := w.tasks[t];
      Moved(Stored(w, task.name, w.nodes[task.name].uid, ProviderIDOf(task.id)), t, Ended)
    case NoNode(t) => Moved(w, t, Ended)
    case SeeVM(t, _, _) => Moved(w, t, Ended)
    case NoVMToName(t) => Moved(w, t, Ended)
    case Skip(t) => Moved(w, t, Ended)
  }

  function After(run: seq<Action>): World {
    if run == [] then START
    else
      var w, a := After(run[..|run| - 1]), run[|run| - 1];
      if Enabled(w, a) then Perform(w, a) else w
  }

  ghost predicate Legal(run: seq<Action>) {
    forall k :: 0 <= k < |run| ==> Enabled(After(run[..k]), run[k])
  }

  /* ---- The invariant ---- */

  ghost predicate Numbered(w: World) {
    && (forall e :: e in w.ever ==> e.1.version < w.nextVersion && e.1.uid < w.nextUid)
    && (forall t :: t in w.tasks ==> t < w.nextTask)
  }

  // The stored Node is the newest version of its incarnation.
  ghost predicate Current(w: World) {
    && (forall name :: name in w.nodes ==> (name, w.nodes[name]) in w.ever)
    && (forall name, e :: name in w.nodes && e in w.ever && e.1.uid == w.nodes[name].uid ==>
          e.1.version <= w.nodes[name].version)
  }

  // A version belongs to one Node, an incarnation to one name, and within an
  // incarnation a provider id, once set, stays.
  predicate Agree(e: (string, Node), f: (string, Node)) {
    && (e.1.version == f.1.version ==> e == f)
    && (e.1.uid == f.1.uid ==> e.0 == f.0)
    && (e.1.uid == f.1.uid && e.1.version <= f.1.version && e.1.providerID != "" ==>
          f.1.providerID == e.1.providerID)
  }

  ghost predicate WriteOnce(w: World) {
    forall e, f :: e in w.ever && f in w.ever ==> Agree(e, f)
  }

  // Adding one entry to the record.
  lemma OneMore(w: World, s: World, x: (string, Node))
    requires WriteOnce(w) && s.ever == w.ever + {x}
    requires forall e :: e in w.ever ==> Agree(e, x) && Agree(x, e)
    ensures WriteOnce(s)
  {
  }

  // What a reconcile learnt was so at some moment since it began.
  ghost predicate Learnt(w: World, task: Task) {
    match task
    case NodeBegun(_, since) => since < |w.vms|
    case NodeRead(name, since, read) => since < |w.vms| && (name, read) in w.ever
    case NodeMissing(name, since, read) =>
      && (name, read) in w.ever && Contains(read.providerID, PROVIDER_ID_PREFIX)
      && exists m :: since <= m < |w.vms| && NoVM(w.vms[m], name)
    case IdBegun(_, since) => since < |w.vms|
    case IdRead(name, since, read) => since < |w.vms| && (name, read) in w.ever
    case IdFound(name, since, read, id) =>
      && (name, read) in w.ever && read.providerID == ""
      && exists m :: since <= m < |w.vms| && Bears(w.vms[m], id, name)
    case Ended => true
  }

  ghost predicate Honest(w: World) {
    w.vms != [] && forall t :: t in w.tasks ==> Learnt(w, w.tasks[t])
  }

  ghost predicate Inv(w: World) {
    Numbered(w) && Current(w) && WriteOnce(w) && Honest(w)
  }

  // Storing a new version keeps the record, when it keeps a provider id that is set.
  lemma StoredKeeps(w: World, name: string, uid: nat, providerID: string)
    requires Numbered(w) && Current(w) && WriteOnce(w)
    requires name in w.nodes && w.nodes[name].uid == uid
    requires w.nodes[name].providerID != "" ==> providerID == w.nodes[name].providerID
    ensures var s := Stored(w, name, uid, providerID); Numbered(s) && Current(s) && WriteOnce(s)
  {
    hide Agree;
    var x := (name, Node(uid, w.nextVersion, providerID));
    forall e | e in w.ever ensures Agree(e, x) && Agree(x, e) {
      NewestAgrees(w, name, e, x);
    }
    OneMore(w, Stored(w, name, uid, providerID), x);
    forall other | other in w.nodes && other != name ensures w.nodes[other].uid != uid {
      OneNamePerUid(w, name, other);
    }
  }

  lemma OneNamePerUid(w: World, name: string, other: string)
    requires Current(w) && WriteOnce(w) && name in w.nodes && other in w.nodes
    ensures w.nodes[other].uid == w.nodes[name].uid ==> other == name
  {
  }

  lemma NewestAgrees(w: World, name: string, e: (string, Node), x: (string, Node))
    requires Numbered(w) && Current(w) && WriteOnce(w) && name in w.nodes && e in w.ever
    requires x.0 == name && x.1.uid == w.nodes[name].uid && x.1.version == w.nextVersion
    requires w.nodes[name].providerID != "" ==> x.1.providerID == w.nodes[name].providerID
    ensures Agree(e, x) && Agree(x, e)
  {
  }

  lemma AddedKeeps(w: World, name: string, providerID: string)
    requires Numbered(w) && Current(w) && WriteOnce(w)
    requires name !in w.nodes
    ensures var s := Stored(w, name, w.nextUid, providerID).(nextUid := w.nextUid + 1);
            Numbered(s) && Current(s) && WriteOnce(s)
  {
    hide Agree;
    var x := (name, Node(w.nextUid, w.nextVersion, providerID));
    forall e | e in w.ever ensures Agree(e, x) && Agree(x, e) {
      FreshAgrees(w, e, x);
    }
    OneMore(w, Stored(w, name, w.nextUid, providerID), x);
  }

  lemma FreshAgrees(w: World, e: (string, Node), x: (string, Node))
    requires Numbered(w) && e in w.ever && x.1.uid == w.nextUid && x.1.version == w.nextVersion
    ensures Agree(e, x) && Agree(x, e)
  {
  }

  lemma RemovedKeeps(w: World, name: string)
    requires Numbered(w) && Current(w) && WriteOnce(w)
    ensures var s := w.(nodes := w.nodes - {name}); Numbered(s) && Current(s) && WriteOnce(s)
  {
  }

  // What was learnt stays learnt while the record and the engine's past grow.
  lemma LearntGrows(w: World, s: World, task: Task)
    requires Learnt(w, task) && w.ever <= s.ever && w.vms <= s.vms
    ensures Learnt(s, task)
  {
  }

  // An update that carries the version of the current Node was computed from it.
  lemma SameVersionSameNode(w: World, t: nat)
    requires Inv(w) && Enabled(w, WriteId(t))
    ensures w.nodes[w.tasks[t].name] == w.tasks[t].read && w.tasks[t].read.providerID == ""
  {
  }

  lemma HonestStep(w: World, a: Action)
    requires Inv(w) && Enabled(w, a)
    ensures Honest(Perform(w, a))
  {
    hide Numbered, Current, WriteOnce, Learnt, NoVM, Contains, Bears;
    var s := Perform(w, a);
    forall t | t in s.tasks ensures Learnt(s, s.tasks[t]) {
      if t in w.tasks && s.tasks[t] == w.tasks[t] {
        LearntGrows(w, s, w.tasks[t]);
      } else {
        NewlyLearnt(w, a, t);
      }
    }
  }

  lemma NewlyLearnt(w: World, a: Action, t: nat)
    requires Inv(w) && Enabled(w, a)
    requires t in Perform(w, a).tasks && (t in w.tasks ==> Perform(w, a).tasks[t] != w.tasks[t])
    ensures Learnt(Perform(w, a), Perform(w, a).tasks[t])
  {
    hide Numbered, Current, WriteOnce, NoVM, Contains, Bears;
    if t in w.tasks { assert Learnt(w, w.tasks[t]); }
  }

  lemma RecordStep(w: World, a: Action)
    requires Inv(w) && Enabled(w, a)
    ensures var s := Perform(w, a); Numbered(s) && Current(s) && WriteOnce(s)
  {
    hide Agree, Learnt, Contains, NoVM, Bears, Numbered, Current, WriteOnce;
    var s := Perform(w, a);
    TasksBelow(w);
    match a {
      case NodeAdded(name, p) => AddedKeeps(w, name, p);
      case NodeChanged(name, p) => StoredKeeps(w, name, w.nodes[name].uid, p);
      case NodeGone(name) => RemovedKeeps(w, name);
      case DeleteNode(t) =>
        RemovedKeeps(w, w.tasks[t].name);
        SameRecord(w.(nodes := w.nodes - {w.tasks[t].name}), s);
      case WriteId(t) =>
        var name := w.tasks[t].name;
        SameVersionSameNode(w, t);
        StoredKeeps(w, name, w.nodes[name].uid, ProviderIDOf(w.tasks[t].id));
        SameRecord(Stored(w, name, w.nodes[name].uid, ProviderIDOf(w.tasks[t].id)), s);
      case _ => SameRecord(w, s);
    }
  }

  lemma TasksBelow(w: World)
    requires Numbered(w)
    ensures forall t :: t in w.tasks ==> t < w.nextTask
  {
  }

  // Everything else leaves the record of the Nodes alone.
  lemma SameRecord(w: World, s: World)
    requires Numbered(w) && Current(w) && WriteOnce(w)
    requires s.nodes == w.nodes && s.ever == w.ever && s.nextUid == w.nextUid && s.nextVersion == w.nextVersion
    requires forall t :: t in s.tasks ==> t < s.nextTask
    ensures Numbered(s) && Current(s) && WriteOnce(s)
  {
  }

  lemma {:induction false} AlwaysInv(run: seq<Action>, k: nat)
    requires Legal(run) && k <= |run|
    ensures Inv(After(run[..k]))
    decreases k
  {
    hide Numbered, Current, WriteOnce, Honest, Perform;
    if k == 0 {
      StartInv();
    } else {
      AlwaysInv(run, k - 1);
      assert run[..k][..k - 1] == run[..k - 1];
      RecordStep(After(run[..k - 1]), run[k - 1]);
      HonestStep(After(run[..k - 1]), run[k - 1]);
    }
  }

  lemma StartInv()
    ensures Inv(START)
  {
  }

  /* ---- What holds of every legal run ---- */

  /** A Node is deleted by the node controller only if at some moment since that
      reconcile began no VM had its name; and if it is still the incarnation that
      was read, its provider id is the oVirt one that was read. */
  lemma DeletionJustified(run: seq<Action>, k: nat)
    requires Legal(run) && k < |run| && run[k].DeleteNode?
    ensures var w := After(run[..k]);
            var task := w.tasks[run[k].t];
            var node := w.nodes[task.name];
            && (exists m :: task.since <= m < |w.vms| && NoVM(w.vms[m], task.name))
            && (node.uid == task.read.uid ==>
                  node.providerID == task.read.providerID && Contains(node.providerID, "ovirt://"))
            && task.name in w.nodes && After(run[..k + 1]).nodes == w.nodes - {task.name}
  {
    hide After, NoVM, Contains, Numbered;
    AlwaysInv(run, k);
    var w := After(run[..k]);
    assert Enabled(w, run[k]);
    NextWorld(run, k);
    var task := w.tasks[run[k].t];
    assert Learnt(w, task);
    NotEmpty(task.read.providerID);
    if w.nodes[task.name].uid == task.read.uid {
      assert Agree((task.name, task.read), (task.name, w.nodes[task.name]));
    }
  }

  lemma NextWorld(run: seq<Action>, k: nat)
    requires Legal(run) && k < |run|
    ensures Enabled(After(run[..k]), run[k]) && After(run[..k + 1]) == Perform(After(run[..k]), run[k])
  {
    hide Enabled, Perform;
    assert run[..k + 1][..k] == run[..k];
  }

  /** No other step of a reconcile changes a Node. */
  lemma OnlyTwoStepsWrite(run: seq<Action>, k: nat)
    requires Legal(run) && k < |run|
    requires run[k].BeginNode? || run[k].NoNode? || run[k].ReadNode? || run[k].SeeVM? || run[k].MissVM? ||
             run[k].BeginId? || run[k].ReadId? || run[k].NoVMToName? || run[k].FindVM? || run[k].Skip?
    ensures After(run[..k + 1]).nodes == After(run[..k]).nodes
  {
    hide After, NoVM, Contains;
    NextWorld(run, k);
  }

  lemma NotEmpty(s: string)
    requires Contains(s, PROVIDER_ID_PREFIX)
    ensures s != ""
  {
  }

  /** The ProviderID controller changes a Node only by moving its provider id
      from empty to the id of a VM that bore the Node's name at some moment since
      that reconcile began. */
  lemma IdWrittenOnlyWhereEmpty(run: seq<Action>, k: nat)
    requires Legal(run) && k < |run| && run[k].WriteId?
    ensures var w, s := After(run[..k]), After(run[..k + 1]);
            var task := w.tasks[run[k].t];
            && task.name in w.nodes && w.nodes[task.name].providerID == ""
            && s.nodes == w.nodes[task.name :=
                                    Node(w.nodes[task.name].uid, w.nextVersion, "ovirt://" + Decimal.Render(task.id))]
            && exists m :: task.since <= m < |w.vms| && Bears(w.vms[m], task.id, task.name)
  {
    hide Numbered, Current, WriteOnce;
    AlwaysInv(run, k);
    var w := After(run[..k]);
    assert Enabled(w, run[k]);
    SameVersionSameNode(w, run[k].t);
    assert Learnt(w, w.tasks[run[k].t]);
    assert run[..k + 1][..k] == run[..k];
  }

  /** Within one incarnation a provider id that is set never changes again. */
  lemma ProviderIDWriteOnce(run: seq<Action>, i: nat, j: nat, name: string)
    requires Legal(run) && i <= j <= |run|
    requires name in After(run[..i]).nodes && name in After(run[..j]).nodes
    requires After(run[..i]).nodes[name].uid == After(run[..j]).nodes[name].uid
    requires After(run[..i]).nodes[name].providerID != ""
    ensures After(run[..j]).nodes[name].providerID == After(run[..i]).nodes[name].providerID
  {
    hide Numbered, Current, WriteOnce, Honest, After, Legal;
    AlwaysInv(run, i);
    AlwaysInv(run, j);
    EverGrows(run, i, j);
    SetIdStays(After(run[..i]), After(run[..j]), name);
  }

  lemma SetIdStays(w: World, s: World, name: string)
    requires Current(w) && Current(s) && WriteOnce(s) && w.ever <= s.ever
    requires name in w.nodes && name in s.nodes && w.nodes[name].uid == s.nodes[name].uid
    ensures w.nodes[name].providerID != "" ==> s.nodes[name].providerID == w.nodes[name].providerID
  {
  }

  lemma {:induction false} EverGrows(run: seq<Action>, i: nat, j: nat)
    requires Legal(run) && i <= j <= |run|
    ensures After(run[..i]).ever <= After(run[..j]).ever
    decreases j
  {
    hide Enabled;
    if i < j {
      EverGrows(run, i, j - 1);
      assert run[..j][..j - 1] == run[..j - 1];
    }
  }

  /* ---- What does not hold ---- */

  predicate VMOf(w: World, name: string) {
    w.vms != [] && exists id :: id in w.vms[Now(w)] && w.vms[Now(w)][id].name == name
  }

  /** The delete carries no precondition: it may hit a new incarnation without any
      provider id, while a VM of that name is there. */
  lemma AnotherIncarnationDeleted() returns (run: seq<Action>)
    ensures Legal(run) && Enabled(After(run), DeleteNode(0))
    ensures var w := After(run);
            var name := w.tasks[0].name;
            w.nodes[name].uid != w.tasks[0].read.uid && w.nodes[name].providerID == "" && VMOf(w, name)
  {
    hide After, Legal, Contains, NoVM, Bears;
    var first := Node(0, 0, PROVIDER_ID_PREFIX + "5");
    run := NodeFoundMissing(first);
    run := Extend(run, NodeGone("n"));
    run := Extend(run, NodeAdded("n", ""));
    run := Extend(run, VMsChange(map[7 := VMInfo("n", "up")]));
    assert 7 in After(run).vms[Now(After(run))];
  }

  // A reconcile read this Node and found no VM for it.
  lemma NodeFoundMissing(first: Node) returns (run: seq<Action>)
    requires first == Node(0, 0, PROVIDER_ID_PREFIX + "5")
    ensures Legal(run)
    ensures After(run)
            == World(map["n" := first], {("n", first)}, 1, 1, [map[]], map[0 := NodeMissing("n", 0, first)], 1)
  {
    hide After, Legal, Contains, NoVM, Bears;
    HasPrefix("5");
    NothingThere("n");
    run := Extend([], NodeAdded("n", first.providerID));
    run := Extend(run, BeginNode("n"));
    run := Extend(run, ReadNode(0, first));
    run := Extend(run, MissVM(0));
  }

  lemma HasPrefix(s: string)
    ensures Contains(PROVIDER_ID_PREFIX + s, PROVIDER_ID_PREFIX)
  {
  }

  lemma NothingThere(name: string)
    ensures Legal([]) && After([]) == START && NoVM(map[], name)
  {
  }

  lemma Extend(run: seq<Action>, a: Action) returns (more: seq<Action>)
    requires Legal(run) && Enabled(After(run), a)
    ensures more == run + [a] && Legal(more) && After(more) == Perform(After(run), a)
  {
    AppendAction(run, a);
    more := run + [a];
  }

  /* ---- The record of one more action ---- */

  lemma AppendAction(run: seq<Action>, a: Action)
    requires Legal(run) && Enabled(After(run), a)
    ensures Legal(run + [a]) && After(run + [a]) == Perform(After(run), a)
  {
    hide Enabled, Perform;
    var all := run + [a];
    assert all[..|all| - 1] == run;
    forall k | 0 <= k < |all| ensures Enabled(After(all[..k]), all[k]) {
      assert k < |run| ==> all[..k] == run[..k];
    }
  }
}
