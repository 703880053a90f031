/** The same code interleaved: one service thread that fans credentials out and
    any number of threads in Get, each cache guarded by its mutex. A generation
    counts the valid events so far; a cache holds the generation of its
    credentials and the one its client was built from. */
module CredentialSystem {
  import opened Prelude
  import opened CredentialEvents

  // Generation 0 stands for the nil credentials before the first valid event.
  // alive says whether the client, if there is one, reaches the engine.
  datatype Cache = Cache(gen: nat, client: Option<nat>, alive: bool)

  datatype Lock = Free | Service | Getter(thread: nat)

  // Where the service thread is; k is the listener it is at.
  datatype Fan = Idle | Next(k: nat) | Locked(k: nat) | Assigned(k: nat) | Built(k: nat)

  // Where a thread in Get is; c is its cache.
  datatype Get = Entered(c: nat) | Rebuild(c: nat) | Ready(c: nat) | Refused(c: nat)

  datatype World = World(
    events: seq<Event>,
    gen: nat,
    fan: Fan,
    caches: seq<Cache>,
    locks: seq<Lock>,
    gets: map<nat, Get>
  )

  datatype Action =
    | Receive(event: Event)
    | Lock
    | Assign
    | Build(ok: bool)
    | Unlock
    | GetLock(thread: nat, c: nat)
    | GetTest(thread: nat)
    | GetBuild(thread: nat, ok: bool)
    | GetUnlock(thread: nat)
    | Drift(c: nat, alive: bool)

  // n listeners, none of which holds credentials yet.
  function Start(n: nat): World {
    World([], 0, Idle, seq(n, _ => Cache(0, None, false)), seq(n, _ => Free), map[])
  }

  predicate Enabled(w: World, a: Action) {
    match a
    case Receive(_) => w.fan.Idle?
    case Lock => w.fan.Next? && w.fan.k < |w.locks| && w.locks[w.fan.k].Free?
    case Assign => w.fan.Locked? && w.fan.k < |w.caches|
    case Build(_) => w.fan.Assigned? && w.fan.k < |w.caches|
    case Unlock => w.fan.Built? && w.fan.k < |w.locks|
    case GetLock(g, c) => g !in w.gets && c < |w.locks| && w.locks[c].Free?
    case GetTest(g) => g in w.gets && w.gets[g].Entered? && w.gets[g].c < |w.caches|
    case GetBuild(g, _) => g in w.gets && w.gets[g].Rebuild? && w.gets[g].c < |w.caches|
    case GetUnlock(g) => g in w.gets && (w.gets[g].Ready? || w.gets[g].Refused?) && w.gets[g].c < |w.locks|
    case Drift(c, _) => c < |w.caches|
  }

  function AfterListener(w: World, k: nat): Fan {
    if k < |w.caches| then Next(k) else Idle
  }

  // buildClient: a client from the current credentials, or none.
  function Rebuilt(c: Cache, ok: bool): Cache {
    c.(client := if ok then Some(c.gen) else None, alive := ok)
  }

  function Perform(w: World, a: Action): World
    requires Enabled(w, a)
  {
    match a
    case Receive(e) =>
      var v := w.(events := w.events + [e]);
      if Accepted(e).None? then v else v.(gen := w.gen + 1, fan := AfterListener(w, 0))
    case Lock => w.(locks := w.locks[w.fan.k := Service], fan := Locked(w.fan.k))
    case Assign =>
      w.(caches := w.caches[w.fan.k := w.caches[w.fan.k].(gen := w.gen)], fan := Assigned(w.fan.k))
    case Build(ok) =>
      w.(caches := w.caches[w.fan.k := Rebuilt(w.caches[w.fan.k], ok)], fan := Built(w.fan.k))
    case Unlock => w.(locks := w.locks[w.fan.k := Free], fan := AfterListener(w, w.fan.k + 1))
    case GetLock(g, c) => w.(locks := w.locks[c := Getter(g)], gets := w.gets[g := Entered(c)])
    case GetTest(g) =>
      var c := w.gets[g].c;
      w.(gets := w.gets[g := if w.caches[c].client.Some? && w.caches[c].alive then Ready(c) else Rebuild(c)])
    case GetBuild(g, ok) =>
      var c := w.gets[g].c;
      w.(caches := w.caches[c := Rebuilt(w.caches[c], ok)], gets := w.gets[g := if ok then Ready(c) else Refused(c)])
    case GetUnlock(g) => w.(locks := w.locks[w.gets[g].c := Free], gets := w.gets - {g})
    case Drift(c, alive) => w.(caches := w.caches[c := w.caches[c].(alive := alive)])
  }

  function After(n: nat, run: seq<Action>): World {
    if run == [] then Start(n)
    else
      var w, a := After(n, run[..|run| - 1]), run[|run| - 1];
      if Enabled(w, a) then Perform(w, a) else w
  }

  ghost predicate Legal(n: nat, run: seq<Action>) {
    forall k :: 0 <= k < |run| ==> Enabled(After(n, run[..k]), run[k])
  }

  /* ---- The invariant ---- */

  // The cache whose mutex the service holds.
  predicate ServiceHolds(f: Fan, c: nat) {
    (f.Locked? || f.Assigned? || f.Built?) && f.k == c
  }

  ghost predicate Mutexes(w: World) {
    && |w.locks| == |w.caches|
    && (!w.fan.Idle? ==> w.fan.k < |w.caches|)
    && (forall c :: 0 <= c < |w.locks| ==> (w.locks[c].Service? <==> ServiceHolds(w.fan, c)))
    && (forall g :: g in w.gets ==> w.gets[g].c < |w.locks| && w.locks[w.gets[g].c] == Getter(g))
    && (forall c :: 0 <= c < |w.locks| && w.locks[c].Getter? ==>
          w.locks[c].thread in w.gets && w.gets[w.locks[c].thread].c == c)
  }

  // A client was built from the current credentials, except between the two
  // assignments of SetCredentials; a thread about to return has such a client.
  ghost predicate Agreement(w: World) {
    && (forall c :: 0 <= c < |w.caches| && w.fan != Assigned(c) ==>
          w.caches[c].client.Some? ==> w.caches[c].client.value == w.caches[c].gen)
    && (forall g :: g in w.gets && w.gets[g].Ready? && w.gets[g].c < |w.caches| ==> w.caches[w.gets[g].c].client.Some?)
  }

  // How many listeners already hold the newest generation.
  function Reached(w: World): nat {
    match w.fan
    case Idle => |w.caches|
    case Next(k) => k
    case Locked(k) => k
    case Assigned(k) => k + 1
    case Built(k) => k + 1
  }

  // The listeners split into a prefix with the newest generation and a suffix
  // with the one before it.
  ghost predicate Split(w: World) {
    && (!w.fan.Idle? ==> w.gen > 0)
    && (forall c :: 0 <= c < |w.caches| ==> w.caches[c].gen == if c < Reached(w) then w.gen else w.gen - 1)
  }

  ghost predicate Inv(w: World) {
    Mutexes(w) && Agreement(w) && Split(w) && w.gen == |ValidOnes(w.events)|
  }

  lemma MutexStep(w: World, a: Action)
    requires Mutexes(w) && Enabled(w, a)
    ensures Mutexes(Perform(w, a))
  {
    hide Mutexes, Enabled, Perform;
    if a.GetLock? || a.GetTest? || a.GetBuild? || a.GetUnlock? || a.Drift? {
      GetterMutexStep(w, a);
    } else {
      ServiceMutexStep(w, a);
    }
  }

  lemma ServiceMutexStep(w: World, a: Action)
    requires Mutexes(w) && Enabled(w, a)
    requires a.Receive? || a.Lock? || a.Assign? || a.Build? || a.Unlock?
    ensures Mutexes(Perform(w, a))
  {
  }

  lemma GetterMutexStep(w: World, a: Action)
    requires Mutexes(w) && Enabled(w, a)
    requires a.GetLock? || a.GetTest? || a.GetBuild? || a.GetUnlock? || a.Drift?
    ensures Mutexes(Perform(w, a))
  {
  }

  lemma AgreementStep(w: World, a: Action)
    requires Mutexes(w) && Agreement(w) && Enabled(w, a)
    ensures Agreement(Perform(w, a))
  {
  }

  lemma SplitStep(w: World, a: Action)
    requires Mutexes(w) && Split(w) && Enabled(w, a)
    ensures Split(Perform(w, a))
  {
  }

  lemma {:induction false} AlwaysInv(n: nat, run: seq<Action>, k: nat)
    requires Legal(n, run) && k <= |run|
    ensures Inv(After(n, run[..k]))
    decreases k
  {
    hide Perform, Mutexes, Agreement, Split;
    if k == 0 {
      StartInv(n);
    } else {
      AlwaysInv(n, run, k - 1);
      var w, a := After(n, run[..k - 1]), run[k - 1];
      assert run[..k][..k - 1] == run[..k - 1];
      MutexStep(w, a);
      AgreementStep(w, a);
      SplitStep(w, a);
      CountStep(w, a);
    }
  }

  lemma StartInv(n: nat)
    ensures Inv(Start(n))
  {
  }

  lemma CountStep(w: World, a: Action)
    requires Enabled(w, a) && w.gen == |ValidOnes(w.events)|
    ensures Perform(w, a).gen == |ValidOnes(Perform(w, a).events)|
  {
  }

  /* ---- What holds of every legal run ---- */

  // The credentials a cache holds.
  function Held(w: World, c: nat): Option<Credentials>
    requires c < |w.caches| && w.caches[c].gen <= |ValidOnes(w.events)|
  {
    if w.caches[c].gen == 0 then None else Some(ValidOnes(w.events)[w.caches[c].gen - 1])
  }

  /** Whenever nobody holds the mutex of a cache, its client, if it has one, was
      built from its current credentials. */
  lemma UnlockedAgrees(n: nat, run: seq<Action>, k: nat, c: nat)
    requires Legal(n, run) && k <= |run|
    requires var w := After(n, run[..k]); c < |w.caches| && c < |w.locks| && w.locks[c].Free?
    ensures var cache := After(n, run[..k]).caches[c];
            cache.client.Some? ==> cache.client.value == cache.gen
  {
    AlwaysInv(n, run, k);
  }

  // The generation that the last SetCredentials on a cache assigned, in the order
  // of the run, which is the order of its lock; 0 if there was none.
  function LastSet(n: nat, run: seq<Action>, c: nat): nat {
    if run == [] then 0
    else
      var before, a := run[..|run| - 1], run[|run| - 1];
      var w := After(n, before);
      if a == Assign && Enabled(w, a) && w.fan.k == c then w.gen else LastSet(n, before, c)
  }

  // A cache holds what was last assigned to it.
  lemma {:induction false} HoldsLastSet(n: nat, run: seq<Action>, k: nat, c: nat)
    requires Legal(n, run) && k <= |run| && c < n
    ensures |After(n, run[..k]).caches| == n
    ensures After(n, run[..k]).caches[c].gen == LastSet(n, run[..k], c)
    decreases k
  {
    hide Perform, Enabled;
    SameListeners(n, run, k);
    if k > 0 {
      HoldsLastSet(n, run, k - 1, c);
      assert run[..k][..k - 1] == run[..k - 1];
      OnlyAssignSets(After(n, run[..k - 1]), run[k - 1], c);
    }
  }

  lemma OnlyAssignSets(w: World, a: Action, c: nat)
    requires Enabled(w, a) && c < |w.caches|
    ensures |Perform(w, a).caches| == |w.caches|
    ensures Perform(w, a).caches[c].gen == if a == Assign && w.fan.k == c then w.gen else w.caches[c].gen
  {
  }

  /** A Get that succeeds returns a client built from the credentials that the last
      SetCredentials before it assigned to its cache. */
  lemma GetReturnsCurrent(n: nat, run: seq<Action>, k: nat)
    requires Legal(n, run) && k < |run| && run[k].GetUnlock?
    ensures var w := After(n, run[..k]);
            run[k].thread in w.gets &&
            var c := w.gets[run[k].thread].c;
            c < |w.caches| &&
            (w.gets[run[k].thread].Ready? ==> w.caches[c].client == Some(LastSet(n, run[..k], c)))
  {
    hide LastSet, Split;
    AlwaysInv(n, run, k);
    var w := After(n, run[..k]);
    assert Enabled(w, run[k]);
    SameListeners(n, run, k);
    HoldsLastSet(n, run, k, w.gets[run[k].thread].c);
  }

  // Step j is the test that the client of thread g passed, or the call that built
  // it: the client reached the engine then, and is the same one at k.
  ghost predicate Vetted(n: nat, run: seq<Action>, j: nat, k: nat, g: nat)
    requires j < k <= |run|
  {
    var w, v := After(n, run[..j + 1]), After(n, run[..k]);
    && (run[j] == GetTest(g) || run[j] == GetBuild(g, true))
    && g in v.gets && g in w.gets && w.gets[g].c == v.gets[g].c
    && var c := v.gets[g].c;
    && c < |w.caches| && c < |v.caches|
    && w.caches[c].client.Some? && w.caches[c].alive && v.caches[c].client == w.caches[c].client
    && forall i :: j < i < k ==> run[i] != GetUnlock(g)
  }

  /** The client a thread is about to return passed its test in this Get, or was
      built in it; one that failed the test is not returned. */
  lemma {:induction false} ReadyIsVetted(n: nat, run: seq<Action>, k: nat, g: nat)
    requires Legal(n, run) && k <= |run|
    requires g in After(n, run[..k]).gets && After(n, run[..k]).gets[g].Ready?
    ensures exists j :: 0 <= j < k && Vetted(n, run, j, k, g)
    decreases k
  {
    hide Perform, Enabled, Mutexes, Agreement, Split;
    AlwaysInv(n, run, k);
    if k == 0 { return; }
    AlwaysInv(n, run, k - 1);
    var w, a := After(n, run[..k - 1]), run[k - 1];
    assert run[..k][..k - 1] == run[..k - 1] && run[..k - 1 + 1] == run[..k];
    ReadyStep(w, a, g);
    if g in w.gets && w.gets[g].Ready? {
      ReadyIsVetted(n, run, k - 1, g);
      var j :| 0 <= j < k - 1 && Vetted(n, run, j, k - 1, g);
      StillVetted(n, run, j, k - 1, g);
    } else {
      assert Vetted(n, run, k - 1, k, g);
    }
  }

  lemma StillVetted(n: nat, run: seq<Action>, j: nat, k: nat, g: nat)
    requires j < k < |run| && Vetted(n, run, j, k, g) && run[k] != GetUnlock(g)
    requires var v, w := After(n, run[..k]), After(n, run[..k + 1]);
             && g in w.gets && w.gets[g].c == v.gets[g].c && w.gets[g].c < |w.caches|
             && w.caches[w.gets[g].c].client == v.caches[v.gets[g].c].client
    ensures Vetted(n, run, j, k + 1, g)
  {
    hide After;
  }

  // A thread gets ready with a live client, and keeps it while it holds the mutex.
  lemma ReadyStep(w: World, a: Action, g: nat)
    requires Mutexes(w) && Agreement(w) && Enabled(w, a)
    requires g in Perform(w, a).gets && Perform(w, a).gets[g].Ready?
    ensures var v := Perform(w, a);
            var c := v.gets[g].c;
            && |v.caches| == |w.caches| && c < |v.caches|
            && if g in w.gets && w.gets[g].Ready? then
                 w.gets[g].c == c && v.caches[c].client == w.caches[c].client && a != GetUnlock(g)
               else
                 (a == GetTest(g) || a == GetBuild(g, true)) && v.caches[c].client.Some? && v.caches[c].alive
  {
  }

  // The next action of the service, and of a thread in Get.
  predicate ServiceCanGo(w: World) {
    Enabled(w, Action.Lock) || Enabled(w, Assign) || Enabled(w, Build(true)) || Enabled(w, Unlock)
  }

  predicate GetterCanGo(w: World, g: nat) {
    Enabled(w, GetTest(g)) || Enabled(w, GetBuild(g, true)) || Enabled(w, GetUnlock(g))
  }

  /** No deadlock: a thread in Get can always go on, and so can the service in the
      middle of an event, unless such a thread holds the mutex it is waiting for. */
  lemma NeverStuck(n: nat, run: seq<Action>, k: nat)
    requires Legal(n, run) && k <= |run|
    ensures var w := After(n, run[..k]);
            && (forall g :: g in w.gets ==> GetterCanGo(w, g))
            && (w.fan.Idle? || ServiceCanGo(w) ||
                (w.fan.Next? && w.fan.k < |w.locks| &&
                 w.locks[w.fan.k].Getter? && w.locks[w.fan.k].thread in w.gets))
  {
    hide After, Agreement, Split;
    AlwaysInv(n, run, k);
  }

  /** Once an event is fully handled every listener holds the credentials of the
      last valid event. */
  lemma HandledReachesAll(n: nat, run: seq<Action>, k: nat, c: nat)
    requires Legal(n, run) && k <= |run|
    requires After(n, run[..k]).fan.Idle? && c < |After(n, run[..k]).caches|
    ensures var w := After(n, run[..k]);
            w.caches[c].gen <= |ValidOnes(w.events)| && Held(w, c) == Newest(w.events)
  {
    AlwaysInv(n, run, k);
  }

  /** While an event is being fanned out the listeners split into a prefix with
      the newest credentials and a suffix with those of the valid event before,
      so that at most two adjacent generations coexist. */
  lemma TwoGenerations(n: nat, run: seq<Action>, k: nat)
    requires Legal(n, run) && k <= |run|
    ensures var w := After(n, run[..k]);
            forall c, d :: 0 <= c <= d < |w.caches| ==>
              w.caches[d].gen <= w.caches[c].gen <= w.caches[d].gen + 1
    ensures var w := After(n, run[..k]);
            forall c :: 0 <= c < |w.caches| ==> w.caches[c].gen <= |ValidOnes(w.events)| <= w.caches[c].gen + 1
  {
    AlwaysInv(n, run, k);
  }

  /** Uninterrupted, the four steps of the service on one listener are one call of
      SetCredentials: the newest generation, and a client built from it or none. */
  lemma SetCredentialsInOneGo(w: World, ok: bool)
    requires Mutexes(w) && Enabled(w, Action.Lock)
    ensures var k := w.fan.k;
            var w1 := Perform(w, Action.Lock);
            var w2 := Perform(w1, Assign);
            var w3 := Perform(w2, Build(ok));
            Perform(w3, Unlock)
            == w.(caches := w.caches[k := Cache(w.gen, if ok then Some(w.gen) else None, ok)],
                  fan := AfterListener(w, k + 1))
  {
  }

  /** A listener never goes back to older credentials. */
  lemma {:induction false} NeverBack(n: nat, run: seq<Action>, i: nat, j: nat, c: nat)
    requires Legal(n, run) && i <= j <= |run| && c < n
    ensures |After(n, run[..i]).caches| == n && |After(n, run[..j]).caches| == n
    ensures After(n, run[..i]).caches[c].gen <= After(n, run[..j]).caches[c].gen
    decreases j
  {
    hide Perform, Enabled, Inv;
    SameListeners(n, run, i);
    SameListeners(n, run, j);
    if i < j {
      NeverBack(n, run, i, j - 1, c);
      AlwaysInv(n, run, j - 1);
      assert run[..j][..j - 1] == run[..j - 1];
      ForwardStep(After(n, run[..j - 1]), run[j - 1], c);
    }
  }

  lemma ForwardStep(w: World, a: Action, c: nat)
    requires Inv(w) && Enabled(w, a) && c < |w.caches|
    ensures |Perform(w, a).caches| == |w.caches| && w.caches[c].gen <= Perform(w, a).caches[c].gen
  {
  }

  lemma {:induction false} SameListeners(n: nat, run: seq<Action>, k: nat)
    requires Legal(n, run) && k <= |run|
    ensures |After(n, run[..k]).caches| == n
    decreases k
  {
    hide Perform, Enabled;
    if k > 0 {
      SameListeners(n, run, k - 1);
      assert run[..k][..k - 1] == run[..k - 1];
      NoListenerAdded(After(n, run[..k - 1]), run[k - 1]);
    }
  }

  lemma NoListenerAdded(w: World, a: Action)
    requires Enabled(w, a)
    ensures |Perform(w, a).caches| == |w.caches|
  {
  }
}
