/** The API server's view of one Machine: every version it ever stored, oldest
    first, and the calls that add one. The Machine resource has a status
    subresource, so an ordinary write leaves the status alone and a status write
    leaves everything else alone. */
module MachineStores {
  import opened Prelude
  import opened MergePatch
  import opened MachineDocs

  // A Machine as stored or as held in memory, with its resourceVersion.
  datatype Copy = Copy(doc: Json, version: nat)

  // A merge patch of the resource, computed from a base and a modified document.
  function MainPatched(store: Json, base: Json, doc: Json): Json {
    WithStatusOf(Merge(store, Obj(Diff(MembersOf(base), MembersOf(doc)))), store)
  }

  // The same patch sent to the status subresource.
  function StatusPatched(store: Json, base: Json, doc: Json): Json {
    WithStatusOf(store, Merge(store, Obj(Diff(MembersOf(base), MembersOf(doc)))))
  }

  ghost predicate WasProvider(hist: seq<Copy>, n: nat, id: string) {
    exists i :: 0 <= i < |hist| && i <= n && At(hist[i].doc, PROVIDER_ID) == Some(Str(PROVIDER_ID_PREFIX + id))
  }

  // The status never runs ahead of the spec: an instance id in the stored status
  // was the provider id of the stored spec then or before.
  ghost predicate StatusJustified(hist: seq<Copy>) {
    forall j, id :: 0 <= j < |hist| && At(hist[j].doc, INSTANCE_ID) == Some(Str(id)) ==> WasProvider(hist, j, id)
  }

  ghost predicate AllPaired(hist: seq<Copy>) {
    forall j :: 0 <= j < |hist| ==> Paired(hist[j].doc)
  }

  ghost predicate Good(hist: seq<Copy>) {
    AllPaired(hist) && StatusJustified(hist)
  }

  predicate SameProtected(a: Json, b: Json) {
    && At(a, PROVIDER_ID) == At(b, PROVIDER_ID)
    && At(a, VM_ID) == At(b, VM_ID)
    && At(a, INSTANCE_ID) == At(b, INSTANCE_ID)
  }

  // The versions after n came from other writers, who leave the actuator's three
  // identifying fields alone.
  ghost predicate OthersOnly(hist: seq<Copy>, n: nat) {
    forall k :: 0 < k < |hist| && n <= k ==> SameProtected(hist[k - 1].doc, hist[k].doc)
  }

  // Others stored the versions after i up to j.
  ghost predicate Between(hist: seq<Copy>, foreign: set<nat>, i: nat, j: nat) {
    && i <= j < |hist|
    && (forall k :: i < k <= j ==> k in foreign)
    && SameProtected(hist[i].doc, hist[j].doc)
  }

  lemma StillBetween(hist: seq<Copy>, foreign: set<nat>, i: nat, j: nat, hist': seq<Copy>, foreign': set<nat>)
    requires Between(hist, foreign, i, j) && hist <= hist'
    requires forall k :: k < |hist| ==> (k in foreign <==> k in foreign')
    ensures Between(hist', foreign', i, j)
  {
    hide SameProtected;
  }

  lemma GoodAppend(hist: seq<Copy>, c: Copy)
    requires Good(hist) && Paired(c.doc)
    requires forall id :: At(c.doc, INSTANCE_ID) == Some(Str(id)) ==> WasProvider(hist + [c], |hist|, id)
    ensures Good(hist + [c])
  {
    var all := hist + [c];
    forall j, id | 0 <= j < |all| && At(all[j].doc, INSTANCE_ID) == Some(Str(id))
      ensures WasProvider(all, j, id)
    {
      if j < |hist| {
        assert WasProvider(hist, j, id);
        var i :| 0 <= i < |hist| && i <= j && At(hist[i].doc, PROVIDER_ID) == Some(Str(PROVIDER_ID_PREFIX + id));
        assert all[i] == hist[i];
      }
    }
  }

  lemma {:induction false} OthersKeepGood(hist: seq<Copy>, n: nat)
    requires 0 < n <= |hist| && Good(hist[..n]) && OthersOnly(hist, n)
    ensures Good(hist)
    decreases |hist|
  {
    if n == |hist| {
      assert hist[..n] == hist;
    } else {
      var m := |hist| - 1;
      var before := hist[..m];
      assert before[..n] == hist[..n];
      OthersKeepGood(before, n);
      assert SameProtected(hist[m - 1].doc, hist[m].doc);
      assert before + [hist[m]] == hist;
      forall id | At(hist[m].doc, INSTANCE_ID) == Some(Str(id)) ensures WasProvider(hist, m, id) {
        assert At(before[m - 1].doc, INSTANCE_ID) == Some(Str(id));
        assert WasProvider(before, m - 1, id);
        var i :| 0 <= i < |before| && i <= m - 1 &&
            At(before[i].doc, PROVIDER_ID) == Some(Str(PROVIDER_ID_PREFIX + id));
        assert hist[i] == before[i];
      }
      assert Paired(before[m - 1].doc);
      GoodAppend(before, hist[m]);
    }
  }

  // An object in memory whose identifying fields were stored under its version.
  ghost predicate Recorded(hist: seq<Copy>, c: Copy) {
    c.doc.Obj? && exists i :: 0 <= i < |hist| && hist[i].version == c.version && SameProtected(hist[i].doc, c.doc)
  }

  lemma RecordedGrows(a: seq<Copy>, b: seq<Copy>, c: Copy)
    requires Recorded(a, c) && a <= b
    ensures Recorded(b, c)
  {
  }

  lemma {:induction false} OthersSame(hist: seq<Copy>, n: nat, k: nat)
    requires n <= k < |hist| && OthersOnly(hist, n + 1)
    ensures SameProtected(hist[n].doc, hist[k].doc)
    decreases k
  {
    hide At;
    if n < k {
      OthersSame(hist, n, k - 1);
      assert SameProtected(hist[k - 1].doc, hist[k].doc);
    }
  }

  lemma MainAcceptable(store: Json, base: Json, doc: Json, id: string)
    requires store.Obj? && base.Obj? && doc.Obj? && Paired(store) && Paired(base) && Stamped(doc, id)
    ensures var d := MainPatched(store, base, doc);
            d.Obj? && Paired(d) && At(d, INSTANCE_ID) == At(store, INSTANCE_ID)
  {
    hide At, Spine;
    PatchKeepsPaired(store, base, doc, id);
    KeepsMain(store, Merge(store, Obj(Diff(base.members, doc.members))));
  }

  lemma StatusAcceptable(store: Json, base: Json, doc: Json, id: string)
    requires store.Obj? && base.Obj? && doc.Obj? && Paired(store)
    requires Spine(doc, INSTANCE_ID) && At(doc, INSTANCE_ID) == Some(Str(id))
    ensures var d := StatusPatched(store, base, doc);
            d.Obj? && Paired(d) && (At(d, INSTANCE_ID) == At(store, INSTANCE_ID) || At(d, INSTANCE_ID) == Some(Str(id)))
  {
    hide At, Spine;
    KeepsMain(Merge(store, Obj(Diff(base.members, doc.members))), store);
    if At(base, INSTANCE_ID) == At(doc, INSTANCE_ID) {
      UnchangedKept(store.members, base.members, doc.members, INSTANCE_ID);
    } else {
      ChangedTaken(store.members, base.members, doc.members, INSTANCE_ID);
    }
  }

  lemma UpdateAcceptable(store: Json, doc: Json)
    requires store.Obj? && doc.Obj? && Paired(doc)
    ensures var d := WithStatusOf(doc, store); d.Obj? && Paired(d) && At(d, INSTANCE_ID) == At(store, INSTANCE_ID)
  {
    KeepsMain(store, doc);
  }

  // The two addresses of the cluster that no machine may report as its own.
  datatype Infrastructure = Infrastructure(apiServerInternalIP: string, ingressIP: string)
  {
    function Addresses(): set<string> {
      {apiServerInternalIP, ingressIP}
    }
  }

  class MachineAPI {
    var stored: Copy
    // How many calls may still fail.
    var faults: nat
    // With quiet set nobody else writes this Machine.
    const quiet: bool
    const infrastructure: Infrastructure
    ghost var hist: seq<Copy>
    // Which of the versions came from other writers.
    ghost var foreign: set<nat>

    ghost predicate Shape()
      reads `stored, `hist, `foreign
    {
      && hist != [] && hist[|hist| - 1] == stored
      && (forall i :: i in foreign ==> i < |hist|)
      && (forall i :: 0 <= i < |hist| ==> hist[i].doc.Obj?)
      && (forall i, j :: 0 <= i < j < |hist| ==> hist[i].version < hist[j].version)
    }

    ghost predicate Valid()
      reads `stored, `hist, `foreign
    {
      Shape() && Good(hist)
    }

    ghost predicate Known(c: Copy)
      reads `hist
    {
      Recorded(hist, c)
    }

    // Version at is what was stored when a call arrived that found n versions on
    // record when it was made: in between only others wrote, and after it at most
    // the call itself.
    ghost predicate Arrived(at: nat, n: nat)
      reads `hist, `foreign
    {
      0 < n <= at + 1 && at < |hist| <= at + 2 && OnlyOthers(n - 1, at) && at + 1 !in foreign
    }

    // The versions after i up to j came from others.
    ghost predicate OnlyOthers(i: nat, j: nat)
      reads `hist, `foreign
    {
      Between(hist, foreign, i, j) && (quiet ==> i == j)
    }

    // Whatever was stored stays on record, as does who stored it.
    twostate predicate Grew()
      reads this
    {
      && Valid() && old(hist) <= hist && faults <= old(faults)
      && (forall i :: i < |old(hist)| ==> (i in foreign <==> i in old(foreign)))
    }

    lemma KnownPaired(c: Copy)
      requires Valid() && Known(c)
      ensures c.doc.Obj? && Paired(c.doc)
      ensures forall id :: At(c.doc, PROVIDER_ID) == Some(Str(PROVIDER_ID_PREFIX + id)) ==>
                WasProvider(hist, |hist|, id)
    {
    }

    constructor (c: Copy, exclusive: bool, cluster: Infrastructure, misfortunes: nat)
      requires c.doc.Obj? && Paired(c.doc) && At(c.doc, INSTANCE_ID) == None
      ensures Valid() && stored == c && quiet == exclusive && hist == [c] && faults == misfortunes
      ensures infrastructure == cluster && foreign == {}
    {
      stored, quiet, hist, foreign, faults, infrastructure := c, exclusive, [c], {}, misfortunes, cluster;
    }

    // What the other writers may do between two calls: store anything that leaves
    // the three identifying fields alone.
    method Others()
      requires Shape()
      modifies this`stored, this`hist, this`foreign
      ensures Shape() && old(hist) <= hist && OthersOnly(hist, |old(hist)|)
      ensures forall i :: i in foreign <==> i in old(foreign) || |old(hist)| <= i < |hist|
      ensures quiet ==> hist == old(hist)
    {
    }

    method Misfortune() returns (failed: bool)
      modifies this`faults
      ensures faults == if failed then old(faults) - 1 else old(faults)
    {
      failed := false;
      if * {
        if faults > 0 {
          failed := true;
          faults := faults - 1;
        }
      }
    }

    method Interfere()
      requires Valid()
      modifies this`stored, this`hist, this`foreign
      ensures Grew() && forall i :: i in foreign <==> i in old(foreign) || |old(hist)| <= i < |hist|
      ensures SameProtected(old(stored).doc, stored.doc)
      ensures quiet ==> hist == old(hist) && stored == old(stored)
    {
      hide Good, SameProtected, OthersOnly, At;
      Others();
      assert hist[..|old(hist)|] == old(hist);
      OthersKeepGood(hist, |old(hist)|);
      OthersSame(hist, |old(hist)| - 1, |hist| - 1);
    }

    method Accept(doc: Json)
      requires Valid() && doc.Obj? && Paired(doc)
      requires forall id :: At(doc, INSTANCE_ID) == Some(Str(id)) ==>
                 WasProvider(hist, |hist|, id) || At(doc, PROVIDER_ID) == Some(Str(PROVIDER_ID_PREFIX + id))
      modifies this`stored, this`hist
      ensures Grew() && stored.doc == doc && |hist| <= |old(hist)| + 1
      ensures doc == old(stored).doc ==> stored == old(stored) && hist == old(hist)
    {
      if doc != stored.doc {
        var c := Copy(doc, stored.version + 1);
        var all := hist + [c];
        forall id | At(doc, INSTANCE_ID) == Some(Str(id)) ensures WasProvider(all, |hist|, id) {
          if WasProvider(hist, |hist|, id) {
            var i :| 0 <= i < |hist| && i <= |hist| &&
                At(hist[i].doc, PROVIDER_ID) == Some(Str(PROVIDER_ID_PREFIX + id));
            assert all[i] == hist[i];
          } else {
            assert all[|hist|] == c;
          }
        }
        GoodAppend(hist, c);
        stored := c;
        hist := all;
      }
    }

    // A read through the manager's cache returns some version ever stored.
    method Get() returns (c: Copy)
      requires Valid()
      modifies this
      ensures Grew() && Known(c) && c in hist
      ensures quiet ==> c == stored == old(stored)
    {
      Interfere();
      c := stored;
    }

    /** client.Patch(obj, MergeFrom(base)). The patch carries a resourceVersion,
        and is then refused by any other version, exactly when the object's
        differs from the base's. It may fail before or after its effect. */
    method Patch(obj: Copy, base: Copy, ghost id: string) returns (resp: Option<Copy>, ghost at: nat)
      requires Valid() && obj.doc.Obj? && base.doc.Obj? && Stamped(obj.doc, id) && Paired(base.doc)
      modifies this
      ensures Grew() && Arrived(at, |old(hist)|)
      ensures resp.Some? ==> resp.value == stored && stored.doc == MainPatched(hist[at].doc, base.doc, obj.doc)
      ensures resp.Some? && obj.version != base.version ==> hist[at].version == obj.version
      ensures resp.None? ==>
                || faults < old(faults)
                || (obj.version != base.version && obj.version != hist[at].version && |hist| == at + 1)
      ensures quiet && MainPatched(old(stored).doc, base.doc, obj.doc) == old(stored).doc ==>
                stored == old(stored) && hist == old(hist)
    {
      hide At, Spine, Paired, Stamped, MainPatched, WasProvider, SameProtected, Good, Shape;
      Newest();
      Interfere();
      Newest();
      at := |hist| - 1;
      var failed := Misfortune();
      if failed { return None, at; }
      if obj.version != base.version && obj.version != stored.version { return None, at; }
      MainAcceptable(stored.doc, base.doc, obj.doc, id);
      KeepsJustified();
      Accept(MainPatched(stored.doc, base.doc, obj.doc));
      failed := Misfortune();
      if failed { return None, at; }
      resp := Some(stored);
    }

    // client.Status().Patch(obj, MergeFrom(base)), with the same rule for the version.
    method PatchStatus(obj: Copy, base: Copy, ghost id: string) returns (resp: Option<Copy>, ghost at: nat)
      requires Valid() && obj.doc.Obj? && base.doc.Obj?
      requires Spine(obj.doc, INSTANCE_ID) && At(obj.doc, INSTANCE_ID) == Some(Str(id))
      requires WasProvider(hist, |hist|, id)
      modifies this
      ensures Grew() && Arrived(at, |old(hist)|)
      ensures resp.Some? ==> resp.value == stored && stored.doc == StatusPatched(hist[at].doc, base.doc, obj.doc)
      ensures resp.Some? && obj.version != base.version ==> hist[at].version == obj.version
      ensures resp.None? ==>
                || faults < old(faults)
                || (obj.version != base.version && obj.version != hist[at].version && |hist| == at + 1)
      ensures quiet && StatusPatched(old(stored).doc, base.doc, obj.doc) == old(stored).doc ==>
                stored == old(stored) && hist == old(hist)
    {
      hide At, Spine, Paired, StatusPatched, WasProvider, SameProtected, Good, Shape;
      Newest();
      Interfere();
      Newest();
      at := |hist| - 1;
      var failed := Misfortune();
      if failed { return None, at; }
      if obj.version != base.version && obj.version != stored.version { return None, at; }
      StatusAcceptable(stored.doc, base.doc, obj.doc, id);
      WasProviderGrows(old(hist), hist, id);
      KeepsJustified();
      Accept(StatusPatched(stored.doc, base.doc, obj.doc));
      failed := Misfortune();
      if failed { return None, at; }
      resp := Some(stored);
    }

    // client.Update(obj): accepted only against the version the object carries.
    method Update(obj: Copy) returns (resp: Option<Copy>, ghost at: nat)
      requires Valid() && obj.doc.Obj? && Paired(obj.doc)
      modifies this
      ensures Grew() && Arrived(at, |old(hist)|)
      ensures resp.Some? ==>
                && resp.value == stored && hist[at].version == obj.version
                && stored.doc == WithStatusOf(obj.doc, hist[at].doc)
      ensures resp.None? && quiet && obj.version == old(stored).version ==> faults < old(faults)
    {
      hide At, Spine, Paired, WithStatusOf, WasProvider, SameProtected, Good, Shape;
      Newest();
      Interfere();
      Newest();
      at := |hist| - 1;
      var failed := Misfortune();
      if failed { return None, at; }
      if obj.version != stored.version { return None, at; }
      UpdateAcceptable(stored.doc, obj.doc);
      KeepsJustified();
      Accept(WithStatusOf(obj.doc, stored.doc));
      failed := Misfortune();
      if failed { return None, at; }
      resp := Some(stored);
    }

    // The stored document is the last one on record.
    lemma Newest()
      requires Valid()
      ensures hist != [] && hist[|hist| - 1] == stored && stored.doc.Obj? && Paired(stored.doc)
      ensures forall i :: i in foreign ==> i < |hist|
    {
      assert Paired(hist[|hist| - 1].doc);
    }

    // A version is stored once.
    lemma OneVersion(i: nat, j: nat)
      requires Valid() && i < |hist| && j < |hist| && hist[i].version == hist[j].version
      ensures i == j
    {
      hide Good;
    }

    lemma KeepsJustified()
      requires Valid()
      ensures forall id :: At(stored.doc, INSTANCE_ID) == Some(Str(id)) ==> WasProvider(hist, |hist|, id)
    {
    }
  }

  // Taking the status of a from another document and everything else from b.
  lemma KeepsMain(a: Json, b: Json)
    requires a.Obj? && b.Obj?
    ensures At(WithStatusOf(b, a), PROVIDER_ID) == At(b, PROVIDER_ID)
    ensures At(WithStatusOf(b, a), VM_ID) == At(b, VM_ID)
    ensures At(WithStatusOf(b, a), INSTANCE_ID) == At(a, INSTANCE_ID)
  {
  }

  lemma WasProviderGrows(a: seq<Copy>, b: seq<Copy>, id: string)
    requires a <= b && WasProvider(a, |a|, id)
    ensures WasProvider(b, |b|, id)
  {
  }
}
