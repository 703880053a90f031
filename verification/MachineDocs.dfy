/** The Machine object as the JSON document it marshals to, and the fields of it
    that the actuator writes. */
module MachineDocs {
  import opened Prelude
  import opened MergePatch

  const PROVIDER_ID: Path := ["spec", "providerID"]
  const VM_ID: Path := ["metadata", "annotations", "VmId"]
  const STATE_ANNOTATION: Path := ["metadata", "annotations", "machine.openshift.io/instance-state"]
  const INSTANCE_ID: Path := ["status", "providerStatus", "instanceId"]
  const INSTANCE_STATE: Path := ["status", "providerStatus", "instanceState"]
  const PROVIDER_STATUS: Path := ["status", "providerStatus"]
  const ADDRESSES: Path := ["status", "addresses"]

  // Assigning a field, creating the objects that lead to it.
  function Put(j: Json, p: Path, v: Json): Json
    decreases |p|
  {
    if p == [] then v
    else Obj(MembersOf(j)[p[0] := Put(if p[0] in MembersOf(j) then MembersOf(j)[p[0]] else Null, p[1..], v)])
  }

  // Neither path leads through the other.
  predicate Apart(p: Path, q: Path) {
    p != [] && q != [] && (p[0] != q[0] || Apart(p[1..], q[1..]))
  }

  lemma {:induction false} PutAt(j: Json, p: Path, v: Json)
    ensures At(Put(j, p, v), p) == Some(v)
    ensures p != [] ==> Spine(Put(j, p, v), p)
    decreases |p|
  {
    if p != [] {
      PutAt(if p[0] in MembersOf(j) then MembersOf(j)[p[0]] else Null, p[1..], v);
    }
  }

  lemma {:induction false} PutApart(j: Json, p: Path, v: Json, q: Path)
    requires Apart(p, q)
    ensures At(Put(j, p, v), q) == At(j, q)
    ensures Spine(j, q) ==> Spine(Put(j, p, v), q)
    decreases |p|
  {
    if p[0] == q[0] {
      PutApart(if p[0] in MembersOf(j) then MembersOf(j)[p[0]] else Null, p[1..], v, q[1..]);
    }
  }

  // Assigning the value that is already there.
  lemma {:induction false} PutSame(j: Json, p: Path, v: Json)
    requires At(j, p) == Some(v)
    ensures Put(j, p, v) == j
    decreases |p|
  {
    if p != [] { PutSame(j.members[p[0]], p[1..], v); }
  }

  lemma PutIsObj(j: Json, p: Path, v: Members)
    ensures Put(j, p, Obj(v)).Obj?
  {
  }

  // A patch that only replaces the object at p merges that object's own patch.
  lemma {:induction false} PatchPut(j: Json, p: Path, v: Members)
    requires p != [] && At(j, p).Some? && At(j, p).value.Obj?
    ensures j.Obj?
    ensures var u := At(j, p).value.members;
            Merge(j, Obj(Diff(j.members, Put(j, p, Obj(v)).members))) == Put(j, p, Obj(MergeMembers(u, Diff(u, v))))
    decreases |p|
  {
    hide Merge, Diff, MergeMembers;
    var u := At(j, p).value.members;
    var k := p[0];
    var sub := j.members[k];
    PutIsObj(sub, p[1..], v);
    var w := Put(sub, p[1..], Obj(v));
    OneMemberPatched(j.members, k, w.members);
    if |p| > 1 {
      PatchPut(sub, p[1..], v);
    } else {
      assert w == Obj(v) && At(j, p) == Some(sub);
    }
    MergeObjects(j, Diff(j.members, j.members[k := w]));
    MergeObjects(sub, Diff(sub.members, w.members));
  }

  lemma MergeObjects(j: Json, d: Members)
    requires j.Obj?
    ensures Merge(j, Obj(d)) == Obj(MergeMembers(j.members, d))
  {
  }

  // A patch that replaces the object at one member merges that object's own patch.
  lemma OneMemberPatched(a: Members, k: string, w: Members)
    requires k in a && a[k].Obj?
    ensures MergeMembers(a, Diff(a, a[k := Obj(w)])) == a[k := Obj(MergeMembers(a[k].members, Diff(a[k].members, w)))]
  {
    var b := a[k := Obj(w)];
    var m := MergeMembers(a, Diff(a, b));
    forall key | key in a && key != k ensures key !in Diff(a, b) {
      if a[key].Obj? { DiffEmptyIff(a[key].members, a[key].members); }
      assert DiffMember(a, b, key).None?;
    }
    SubPatch(a, a, b, k);
    MergeNothing(Sub(a, k));
    assert m.Keys == a.Keys;
  }

  // The same document with the status of another one.
  function WithStatusOf(doc: Json, from: Json): Json {
    if from.Obj? && "status" in from.members then Obj(MembersOf(doc)["status" := from.members["status"]])
    else Obj(MembersOf(doc) - {"status"})
  }

  lemma WithStatusOfAt(doc: Json, from: Json, p: Path)
    requires doc.Obj? && from.Obj? && p != []
    ensures WithStatusOf(doc, from).Obj?
    ensures At(WithStatusOf(doc, from), p) == At(if p[0] == "status" then from else doc, p)
    ensures p[0] == "status" && Spine(from, p) ==> Spine(WithStatusOf(doc, from), p)
  {
  }

  /* ---- The fields the actuator keeps in step ---- */

  // Spec.ProviderID is the prefixed VmId annotation, or neither is there.
  ghost predicate Paired(doc: Json) {
    match At(doc, VM_ID)
    case None => At(doc, PROVIDER_ID) == None
    case Some(v) => v.Str? && At(doc, PROVIDER_ID) == Some(Str(PROVIDER_ID_PREFIX + v.s))
  }

  // Both fields name this VM.
  ghost predicate Stamped(doc: Json, id: string) {
    && Spine(doc, VM_ID) && Spine(doc, PROVIDER_ID)
    && At(doc, VM_ID) == Some(Str(id))
    && At(doc, PROVIDER_ID) == Some(Str(PROVIDER_ID_PREFIX + id))
  }

  lemma PrefixInjective(a: string, b: string)
    requires PROVIDER_ID_PREFIX + a == PROVIDER_ID_PREFIX + b
    ensures a == b
  {
    assert a == (PROVIDER_ID_PREFIX + a)[|PROVIDER_ID_PREFIX|..];
    assert b == (PROVIDER_ID_PREFIX + b)[|PROVIDER_ID_PREFIX|..];
  }

  // The patch of a stamped document touches both fields or neither: a base in
  // which they are paired differs from it in both or in none.
  lemma StampDiffersInBothOrNeither(base: Json, doc: Json, id: string)
    requires Paired(base) && Stamped(doc, id)
    ensures At(base, PROVIDER_ID) == At(doc, PROVIDER_ID) <==> At(base, VM_ID) == At(doc, VM_ID)
  {
    if At(base, PROVIDER_ID) == At(doc, PROVIDER_ID) {
      PrefixInjective(At(base, VM_ID).value.s, id);
    }
  }

  // Merging the patch of a stamped document into a paired store leaves it paired,
  // however stale the base of the patch is.
  lemma PatchKeepsPaired(store: Json, base: Json, doc: Json, id: string)
    requires store.Obj? && base.Obj? && doc.Obj?
    requires Paired(store) && Paired(base) && Stamped(doc, id)
    ensures Paired(Merge(store, Obj(Diff(base.members, doc.members))))
  {
    StampDiffersInBothOrNeither(base, doc, id);
    if At(base, PROVIDER_ID) == At(doc, PROVIDER_ID) {
      UnchangedKept(store.members, base.members, doc.members, PROVIDER_ID);
      UnchangedKept(store.members, base.members, doc.members, VM_ID);
    } else {
      ChangedTaken(store.members, base.members, doc.members, PROVIDER_ID);
      ChangedTaken(store.members, base.members, doc.members, VM_ID);
    }
  }
}
