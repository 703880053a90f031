/** JSON documents, the diff that controller-runtime's MergeFrom computes, and
    the merge-patch algorithm of section 2 of RFC 7396 that the API server applies. */
module MergePatch {
  import opened Prelude

  datatype Json =
    | Null
    | Bool(b: bool)
    | Num(n: int)
    | Str(s: string)
    | Arr(elems: seq<Json>)
    | Obj(members: Members)

  type Members = map<string, Json>

  type Path = seq<string>

  // The members of an object; every other value has none.
  function MembersOf(j: Json): Members {
    if j.Obj? then j.members else map[]
  }

  // The members of the object at k, none when k is absent or not an object.
  function Sub(m: Members, k: string): Members {
    if k in m then MembersOf(m[k]) else map[]
  }

  // RFC 7396, section 2: MergePatch(Target, Patch). An undefined target member
  // and a null one are treated alike, because neither is an object.
  function Merge(target: Json, patch: Json): Json
    decreases patch
  {
    if patch.Obj? then Obj(MergeMembers(MembersOf(target), patch.members)) else patch
  }

  function MergeMembers(t: Members, p: Members): Members
    decreases Obj(p), 0
  {
    map k | k in t.Keys + p.Keys && !(k in p && p[k].Null?) ::
      if k in p then Merge(if k in t then t[k] else Null, p[k]) else t[k]
  }

  // getDiff for one key: None when the key stays out of the patch.
  function DiffMember(a: Members, b: Members, k: string): Option<Json>
    requires k in a.Keys + b.Keys
    decreases Obj(b), 0
  {
    if k !in b then Some(Null)
    else if k !in a then Some(b[k])
    else if a[k].Obj? && b[k].Obj? then
      var d := Diff(a[k].members, b[k].members);
      if d == map[] then None else Some(Obj(d))
    else if a[k] == b[k] then None
    else Some(b[k])
  }

  // getDiff: the members of the merge patch that turns a into b.
  function Diff(a: Members, b: Members): Members
    decreases Obj(b), 1
  {
    map k | k in a.Keys + b.Keys && DiffMember(a, b, k).Some? :: DiffMember(a, b, k).value
  }

  // What survives being sent in a patch: null members disappear, at every depth
  // that is reached through objects.
  function Prune(j: Json): Json
    decreases j
  {
    if j.Obj? then Obj(PruneMembers(j.members)) else j
  }

  function PruneMembers(m: Members): Members
    decreases Obj(m), 0
  {
    map k | k in m && !m[k].Null? :: Prune(m[k])
  }

  ghost predicate NullFree(j: Json)
    decreases j
  {
    j.Obj? ==> forall k :: k in j.members ==> !j.members[k].Null? && NullFree(j.members[k])
  }

  // The value a path leads to, walking through objects only.
  function At(j: Json, p: Path): Option<Json>
    decreases |p|
  {
    if p == [] then Some(j)
    else if j.Obj? && p[0] in j.members then At(j.members[p[0]], p[1..])
    else None
  }

  // Every proper, non-empty prefix of the path leads to an object.
  ghost predicate Spine(j: Json, p: Path)
    decreases |p|
  {
    p != [] && j.Obj? &&
    (|p| > 1 ==> p[0] in j.members && Spine(j.members[p[0]], p[1..]))
  }

  /* ---- The diff is empty exactly when nothing changed ---- */

  lemma {:induction false} DiffEmptyIff(a: Members, b: Members)
    ensures Diff(a, b) == map[] <==> a == b
    decreases Obj(b)
  {
    forall k | k in a.Keys + b.Keys
      ensures DiffMember(a, b, k).None? <==> k in a && k in b && a[k] == b[k]
    {
      if k in a && k in b && a[k].Obj? && b[k].Obj? {
        DiffEmptyIff(a[k].members, b[k].members);
      }
    }
    if Diff(a, b) == map[] {
      forall k | k in a.Keys + b.Keys ensures k in a && k in b && a[k] == b[k] {
        assert k !in Diff(a, b);
      }
      assert a.Keys == b.Keys;
    }
  }

  /* ---- Round trip ---- */

  lemma {:induction false} PruneNullFree(j: Json)
    requires NullFree(j)
    ensures Prune(j) == j
    decreases j
  {
    if j.Obj? {
      forall k | k in j.members { PruneNullFree(j.members[k]); }
      assert PruneMembers(j.members) == j.members;
    }
  }

  lemma {:induction false} PruneIsNullFree(j: Json)
    ensures NullFree(Prune(j))
    ensures Prune(j).Null? <==> j.Null?
    decreases j
  {
    if j.Obj? {
      forall k | k in j.members { PruneIsNullFree(j.members[k]); }
    }
  }

  // Merging a value into a target without members only prunes the value.
  lemma {:induction false} MergeIntoNothing(t: Json, v: Json)
    requires MembersOf(t) == map[]
    ensures Merge(t, v) == Prune(v)
    decreases v
  {
    if v.Obj? {
      forall k | k in v.members { MergeIntoNothing(Null, v.members[k]); }
      assert MergeMembers(map[], v.members) == PruneMembers(v.members);
    }
  }

  // Applied to the document it was computed from, the patch yields the modified
  // document without its null members.
  lemma {:induction false} RoundTrip(a: Members, b: Members)
    requires NullFree(Obj(a))
    ensures Merge(Obj(a), Obj(Diff(a, b))) == Prune(Obj(b))
    decreases Obj(b)
  {
    var d := Diff(a, b);
    var r := MergeMembers(a, d);
    forall k | k in a.Keys + b.Keys
      ensures (k in r) == (k in PruneMembers(b))
      ensures k in r ==> r[k] == Prune(b[k])
    {
      RoundTripMember(a, b, k);
    }
    assert r == PruneMembers(b);
  }

  lemma {:induction false} RoundTripMember(a: Members, b: Members, k: string)
    requires NullFree(Obj(a))
    requires k in a.Keys + b.Keys
    ensures var r := MergeMembers(a, Diff(a, b));
            (k in r) == (k in PruneMembers(b)) && (k in r ==> r[k] == Prune(b[k]))
    decreases Obj(b), 0
  {
    var d := Diff(a, b);
    if k in b {
      if k !in a {
        MergeIntoNothing(Null, b[k]);
      } else if a[k].Obj? && b[k].Obj? {
        RoundTrip(a[k].members, b[k].members);
        DiffEmptyIff(a[k].members, b[k].members);
        PruneNullFree(a[k]);
      } else if a[k] == b[k] {
        PruneNullFree(a[k]);
      } else if b[k].Obj? {
        MergeIntoNothing(a[k], b[k]);
      }
    }
  }

  /* ---- Three documents: the base, the modified one, and a store that moved on ---- */

  // One key of the patched store, when the modified document has an object there.
  lemma SubPatch(s: Members, a: Members, b: Members, k: string)
    requires k in b && b[k].Obj?
    ensures var r := MergeMembers(s, Diff(a, b));
            var d := Diff(Sub(a, k), b[k].members);
            if k in a && a[k].Obj? && d == map[] then
              (k in r) == (k in s) && (k in r ==> r[k] == s[k])
            else
              k in r && r[k] == Obj(MergeMembers(Sub(s, k), d))
  {
    if !(k in a && a[k].Obj?) {
      DiffFromNothing(b[k].members);
    }
  }

  lemma DiffFromNothing(b: Members)
    ensures Diff(map[], b) == b
  {
  }

  // A path whose value the base and the modified document agree on keeps the
  // value it has in the store.
  lemma {:induction false} UnchangedKept(s: Members, a: Members, b: Members, p: Path)
    requires Spine(Obj(b), p)
    requires At(Obj(a), p) == At(Obj(b), p)
    ensures At(Merge(Obj(s), Obj(Diff(a, b))), p) == At(Obj(s), p)
    decreases |p|
  {
    var k := p[0];
    if |p| == 1 {
      LastKey(a, b, k, p);
      LastKey(s, MergeMembers(s, Diff(a, b)), k, p);
      if k in a && a[k].Obj? { DiffEmptyIff(a[k].members, b[k].members); }
    } else {
      SubPatch(s, a, b, k);
      SubAt(a, k, p);
      SubAt(s, k, p);
      UnchangedKept(Sub(s, k), Sub(a, k), b[k].members, p[1..]);
    }
  }

  // Reading through one member is reading the member's own members.
  lemma SubAt(m: Members, k: string, p: Path)
    requires |p| > 1 && p[0] == k
    ensures At(Obj(m), p) == At(Obj(Sub(m, k)), p[1..])
  {
  }

  lemma LastKey(a: Members, b: Members, k: string, p: Path)
    requires p == [k]
    ensures At(Obj(a), p) == (if k in a then Some(a[k]) else None)
    ensures At(Obj(b), p) == (if k in b then Some(b[k]) else None)
  {
  }

  // A path at which the modified document differs from the base ends up with
  // the modified value, whatever the store held.
  lemma {:induction false} ChangedTaken(s: Members, a: Members, b: Members, p: Path)
    requires Spine(Obj(b), p)
    requires At(Obj(a), p) != At(Obj(b), p)
    requires At(Obj(b), p).Some? ==> !At(Obj(b), p).value.Obj? && !At(Obj(b), p).value.Null?
    ensures At(Merge(Obj(s), Obj(Diff(a, b))), p) == At(Obj(b), p)
    decreases |p|
  {
    var k := p[0];
    if |p| == 1 {
      LastKey(a, b, k, p);
      var d := Diff(a, b);
      assert DiffMember(a, b, k) == Some(if k in b then b[k] else Null);
      assert k in d && d[k] == if k in b then b[k] else Null;
      var r := MergeMembers(s, d);
      if k in b { assert r[k] == Merge(if k in s then s[k] else Null, b[k]); }
      LastKey(s, r, k, p);
    } else {
      SubPatch(s, a, b, k);
      SubAt(a, k, p);
      SubAt(s, k, p);
      ChangedTaken(Sub(s, k), Sub(a, k), b[k].members, p[1..]);
      DiffEmptyIff(Sub(a, k), b[k].members);
    }
  }

  // The object a patched store holds at a path where the modified document has one.
  lemma {:induction false} ObjectPatched(s: Members, a: Members, b: Members, p: Path)
    requires Spine(Obj(b), p) && At(Obj(b), p).Some? && At(Obj(b), p).value.Obj?
    requires At(Obj(s), p) == At(Obj(a), p)
    ensures var was := if At(Obj(a), p).Some? then MembersOf(At(Obj(a), p).value) else map[];
            At(Merge(Obj(s), Obj(Diff(a, b))), p)
            == Some(Obj(MergeMembers(was, Diff(was, At(Obj(b), p).value.members))))
    decreases |p|
  {
    var k := p[0];
    SubPatch(s, a, b, k);
    if |p| == 1 {
      LastKey(a, b, k, p);
      LastKey(s, MergeMembers(s, Diff(a, b)), k, p);
      assert Sub(s, k) == Sub(a, k);
      MergeNothing(Sub(a, k));
    } else {
      SubAt(a, k, p);
      SubAt(s, k, p);
      ObjectPatched(Sub(s, k), Sub(a, k), b[k].members, p[1..]);
    }
  }

  lemma MergeNothing(m: Members)
    ensures MergeMembers(m, map[]) == m
  {
  }
}
