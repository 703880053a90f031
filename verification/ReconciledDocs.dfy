/** What reconcileMachine makes of a Machine document, and what the two patches
    make of the stored one. */
module ReconciledDocs {
  import opened Prelude
  import opened MergePatch
  import opened MachineDocs
  import opened MachineStores

  function Identified(doc: Json, id: string, status: string): Json {
    Put(Put(Put(doc, PROVIDER_ID, Str(PROVIDER_ID_PREFIX + id)), STATE_ANNOTATION, Str(status)), VM_ID, Str(id))
  }

  function Addresses(name: string, ip: string): Json {
    Arr([Obj(map["type" := Str("InternalDNS"), "address" := Str(name)]),
         Obj(map["type" := Str("InternalIP"), "address" := Str(ip)])])
  }

  // The provider status in a document; an absent one is read as an empty struct.
  function ProviderStatusOf(doc: Json): Json {
    if At(doc, PROVIDER_STATUS).Some? then At(doc, PROVIDER_STATUS).value else Null
  }

  predicate TextOrNothing(m: Members, k: string) {
    k in m ==> m[k].Str? || m[k].Null?
  }

  predicate ScalarOrNothing(m: Members, k: string) {
    k in m ==> !m[k].Obj? && !m[k].Arr?
  }

  // The unmarshaller turns numbers and booleans into text for the two instance
  // fields, but not for the two that come from an embedded struct.
  predicate Unmarshals(ps: Json) {
    || ps.Null?
    || (ps.Obj? && TextOrNothing(ps.members, "kind") && TextOrNothing(ps.members, "apiVersion") &&
        ScalarOrNothing(ps.members, "instanceId") && ScalarOrNothing(ps.members, "instanceState") &&
        ("metadata" in ps.members ==> ps.members["metadata"].Obj? || ps.members["metadata"].Null?))
  }

  // An object's metadata always marshals with a creation timestamp, null when unset.
  function Dated(m: Members): Members {
    if "creationTimestamp" in m then m else m["creationTimestamp" := Null]
  }

  // The members of the struct that are omitted when empty.
  function TypeMembers(m: Members): Members {
    map k | k in m && k in {"kind", "apiVersion"} && m[k].Str? && m[k].s != "" :: m[k]
  }

  // The provider status unmarshalled, given id and state, and marshalled again.
  function Marshalled(ps: Json, id: string, status: string): Json {
    var m := MembersOf(ps);
    Obj(TypeMembers(m)["metadata" := Obj(Dated(Sub(m, "metadata")))]
        ["instanceId" := Str(id)]["instanceState" := Str(status)])
  }

  // It does not unmarshal exactly if it is neither an object nor null, or one of
  // these members has a value of another kind.
  lemma UnmarshalsExactly(ps: Json)
    ensures Unmarshals(ps) <==>
            || ps == Null
            || (ps.Obj? && forall k :: k in ps.members ==>
                  var v := ps.members[k];
                  && (k == "kind" || k == "apiVersion" ==> v.Str? || v == Null)
                  && (k == "instanceId" || k == "instanceState" ==> v.Str? || v.Num? || v.Bool? || v == Null)
                  && (k == "metadata" ==> v.Obj? || v == Null))
  {
  }

  // What is marshalled: id and state, whatever they were, the type if it was given,
  // and the metadata as it was, always with a creation timestamp.
  lemma MarshalledExactly(ps: Json, id: string, status: string, k: string)
    requires ps.Obj?
    ensures var was, m := ps.members, Marshalled(ps, id, status);
            && m.Obj? && Unmarshals(m)
            && (k in m.members <==>
                  || k in {"instanceId", "instanceState", "metadata"}
                  || (k in {"kind", "apiVersion"} && k in was && was[k].Str? && was[k] != Str("")))
            && m.members["instanceId"] == Str(id) && m.members["instanceState"] == Str(status)
            && (k in m.members && k in {"kind", "apiVersion"} ==> m.members[k] == was[k])
            && m.members["metadata"].Obj?
            && var meta := m.members["metadata"].members;
            && (k in Sub(was, "metadata") ==> k in meta && meta[k] == Sub(was, "metadata")[k])
            && (k in meta && k !in Sub(was, "metadata") ==> k == "creationTimestamp" && meta[k] == Null)
            && "creationTimestamp" in meta
  {
  }

  // Marshalling what was marshalled changes nothing but id and state.
  lemma MarshalledAgain(ps: Json, id: string, status: string, id': string, status': string)
    ensures Marshalled(Marshalled(ps, id, status), id', status') == Marshalled(ps, id', status')
  {
    hide TypeMembers, Dated;
    var m, n := MembersOf(ps), Marshalled(ps, id, status).members;
    TypeMembersAgain(m, n);
    assert Sub(n, "metadata") == Dated(Sub(m, "metadata"));
    assert Dated(Dated(Sub(m, "metadata"))) == Dated(Sub(m, "metadata")) by { DatedAgain(Sub(m, "metadata")); }
  }

  lemma TypeMembersAgain(m: Members, n: Members)
    requires forall k :: k in {"kind", "apiVersion"} ==>
               ((k in n) == (k in TypeMembers(m)) && (k in n ==> n[k] == TypeMembers(m)[k]))
    ensures TypeMembers(n) == TypeMembers(m)
  {
  }

  lemma DatedAgain(m: Members)
    ensures Dated(Dated(m)) == Dated(m)
  {
  }

  function Reported(doc: Json, id: string, status: string): Json {
    Put(doc, PROVIDER_STATUS, Marshalled(ProviderStatusOf(doc), id, status))
  }

  // ip is None when the network was left alone.
  function Located(doc: Json, name: string, ip: Option<string>): Json {
    if ip.Some? then Put(doc, ADDRESSES, Addresses(name, ip.value)) else doc
  }

  function Reconciled(doc: Json, name: string, id: string, status: string, ip: Option<string>): Json {
    Reported(Located(Identified(doc, id, status), name, ip), id, status)
  }

  /* ---- The fields of a reconciled document ---- */

  // Every field that names the VM describes this one reading of it.
  ghost predicate Describes(doc: Json, id: string, status: string) {
    && At(doc, PROVIDER_ID) == Some(Str(PROVIDER_ID_PREFIX + id))
    && At(doc, VM_ID) == Some(Str(id))
    && At(doc, STATE_ANNOTATION) == Some(Str(status))
    && At(doc, INSTANCE_ID) == Some(Str(id))
    && At(doc, INSTANCE_STATE) == Some(Str(status))
  }

  // All the fields the actuator writes.
  const WRITTEN := {PROVIDER_ID, VM_ID, STATE_ANNOTATION, INSTANCE_ID, INSTANCE_STATE}

  lemma IdentifiedFields(doc: Json, id: string, status: string)
    ensures var d := Identified(doc, id, status);
            d.Obj? && Stamped(d, id) && Spine(d, STATE_ANNOTATION) && At(d, STATE_ANNOTATION) == Some(Str(status))
  {
    hide Put, At, Spine;
    var d1 := Put(doc, PROVIDER_ID, Str(PROVIDER_ID_PREFIX + id));
    var d2 := Put(d1, STATE_ANNOTATION, Str(status));
    PutAt(doc, PROVIDER_ID, Str(PROVIDER_ID_PREFIX + id));
    PutAt(d1, STATE_ANNOTATION, Str(status));
    PutAt(d2, VM_ID, Str(id));
    PutApart(d1, STATE_ANNOTATION, Str(status), PROVIDER_ID);
    PutApart(d2, VM_ID, Str(id), PROVIDER_ID);
    PutApart(d2, VM_ID, Str(id), STATE_ANNOTATION);
  }

  lemma LocatedFields(doc: Json, name: string, ip: Option<string>, p: Path)
    requires doc.Obj? && Apart(ADDRESSES, p)
    ensures var d := Located(doc, name, ip);
            d.Obj? && At(d, p) == At(doc, p) && (Spine(doc, p) ==> Spine(d, p))
  {
    hide At, Spine, Apart;
    if ip.Some? {
      PutApart(doc, ADDRESSES, Addresses(name, ip.value), p);
    }
  }

  lemma ReportedFields(doc: Json, id: string, status: string)
    ensures var d := Reported(doc, id, status);
            d.Obj? && Spine(d, INSTANCE_ID) && At(d, INSTANCE_ID) == Some(Str(id)) &&
            Spine(d, INSTANCE_STATE) && At(d, INSTANCE_STATE) == Some(Str(status))
  {
  }

  // One step further than an object.
  lemma {:induction false} AtThrough(j: Json, p: Path, k: string)
    requires At(j, p).Some? && At(j, p).value.Obj? && (p != [] ==> Spine(j, p))
    ensures Spine(j, p + [k])
    ensures At(j, p + [k]) == if k in At(j, p).value.members then Some(At(j, p).value.members[k]) else None
    decreases |p|
  {
    if p == [] {
      assert [k][1..] == [];
    } else {
      assert (p + [k])[1..] == p[1..] + [k];
      AtThrough(j.members[p[0]], p[1..], k);
    }
  }

  lemma ReconciledFields(doc: Json, name: string, id: string, status: string, ip: Option<string>)
    ensures var d := Reconciled(doc, name, id, status, ip);
            d.Obj? && Describes(d, id, status) && Stamped(d, id) && forall p :: p in WRITTEN ==> Spine(d, p)
  {
    hide Put, At, Spine, Apart, Reported, Located, Identified;
    var d1 := Identified(doc, id, status);
    var d2 := Located(d1, name, ip);
    IdentifiedFields(doc, id, status);
    ReportedFields(d2, id, status);
    forall p | p in {PROVIDER_ID, VM_ID, STATE_ANNOTATION}
      ensures At(Reported(d2, id, status), p) == At(d1, p) && (Spine(d1, p) ==> Spine(Reported(d2, id, status), p))
    {
      FirstStepsDiffer(p);
      LocatedFields(d1, name, ip, p);
      ReportedKeeps(d2, id, status, p);
    }
  }

  lemma FirstStepsDiffer(p: Path)
    requires p in {PROVIDER_ID, VM_ID, STATE_ANNOTATION}
    ensures Apart(ADDRESSES, p) && Apart(PROVIDER_STATUS, p)
  {
  }

  lemma ReportedKeeps(doc: Json, id: string, status: string, p: Path)
    requires Apart(PROVIDER_STATUS, p)
    ensures At(Reported(doc, id, status), p) == At(doc, p)
    ensures Spine(doc, p) ==> Spine(Reported(doc, id, status), p)
  {
    PutApart(doc, PROVIDER_STATUS, Marshalled(ProviderStatusOf(doc), id, status), p);
  }

  /* ---- Two patches against a store that others write ---- */

  predicate Leaf(v: Option<Json>) {
    v.Some? ==> !v.value.Obj? && !v.value.Null?
  }

  // What a merge patch leaves at a path: the new value when the patch changes it,
  // the store's otherwise.
  function Resolved(store: Json, base: Json, doc: Json, p: Path): Option<Json> {
    if At(base, p) == At(doc, p) then At(store, p) else At(doc, p)
  }

  lemma MergedField(store: Json, base: Json, doc: Json, p: Path)
    requires store.Obj? && base.Obj? && doc.Obj? && Spine(doc, p)
    requires At(base, p) != At(doc, p) ==> Leaf(At(doc, p))
    ensures At(Merge(store, Obj(Diff(base.members, doc.members))), p) == Resolved(store, base, doc, p)
  {
    if At(base, p) == At(doc, p) {
      UnchangedKept(store.members, base.members, doc.members, p);
    } else {
      ChangedTaken(store.members, base.members, doc.members, p);
    }
  }

  /** The two patches of patchMachine, sent against the stored documents before1
      and before2. The first decides every field outside the status and the
      second every field in it; each takes the reconciled value exactly where the
      reconciled document differs from the base, although the second is computed
      from the response to the first. */
  lemma TwoPhase(before1: Json, before2: Json, base: Json, doc: Json, p: Path)
    requires before1.Obj? && before2.Obj? && base.Obj? && doc.Obj? && Spine(doc, p)
    requires At(base, p) != At(doc, p) ==> Leaf(At(doc, p))
    ensures var first := MainPatched(before1, base, doc);
            var second := StatusPatched(before2, base, WithStatusOf(first, doc));
            && At(first, p) == (if p[0] == "status" then At(before1, p) else Resolved(before1, base, doc, p))
            && At(second, p) == (if p[0] == "status" then Resolved(before2, base, doc, p) else At(before2, p))
  {
    hide At, Diff, Merge, Leaf, WithStatusOf;
    var first := MainPatched(before1, base, doc);
    MainField(before1, base, doc, p);
    WithStatusOfAt(first, doc, p);
    StatusField(before2, base, WithStatusOf(first, doc), p);
  }

  lemma MainField(before: Json, base: Json, doc: Json, p: Path)
    requires before.Obj? && base.Obj? && doc.Obj? && p != []
    requires p[0] != "status" ==> Spine(doc, p)
    requires p[0] != "status" && At(base, p) != At(doc, p) ==> Leaf(At(doc, p))
    ensures var first := MainPatched(before, base, doc);
            first.Obj? && At(first, p) == if p[0] == "status" then At(before, p) else Resolved(before, base, doc, p)
  {
    hide At, Spine, Diff, Leaf;
    WithStatusOfAt(Merge(before, Obj(Diff(base.members, doc.members))), before, p);
    if p[0] != "status" { MergedField(before, base, doc, p); }
  }

  lemma StatusField(before: Json, base: Json, doc: Json, p: Path)
    requires before.Obj? && base.Obj? && doc.Obj? && p != []
    requires p[0] == "status" ==> Spine(doc, p)
    requires p[0] == "status" && At(base, p) != At(doc, p) ==> Leaf(At(doc, p))
    ensures var second := StatusPatched(before, base, doc);
            second.Obj? && At(second, p) == if p[0] == "status" then Resolved(before, base, doc, p) else At(before, p)
  {
    hide At, Spine, Diff, Leaf;
    WithStatusOfAt(before, Merge(before, Obj(Diff(base.members, doc.members))), p);
    if p[0] == "status" { MergedField(before, base, doc, p); }
  }

  /* ---- Doing it again ---- */

  const STATUS_MEMBERS := {"kind", "apiVersion", "metadata", "instanceId", "instanceState"}

  predicate TextIfAny(m: Members, k: string) {
    k in m ==> m[k].Str? && m[k].s != ""
  }

  // A provider status in the form that marshalling and merging leave it.
  ghost predicate Settled(ps: Json) {
    && ps.Obj? && ps.members.Keys <= STATUS_MEMBERS
    && TextIfAny(ps.members, "kind") && TextIfAny(ps.members, "apiVersion")
    && "metadata" in ps.members && ps.members["metadata"].Obj?
  }

  // Merging a marshalled provider status over the one it was read from settles it.
  lemma MarshalSettles(ps: Json, id: string, status: string)
    ensures var was := MembersOf(ps);
            var u := MergeMembers(was, Diff(was, Marshalled(ps, id, status).members));
            Settled(Obj(u)) && u.Keys >= {"instanceId", "instanceState"} &&
            u["instanceId"] == Str(id) && u["instanceState"] == Str(status)
  {
    hide Diff, MergeMembers, TypeMembers, Settled, MembersOf;
    var was := MembersOf(ps);
    var m := Marshalled(ps, id, status).members;
    var u := MergeMembers(was, Diff(was, m));
    MarshalledForm(ps, id, status);
    forall k ensures Taken(m, u, k) {
      PatchedMember(was, m, k);
    }
    TakenSettles(m, u);
    assert Taken(m, u, "instanceId") && Taken(m, u, "instanceState");
  }

  // What is left of a member of m: its value if it is text, an object if it is
  // one, and nothing if there was none.
  predicate Taken(m: Members, u: Members, k: string) {
    && (k !in m ==> k !in u)
    && (k in m && m[k].Str? ==> k in u && u[k] == m[k])
    && (k in m && m[k].Obj? ==> k in u && u[k].Obj?)
  }

  lemma TakenSettles(m: Members, u: Members)
    requires Settled(Obj(m)) && forall k :: Taken(m, u, k)
    ensures Settled(Obj(u))
  {
    assert Taken(m, u, "kind") && Taken(m, u, "apiVersion") && Taken(m, u, "metadata");
    forall k | k in u ensures k in STATUS_MEMBERS {
      assert Taken(m, u, k);
    }
  }

  lemma MarshalledForm(ps: Json, id: string, status: string)
    ensures var m := Marshalled(ps, id, status).members;
            Settled(Obj(m)) && m.Keys >= {"instanceId", "instanceState"} &&
            m["instanceId"] == Str(id) && m["instanceState"] == Str(status)
  {
  }

  // One member of an object that was patched to become m.
  lemma PatchedMember(was: Members, m: Members, k: string)
    ensures Taken(m, MergeMembers(was, Diff(was, m)), k)
  {
    if k in m && m[k].Obj? {
      SubPatch(was, was, m, k);
    }
  }

  // A settled provider status changes only in its metadata when it is
  // marshalled with the id and state it already has.
  lemma RemarshalSettled(ps: Json, id: string, status: string)
    requires Settled(ps)
    requires At(ps, ["instanceId"]) == Some(Str(id)) && At(ps, ["instanceState"]) == Some(Str(status))
    ensures Marshalled(ps, id, status) == Put(ps, ["metadata"], Obj(Dated(ps.members["metadata"].members)))
  {
  }

  lemma DatedPatch(m: Members)
    ensures MergeMembers(m, Diff(m, Dated(m))) == m
  {
    var d := Diff(m, Dated(m));
    forall k | k in Dated(m) && k != "creationTimestamp" ensures k !in d {
      if m[k].Obj? { DiffEmptyIff(m[k].members, m[k].members); }
      assert DiffMember(m, Dated(m), k).None?;
    }
    if "creationTimestamp" in m {
      DiffEmptyIff(m, m);
      MergeNothing(m);
    } else {
      assert DiffMember(m, Dated(m), "creationTimestamp") == Some(Null);
    }
  }

  // The patch of a re-marshalled settled status is a no-op on that status.
  lemma RemarshalPatch(ps: Json, id: string, status: string)
    requires Settled(ps)
    requires At(ps, ["instanceId"]) == Some(Str(id)) && At(ps, ["instanceState"]) == Some(Str(status))
    ensures MergeMembers(ps.members, Diff(ps.members, Marshalled(ps, id, status).members)) == ps.members
  {
    var meta := ps.members["metadata"];
    RemarshalSettled(ps, id, status);
    assert ["metadata"][1..] == [];
    assert At(ps, ["metadata"]) == Some(meta);
    PatchPut(ps, ["metadata"], Dated(meta.members));
    DatedPatch(meta.members);
    PutSame(ps, ["metadata"], meta);
  }

  // A stored document that already describes the reading, settled.
  ghost predicate UpToDate(doc: Json, name: string, id: string, status: string, ip: Option<string>) {
    && doc.Obj? && Describes(doc, id, status) && Settled(ProviderStatusOf(doc))
    && (ip.Some? ==> At(doc, ADDRESSES) == Some(Addresses(name, ip.value)))
  }

  predicate OfType(entry: Json, kind: string) {
    entry.Obj? && "type" in entry.members && entry.members["type"] == Str(kind)
  }

  // Exactly one entry of this type among the addresses of the document, for this value.
  ghost predicate Lists(doc: Json, kind: string, value: string) {
    var a := At(doc, ["status", "addresses"]);
    && a.Some? && a.value.Arr?
    && (exists i :: 0 <= i < |a.value.elems| && OfType(a.value.elems[i], kind))
    && (forall i, j :: 0 <= i < j < |a.value.elems| && OfType(a.value.elems[i], kind) ==>
          !OfType(a.value.elems[j], kind))
    && (forall i :: 0 <= i < |a.value.elems| && OfType(a.value.elems[i], kind) ==>
          "address" in a.value.elems[i].members && a.value.elems[i].members["address"] == Str(value))
  }

  // What anybody can read off a document about the VM of the Machine.
  ghost predicate Shows(doc: Json, name: string, id: string, status: string, ip: Option<string>) {
    && Identifies(doc, id, status)
    && At(doc, ["status", "providerStatus", "instanceId"]) == Some(Str(id))
    && At(doc, ["status", "providerStatus", "instanceState"]) == Some(Str(status))
    && (ip.Some? ==> Lists(doc, "InternalDNS", name) && Lists(doc, "InternalIP", ip.value))
  }

  ghost predicate Identifies(doc: Json, id: string, status: string) {
    && At(doc, ["spec", "providerID"]) == Some(Str("ovirt://" + id))
    && At(doc, ["metadata", "annotations", "VmId"]) == Some(Str(id))
    && At(doc, ["metadata", "annotations", "machine.openshift.io/instance-state"]) == Some(Str(status))
  }

  // So do a document that is only identified, or located as well, and any other
  // that agrees with it outside the status.
  lemma PartlyIdentifies(doc: Json, name: string, id: string, status: string, ip: Option<string>, stored: Json)
    requires forall p :: p != [] && p[0] != "status" ==>
               At(stored, p) == At(Located(Identified(doc, id, status), name, ip), p)
    ensures Identifies(stored, id, status)
  {
    hide At, Put, Spine, Located, Identified, Apart;
    var d := Identified(doc, id, status);
    IdentifiedFields(doc, id, status);
    forall p | p in {PROVIDER_ID, VM_ID, STATE_ANNOTATION} ensures At(stored, p) == At(d, p) {
      FirstStepsDiffer(p);
      LocatedFields(d, name, ip, p);
    }
  }

  lemma AddressesListed(doc: Json, name: string, ip: string)
    requires At(doc, ADDRESSES) == Some(Addresses(name, ip))
    ensures Lists(doc, "InternalDNS", name) && Lists(doc, "InternalIP", ip)
    ensures |At(doc, ["status", "addresses"]).value.elems| == 2
  {
    hide At;
    var elems := Addresses(name, ip).elems;
    assert OfType(elems[0], "InternalDNS") && OfType(elems[1], "InternalIP");
  }

  // The prefix, the fields, and the two addresses that an up-to-date document has.
  lemma UpToDateShows(doc: Json, name: string, id: string, status: string, ip: Option<string>)
    requires UpToDate(doc, name, id, status, ip)
    ensures Shows(doc, name, id, status, ip)
  {
    hide At, Lists;
    if ip.Some? { AddressesListed(doc, name, ip.value); }
  }

  lemma ReconciledShows(doc: Json, name: string, id: string, status: string, ip: Option<string>)
    requires doc.Obj?
    ensures Shows(Reconciled(doc, name, id, status, ip), name, id, status, ip)
  {
    hide At, Lists, Reconciled;
    ReconciledFields(doc, name, id, status, ip);
    ReconciledStatus(doc, name, id, status, ip);
    if ip.Some? { AddressesListed(Reconciled(doc, name, id, status, ip), name, ip.value); }
  }

  // The status fields of a document that is about to be reported on.
  lemma ReconciledStatus(doc: Json, name: string, id: string, status: string, ip: Option<string>)
    requires doc.Obj?
    ensures var d := Reconciled(doc, name, id, status, ip);
            && At(d, PROVIDER_STATUS) == Some(Marshalled(ProviderStatusOf(doc), id, status)) &&
                Spine(d, PROVIDER_STATUS)
            && (ip.Some? ==> At(d, ADDRESSES) == Some(Addresses(name, ip.value)) && Spine(d, ADDRESSES))
  {
    hide Put, At, Spine, Apart, Marshalled, Addresses;
    var d1 := Identified(doc, id, status);
    var d2 := Located(d1, name, ip);
    IdentifiedFields(doc, id, status);
    IdentifiedKeeps(doc, id, status, PROVIDER_STATUS);
    StatusPathsApart();
    LocatedFields(d1, name, ip, PROVIDER_STATUS);
    PutAt(d2, PROVIDER_STATUS, Marshalled(ProviderStatusOf(d2), id, status));
    if ip.Some? {
      PutAt(d1, ADDRESSES, Addresses(name, ip.value));
      ReportedKeeps(d2, id, status, ADDRESSES);
    }
  }

  lemma StatusPathsApart()
    ensures Apart(ADDRESSES, PROVIDER_STATUS) && Apart(PROVIDER_STATUS, ADDRESSES)
  {
  }

  lemma IdentifiedKeeps(doc: Json, id: string, status: string, p: Path)
    requires p != [] && p[0] == "status"
    ensures At(Identified(doc, id, status), p) == At(doc, p)
  {
  }

  // What both patches leave when nobody else writes.
  function Persisted(base: Json, doc: Json): Json {
    var first := MainPatched(base, base, doc);
    StatusPatched(first, base, WithStatusOf(first, doc))
  }

  // With a single writer and a fresh read, the store ends up describing the
  // reading, and settled.
  lemma QuietPatches(base: Json, name: string, id: string, status: string, ip: Option<string>)
    requires base.Obj?
    ensures UpToDate(Persisted(base, Reconciled(base, name, id, status, ip)), name, id, status, ip)
  {
    hide At, Spine, Reconciled, WithStatusOf, MainPatched, StatusPatched, Addresses, Settled;
    var doc := Reconciled(base, name, id, status, ip);
    ReconciledFields(base, name, id, status, ip);
    ReconciledStatus(base, name, id, status, ip);
    var first := MainPatched(base, base, doc);
    MainField(base, base, doc, PROVIDER_ID);
    forall p | p in WRITTEN ensures At(Persisted(base, doc), p) == At(doc, p) {
      TwoPhase(base, first, base, doc, p);
    }
    if ip.Some? {
      LeafAddresses(name, ip.value);
      TwoPhase(base, first, base, doc, ADDRESSES);
    }
    WithStatusOfAt(first, doc, PROVIDER_ID);
    StatusField(first, base, WithStatusOf(first, doc), PROVIDER_ID);
    PersistedStatus(base, first, doc, id, status);
  }

  lemma LeafAddresses(name: string, ip: string)
    ensures Leaf(Some(Addresses(name, ip)))
  {
  }

  lemma PersistedStatus(base: Json, first: Json, doc: Json, id: string, status: string)
    requires base.Obj? && doc.Obj? && first == MainPatched(base, base, doc)
    requires At(doc, PROVIDER_STATUS) == Some(Marshalled(ProviderStatusOf(base), id, status)) &&
              Spine(doc, PROVIDER_STATUS)
    ensures Settled(ProviderStatusOf(Persisted(base, doc)))
  {
    hide At, Spine, Diff, Merge, WithStatusOf, Settled, TypeMembers;
    MainField(base, base, doc, PROVIDER_STATUS);
    var sent := WithStatusOf(first, doc);
    WithStatusOfAt(first, doc, PROVIDER_STATUS);
    ObjectPatched(first.members, base.members, sent.members, PROVIDER_STATUS);
    MergeIsObj(first, Diff(base.members, sent.members));
    WithStatusOfAt(first, Merge(first, Obj(Diff(base.members, sent.members))), PROVIDER_STATUS);
    MarshalSettles(ProviderStatusOf(base), id, status);
  }

  lemma MergeIsObj(t: Json, d: Members)
    ensures Merge(t, Obj(d)).Obj?
  {
  }

  lemma ReconciledAgain(doc: Json, name: string, id: string, status: string, ip: Option<string>)
    requires UpToDate(doc, name, id, status, ip)
    ensures Reconciled(doc, name, id, status, ip) == Reported(doc, id, status)
  {
    hide Put, At, Marshalled, Settled;
    PutSame(doc, PROVIDER_ID, Str(PROVIDER_ID_PREFIX + id));
    PutSame(doc, STATE_ANNOTATION, Str(status));
    PutSame(doc, VM_ID, Str(id));
    if ip.Some? { PutSame(doc, ADDRESSES, Addresses(name, ip.value)); }
  }

  // A provider status that was never marshalled with a creation timestamp.
  const UNDATED := Obj(map["metadata" := Obj(map[]), "instanceId" := Str("7"), "instanceState" := Str("down")])

  // The Machine of a VM that is down, with that provider status.
  const DOWN_MACHINE := Put(Identified(Obj(map[]), "7", "down"), PROVIDER_STATUS, UNDATED)

  // It is up to date, and still its next patch is not empty.
  lemma RepeatedPatchIsNotEmpty()
    ensures UpToDate(DOWN_MACHINE, "worker-0", "7", "down", None)
    ensures Diff(DOWN_MACHINE.members, MembersOf(Reconciled(DOWN_MACHINE, "worker-0", "7", "down", None))) != map[]
  {
    hide Diff, Reconciled, Put, Identified, At, Spine, Apart;
    var d := Identified(Obj(map[]), "7", "down");
    IdentifiedFields(Obj(map[]), "7", "down");
    PutAt(d, PROVIDER_STATUS, UNDATED);
    forall p | p in {PROVIDER_ID, VM_ID, STATE_ANNOTATION} ensures At(DOWN_MACHINE, p) == At(d, p) {
      FirstStepsDiffer(p);
      PutApart(d, PROVIDER_STATUS, UNDATED, p);
    }
    AtThrough(DOWN_MACHINE, PROVIDER_STATUS, "instanceId");
    AtThrough(DOWN_MACHINE, PROVIDER_STATUS, "instanceState");
    assert PROVIDER_STATUS + ["instanceId"] == INSTANCE_ID && PROVIDER_STATUS + ["instanceState"] == INSTANCE_STATE;
    RepeatChangesNothing(DOWN_MACHINE, "worker-0", "7", "down", None);
  }

  // Reconciling again with the same reading: both patches leave the store as it
  // is. The patch itself is empty only when the provider status carries a
  // creation timestamp, because marshalling adds a null one.
  lemma RepeatChangesNothing(doc: Json, name: string, id: string, status: string, ip: Option<string>)
    requires UpToDate(doc, name, id, status, ip)
    ensures var d := Reconciled(doc, name, id, status, ip);
            && MainPatched(doc, doc, d) == doc
            && StatusPatched(doc, doc, WithStatusOf(MainPatched(doc, doc, d), d)) == doc
            && (Diff(doc.members, MembersOf(d)) == map[] <==>
                "creationTimestamp" in ProviderStatusOf(doc).members["metadata"].members)
  {
    hide Put, Diff, Merge, TypeMembers, WithStatusOf, Reconciled;
    var ps := ProviderStatusOf(doc);
    var d := Reconciled(doc, name, id, status, ip);
    ReconciledAgain(doc, name, id, status, ip);
    PutIsObj(doc, PROVIDER_STATUS, Marshalled(ps, id, status).members);
    StatusMembersOf(doc, "instanceId");
    StatusMembersOf(doc, "instanceState");
    RemarshalPatch(ps, id, status);
    PatchPut(doc, PROVIDER_STATUS, Marshalled(ps, id, status).members);
    PutSame(doc, PROVIDER_STATUS, ps);
    assert Merge(doc, Obj(Diff(doc.members, d.members))) == doc;
    SameStatus(doc, ps, Marshalled(ps, id, status));
    EmptyPatchIff(doc, ps, id, status);
  }

  lemma SameStatus(doc: Json, ps: Json, v: Json)
    requires doc.Obj? && At(doc, PROVIDER_STATUS) == Some(ps)
    ensures WithStatusOf(doc, doc) == doc
    ensures var d := Put(doc, PROVIDER_STATUS, v); d.Obj? && WithStatusOf(doc, d) == d
  {
  }

  // The provider status is where the instance id and state are read from.
  lemma StatusMembersOf(doc: Json, k: string)
    requires At(doc, PROVIDER_STATUS + [k]).Some?
    ensures At(ProviderStatusOf(doc), [k]) == At(doc, PROVIDER_STATUS + [k])
  {
  }

  lemma EmptyPatchIff(doc: Json, ps: Json, id: string, status: string)
    requires doc.Obj? && Settled(ps) && At(doc, PROVIDER_STATUS) == Some(ps)
    requires At(ps, ["instanceId"]) == Some(Str(id)) && At(ps, ["instanceState"]) == Some(Str(status))
    ensures Diff(doc.members, MembersOf(Reported(doc, id, status))) == map[] <==>
            "creationTimestamp" in ps.members["metadata"].members
  {
    var d := Reported(doc, id, status);
    DiffEmptyIff(doc.members, d.members);
    RemarshalSettled(ps, id, status);
    PutAt(doc, PROVIDER_STATUS, Marshalled(ps, id, status));
    if "creationTimestamp" in ps.members["metadata"].members {
      PutSame(ps, ["metadata"], ps.members["metadata"]);
      PutSame(doc, PROVIDER_STATUS, ps);
    } else {
      assert Marshalled(ps, id, status).members["metadata"] != ps.members["metadata"];
    }
  }
}
