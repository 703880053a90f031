/** The provider spec as it lies in memory, and its generated deep copy. */
module DeepCopies {
  import opened Prelude
  import V = ProviderSpecs

  class LocalObjectReference {
    var name: string
  }

  class CPU {
    var sockets: int32
    var cores: int32
    var threads: int32
  }

  class Disk {
    var sizeGB: int64
  }

  class NetworkInterface {
    var vnicProfileID: string
  }

  // A pointer to a bool.
  class BoolPointer {
    var value: bool
  }

  // The maps of the embedded metadata.
  class Metadata {
    var entries: map<string, string>
  }

  function Interface(n: NetworkInterface?): Option<V.NetworkInterface>
    reads n
  {
    if n == null then None else Some(V.NetworkInterface(n.vnicProfileID))
  }

  ghost function Pointers(a: array<NetworkInterface?>): set<object>
    reads a
  {
    var slice: set<object> := {a};
    slice + set o: object | o in a[..]
  }

  // The values of a slice of pointers, nil ones included.
  ghost function Interfaces(a: array<NetworkInterface?>): seq<Option<V.NetworkInterface>>
    reads Pointers(a)
  {
    seq(a.Length, i requires 0 <= i < a.Length reads Pointers(a) => InterfaceAt(a, i))
  }

  ghost function InterfaceAt(a: array<NetworkInterface?>, i: nat): Option<V.NetworkInterface>
    requires i < a.Length
    reads Pointers(a)
  {
    assert a[i] in a[..];
    Interface(a[i])
  }

  /* ---- What the pointers lead to ---- */

  function MetadataAt(r: Metadata?): Option<map<string, string>>
    reads r
  {
    if r == null then None else Some(r.entries)
  }

  function SecretAt(r: LocalObjectReference?): Option<V.LocalObjectReference>
    reads r
  {
    if r == null then None else Some(V.LocalObjectReference(r.name))
  }

  function CPUAt(r: CPU?): Option<V.CPU>
    reads r
  {
    if r == null then None else Some(V.CPU(r.sockets, r.cores, r.threads))
  }

  function DiskAt(r: Disk?): Option<V.Disk>
    reads r
  {
    if r == null then None else Some(V.Disk(r.sizeGB))
  }

  function BoolAt(r: BoolPointer?): Option<bool>
    reads r
  {
    if r == null then None else Some(r.value)
  }

  function StringsAt(r: array?<string>): Option<seq<string>>
    reads r
  {
    if r == null then None else Some(r[..])
  }

  ghost function SliceParts(r: array?<NetworkInterface?>): set<object>
    reads r
  {
    if r == null then {} else Pointers(r)
  }

  ghost function InterfacesAt(r: array?<NetworkInterface?>): Option<seq<Option<V.NetworkInterface>>>
    reads SliceParts(r)
  {
    if r == null then None else Some(Interfaces(r))
  }

  /* ---- One copy for each kind of pointer; nil stays nil ---- */

  method CopyMetadata(from: Metadata?) returns (to: Metadata?)
    ensures (to != null ==> fresh(to)) && MetadataAt(to) == MetadataAt(from)
  {
    to := null;
    if from != null {
      var m := new Metadata;
      m.entries := from.entries;
      to := m;
    }
  }

  method CopySecret(from: LocalObjectReference?) returns (to: LocalObjectReference?)
    ensures (to != null ==> fresh(to)) && SecretAt(to) == SecretAt(from)
  {
    to := null;
    if from != null {
      var r := new LocalObjectReference;
      r.name := from.name;
      to := r;
    }
  }

  method CopyCPU(from: CPU?) returns (to: CPU?)
    ensures (to != null ==> fresh(to)) && CPUAt(to) == CPUAt(from)
  {
    to := null;
    if from != null {
      var c := new CPU;
      c.sockets, c.cores, c.threads := from.sockets, from.cores, from.threads;
      to := c;
    }
  }

  method CopyDisk(from: Disk?) returns (to: Disk?)
    ensures (to != null ==> fresh(to)) && DiskAt(to) == DiskAt(from)
  {
    to := null;
    if from != null {
      var d := new Disk;
      d.sizeGB := from.sizeGB;
      to := d;
    }
  }

  method CopyBool(from: BoolPointer?) returns (to: BoolPointer?)
    ensures (to != null ==> fresh(to)) && BoolAt(to) == BoolAt(from)
  {
    to := null;
    if from != null {
      var b := new BoolPointer;
      b.value := from.value;
      to := b;
    }
  }

  method CopyStrings(from: array?<string>) returns (to: array?<string>)
    ensures (to != null ==> fresh(to)) && StringsAt(to) == StringsAt(from)
  {
    to := null;
    if from != null {
      var a := new string[from.Length];
      forall i | 0 <= i < a.Length { a[i] := from[i]; }
      assert a[..] == from[..];
      to := a;
    }
  }

  method CopySlice(from: array?<NetworkInterface?>) returns (to: array?<NetworkInterface?>)
    ensures fresh(SliceParts(to)) && InterfacesAt(to) == InterfacesAt(from)
  {
    to := null;
    if from != null { to := CopyInterfaces(from); }
  }

  // A new slice, with a new object for each pointer in it that is not nil.
  method CopyInterfaces(from: array<NetworkInterface?>) returns (to: array<NetworkInterface?>)
    ensures fresh(Pointers(to)) && Interfaces(to) == Interfaces(from)
  {
    to := new NetworkInterface?[from.Length](_ => null);
    for i := 0 to from.Length
      invariant fresh(Pointers(to)) && to.Length == from.Length
      invariant forall j :: 0 <= j < i ==>
                  (to[j] == null <==> from[j] == null) &&
                  (to[j] != null ==> to[j].vnicProfileID == from[j].vnicProfileID)
      invariant forall j :: i <= j < to.Length ==> to[j] == null
    {
      if from[i] != null {
        var n := new NetworkInterface;
        n.vnicProfileID := from[i].vnicProfileID;
        to[i] := n;
      }
    }
  }

  // Nothing but writes to a slice or to what it points to can change its values.
  twostate lemma SliceKept(r: array?<NetworkInterface?>)
    requires forall o: object :: o in old(SliceParts(r)) ==> unchanged(o)
    ensures InterfacesAt(r) == old(InterfacesAt(r)) && SliceParts(r) == old(SliceParts(r))
  {
  }

  // The fields that are not pointers.
  datatype Plain = Plain(
    typeMeta: string,
    id: string,
    name: string,
    templateName: string,
    clusterId: string,
    instanceTypeId: string,
    memoryMB: int32,
    vmType: string,
    autoPinningPolicy: string,
    hugepages: int32,
    guaranteedMemoryMB: int32,
    format: string,
    storageDomainId: string
  )

  /* ---- The pointers of a spec, in three groups ---- */

  datatype Names = Names(
    objectMeta: Metadata?,
    userDataSecret: LocalObjectReference?,
    credentialsSecret: LocalObjectReference?
  )
  {
    function Parts(): set<object?> {
      {objectMeta, userDataSecret, credentialsSecret}
    }
  }

  datatype Sizes = Sizes(cpu: CPU?, osDisk: Disk?, clone: BoolPointer?, sparse: BoolPointer?)
  {
    function Parts(): set<object?> {
      {cpu, osDisk, clone, sparse}
    }
  }

  datatype Slices = Slices(networkInterfaces: array?<NetworkInterface?>, affinityGroupsNames: array?<string>)
  {
    ghost function Parts(): set<object?>
      reads networkInterfaces
    {
      {affinityGroupsNames} + SliceParts(networkInterfaces)
    }
  }

  function NamesAt(n: Names):
    (Option<map<string, string>>, Option<V.LocalObjectReference>, Option<V.LocalObjectReference>)
    reads n.objectMeta, n.userDataSecret, n.credentialsSecret
  {
    (MetadataAt(n.objectMeta), SecretAt(n.userDataSecret), SecretAt(n.credentialsSecret))
  }

  function SizesAt(s: Sizes): (Option<V.CPU>, Option<V.Disk>, Option<bool>, Option<bool>)
    reads s.cpu, s.osDisk, s.clone, s.sparse
  {
    (CPUAt(s.cpu), DiskAt(s.osDisk), BoolAt(s.clone), BoolAt(s.sparse))
  }

  ghost function SlicesAt(s: Slices): (Option<seq<Option<V.NetworkInterface>>>, Option<seq<string>>)
    reads SliceParts(s.networkInterfaces), s.affinityGroupsNames
  {
    (InterfacesAt(s.networkInterfaces), StringsAt(s.affinityGroupsNames))
  }

  method CopyNames(n: Names) returns (c: Names)
    ensures fresh(c.Parts() - {null}) && NamesAt(c) == old(NamesAt(n))
  {
    var meta := CopyMetadata(n.objectMeta);
    var userData := CopySecret(n.userDataSecret);
    var credentials := CopySecret(n.credentialsSecret);
    c := Names(meta, userData, credentials);
  }

  method CopySizes(s: Sizes) returns (c: Sizes)
    ensures fresh(c.Parts() - {null}) && SizesAt(c) == old(SizesAt(s))
  {
    var cpu := CopyCPU(s.cpu);
    var disk := CopyDisk(s.osDisk);
    var clone := CopyBool(s.clone);
    var sparse := CopyBool(s.sparse);
    c := Sizes(cpu, disk, clone, sparse);
  }

  method CopySlices(s: Slices) returns (c: Slices)
    ensures fresh(c.Parts() - {null}) && SlicesAt(c) == old(SlicesAt(s))
  {
    hide InterfacesAt, StringsAt;
    var groups := CopyStrings(s.affinityGroupsNames);
    SliceKept(s.networkInterfaces);
    var interfaces := CopySlice(s.networkInterfaces);
    c := Slices(interfaces, groups);
  }

  twostate lemma SlicesKept(s: Slices)
    requires s.affinityGroupsNames != null ==> unchanged(s.affinityGroupsNames)
    requires forall o: object :: o in old(SliceParts(s.networkInterfaces)) ==> unchanged(o)
    ensures SlicesAt(s) == old(SlicesAt(s)) && s.Parts() == old(s.Parts())
  {
    SliceKept(s.networkInterfaces);
  }

  class OvirtMachineProviderSpec {
    var plain: Plain
    var names: Names
    var sizes: Sizes
    var slices: Slices

    // Everything the spec refers to, itself excluded.
    ghost function Parts(): set<object?>
      reads this, slices.networkInterfaces
    {
      names.Parts() + sizes.Parts() + slices.Parts()
    }

    ghost function Value(): V.ProviderSpec
      reads this, names.objectMeta, names.userDataSecret, names.credentialsSecret
      reads sizes.cpu, sizes.osDisk, sizes.clone, sizes.sparse
      reads SliceParts(slices.networkInterfaces), slices.affinityGroupsNames
    {
      var (meta, userData, credentials) := NamesAt(names);
      var (cpu, disk, clone, sparse) := SizesAt(sizes);
      var (interfaces, groups) := SlicesAt(slices);
      V.ProviderSpec(
        plain.typeMeta, meta, userData, credentials, plain.id, plain.name, plain.templateName, plain.clusterId,
        plain.instanceTypeId, cpu, plain.memoryMB, disk, plain.vmType, interfaces, groups,
        plain.autoPinningPolicy, plain.hugepages, plain.guaranteedMemoryMB, clone, sparse,
        plain.format, plain.storageDomainId)
    }

    method CopyPointers() returns (n: Names, z: Sizes, l: Slices)
      ensures fresh(n.Parts() - {null}) && fresh(z.Parts() - {null}) && fresh(l.Parts() - {null})
      ensures NamesAt(n) == old(NamesAt(names)) && SizesAt(z) == old(SizesAt(sizes))
      ensures SlicesAt(l) == old(SlicesAt(slices))
    {
      hide SlicesAt;
      n := CopyNames(names);
      z := CopySizes(sizes);
      SlicesKept(slices);
      l := CopySlices(slices);
    }

    // out becomes a copy, and nothing else changes: a new object behind every
    // pointer that is not nil.
    method DeepCopyInto(out: OvirtMachineProviderSpec)
      requires out != this
      modifies out
      ensures out.Value() == old(Value())
      ensures forall o: object :: o in out.Parts() ==> fresh(o)
    {
      hide NamesAt, SizesAt, SlicesAt, Value;
      var n, z, l := CopyPointers();
      out.plain, out.names, out.sizes, out.slices := plain, n, z, l;
      SameValue(out);
    }

    twostate lemma SameValue(out: OvirtMachineProviderSpec)
      requires out.plain == old(plain) && NamesAt(out.names) == old(NamesAt(names))
      requires SizesAt(out.sizes) == old(SizesAt(sizes)) && SlicesAt(out.slices) == old(SlicesAt(slices))
      ensures out.Value() == old(Value())
    {
    }

    // A new struct; allocating it leaves this one as it is.
    method Zeroed() returns (out: OvirtMachineProviderSpec)
      ensures fresh(out) && Value() == old(Value())
    {
      hide NamesAt, SizesAt, SlicesAt, Value;
      out := new OvirtMachineProviderSpec;
      ValueKept();
    }

    method DeepCopy() returns (out: OvirtMachineProviderSpec)
      ensures fresh(out)
      ensures forall o: object :: o in out.Parts() ==> fresh(o)
      ensures out.Value() == old(Value())
    {
      hide NamesAt, SizesAt, SlicesAt, Value, Parts;
      out := Zeroed();
      DeepCopyInto(out);
    }

    // Only writes to the spec or its parts can change its value.
    twostate lemma ValueKept()
      requires unchanged(this) && forall o: object :: o in old(Parts()) ==> unchanged(o)
      ensures Value() == old(Value()) && Parts() == old(Parts())
    {
      assert old(names.Parts() + sizes.Parts() + slices.Parts()) == old(Parts());
      assert forall o: object :: o in old(SliceParts(slices.networkInterfaces)) ==> o in old(Parts());
      SlicesKept(slices);
    }
  }

  /* ---- Equal values are equal field by field, and behind every pointer ---- */

  lemma EqualNames(a: Names, b: Names)
    requires NamesAt(a) == NamesAt(b)
    ensures (a.objectMeta == null <==> b.objectMeta == null) &&
            (a.objectMeta != null ==> a.objectMeta.entries == b.objectMeta.entries)
    ensures (a.userDataSecret == null <==> b.userDataSecret == null) &&
            (a.userDataSecret != null ==> a.userDataSecret.name == b.userDataSecret.name)
    ensures (a.credentialsSecret == null <==> b.credentialsSecret == null) &&
            (a.credentialsSecret != null ==> a.credentialsSecret.name == b.credentialsSecret.name)
  {
  }

  lemma EqualSizes(a: Sizes, b: Sizes)
    requires SizesAt(a) == SizesAt(b)
    ensures (a.cpu == null <==> b.cpu == null) &&
            (a.cpu != null ==> a.cpu.sockets == b.cpu.sockets && a.cpu.cores == b.cpu.cores &&
                               a.cpu.threads == b.cpu.threads)
    ensures (a.osDisk == null <==> b.osDisk == null) && (a.osDisk != null ==> a.osDisk.sizeGB == b.osDisk.sizeGB)
    ensures (a.clone == null <==> b.clone == null) && (a.clone != null ==> a.clone.value == b.clone.value)
    ensures (a.sparse == null <==> b.sparse == null) && (a.sparse != null ==> a.sparse.value == b.sparse.value)
  {
  }

  // A nil pointer in a slice is not a pointer to an empty interface.
  lemma EqualSlices(a: Slices, b: Slices)
    requires SlicesAt(a) == SlicesAt(b)
    ensures (a.affinityGroupsNames == null <==> b.affinityGroupsNames == null) &&
            (a.affinityGroupsNames != null ==> a.affinityGroupsNames[..] == b.affinityGroupsNames[..])
    ensures (a.networkInterfaces == null <==> b.networkInterfaces == null)
    ensures a.networkInterfaces != null ==>
              && a.networkInterfaces.Length == b.networkInterfaces.Length
              && forall i :: 0 <= i < a.networkInterfaces.Length ==>
                   EqualInterfaces(a.networkInterfaces[i], b.networkInterfaces[i])
  {
    if a.networkInterfaces != null {
      var m, n := a.networkInterfaces, b.networkInterfaces;
      assert |Interfaces(m)| == |Interfaces(n)|;
      forall i | 0 <= i < m.Length ensures EqualInterfaces(m[i], n[i]) {
        assert Interfaces(m)[i] == Interfaces(n)[i];
      }
    }
  }

  ghost predicate EqualInterfaces(a: NetworkInterface?, b: NetworkInterface?)
    reads a, b
  {
    (a == null <==> b == null) && (a != null ==> a.vnicProfileID == b.vnicProfileID)
  }

  lemma EqualValues(a: OvirtMachineProviderSpec, b: OvirtMachineProviderSpec)
    requires a.Value() == b.Value()
    ensures a.plain == b.plain
    ensures NamesAt(a.names) == NamesAt(b.names) && SizesAt(a.sizes) == SizesAt(b.sizes)
    ensures SlicesAt(a.slices) == SlicesAt(b.slices)
  {
    hide MetadataAt, SecretAt, CPUAt, DiskAt, BoolAt, InterfacesAt, StringsAt;
  }

  // Nothing of one is part of the other.
  ghost predicate Separate(one: OvirtMachineProviderSpec, other: OvirtMachineProviderSpec)
    reads one, one.slices.networkInterfaces, other, other.slices.networkInterfaces
  {
    && one != other && one !in other.Parts() && other !in one.Parts()
    && forall o: object :: o in other.Parts() ==> o !in one.Parts()
  }

  // Writes that stay within one spec and its parts leave the value of another
  // spec unchanged when the two share nothing, as after a deep copy.
  twostate lemma WritesStayApart(one: OvirtMachineProviderSpec, other: OvirtMachineProviderSpec)
    requires old(Separate(one, other))
    requires forall o: object :: old(allocated(o)) ==> o in old({one} + one.Parts()) || unchanged(o)
    ensures other.Value() == old(other.Value())
  {
    hide OvirtMachineProviderSpec.Value, NamesAt, SizesAt, SlicesAt, InterfacesAt;
    assert old(allocated(other)) && other !in old({one} + one.Parts());
    assert unchanged(other);
    forall o: object | o in old(other.Parts()) ensures unchanged(o) {
      assert old(allocated(o)) && o !in old({one} + one.Parts());
    }
    assert forall o: object :: o in old(other.Parts()) ==> unchanged(o);
    other.ValueKept();
  }
}
