/** The builder that create fills in before it asks the engine for a VM. */
module VMParams {
  import opened Prelude
  import opened ProviderSpecs
  import opened Templates

  datatype Topology = Topology(cores: uint64, threads: uint64, sockets: uint64)

  datatype CPUParams = CPUParams(topology: Option<Topology>, mode: Option<string>)

  datatype MemoryPolicy = MemoryPolicy(guaranteed: Option<int64>, ballooning: Option<bool>)

  datatype PlacementPolicy = PlacementPolicy(affinity: Option<string>, hostIDs: seq<string>)

  datatype DiskParams = DiskParams(
    diskID: string,
    sparse: Option<bool>,
    format: Option<string>,
    storageDomainID: Option<string>
  )

  // What the engine is sent.
  datatype ParamValues = ParamValues(
    customScript: string,
    hostname: string,
    vmType: Option<string>,
    instanceTypeID: Option<string>,
    cpu: Option<CPUParams>,
    memory: Option<int64>,
    memoryPolicy: Option<MemoryPolicy>,
    hugePages: Option<uint64>,
    clone: Option<bool>,
    disks: seq<DiskParams>,
    placement: Option<PlacementPolicy>,
    soundcard: Option<bool>,
    serialConsole: Option<bool>
  )

  const BYTES_IN_MB: int64 := 1048576

  predicate ValidVMType(t: string) {
    t == "desktop" || t == "server" || t == "high_performance"
  }

  predicate ValidFormat(f: string) {
    f == "cow" || f == "raw"
  }

  predicate ValidHugePages(h: int) {
    h == 2048 || h == 1048576
  }

  /** BuildableVMParameters: every setter changes the builder in place and hands
      the same builder back. A Must setter that would panic leaves the builder
      as it is and reports ok == false. */
  class Builder {
    var customScript: string
    var hostname: string
    var vmType: Option<string>
    var instanceTypeID: Option<string>
    var cpu: Option<CPUParams>
    var memory: Option<int64>
    var memoryPolicy: Option<MemoryPolicy>
    var hugePages: Option<uint64>
    var clone: Option<bool>
    var disks: seq<DiskParams>
    var placement: Option<PlacementPolicy>
    var soundcard: Option<bool>
    var serialConsole: Option<bool>

    function Values(): ParamValues
      reads this
    {
      ParamValues(customScript, hostname, vmType, instanceTypeID, cpu, memory, memoryPolicy,
                  hugePages, clone, disks, placement, soundcard, serialConsole)
    }

    constructor (script: string, host: string)
      ensures Values() == Initial(script, host)
    {
      customScript, hostname := script, host;
      vmType, instanceTypeID, cpu, memory := None, None, None, None;
      memoryPolicy, hugePages, clone, disks := None, None, None, [];
      placement, soundcard, serialConsole := None, None, None;
    }

    method MustWithVMType(t: string) returns (r: Builder, ok: bool)
      modifies this
      ensures r == this && ok == ValidVMType(t)
      ensures Values() == if ok then old(Values()).(vmType := Some(t)) else old(Values())
    {
      r, ok := this, ValidVMType(t);
      if ok { vmType := Some(t); }
    }

    method MustWithInstanceTypeID(t: string) returns (r: Builder)
      modifies this
      ensures r == this && Values() == old(Values()).(instanceTypeID := Some(t))
    {
      r := this;
      instanceTypeID := Some(t);
    }

    // The parameters are cores, threads, sockets, in this order.
    method MustWithCPUParameters(cores: uint64, threads: uint64, sockets: uint64) returns (r: Builder, ok: bool)
      modifies this
      ensures r == this && ok == (cores != 0 && threads != 0 && sockets != 0)
      ensures Values() == if ok
                          then old(Values()).(cpu := Some(CPUParams(Some(Topology(cores, threads, sockets)), None)))
                          else old(Values())
    {
      r, ok := this, cores != 0 && threads != 0 && sockets != 0;
      if ok { cpu := Some(CPUParams(Some(Topology(cores, threads, sockets)), None)); }
    }

    // Replaces whatever CPU parameters were set before.
    method MustWithCPU(c: CPUParams) returns (r: Builder)
      modifies this
      ensures r == this && Values() == old(Values()).(cpu := Some(c))
    {
      r := this;
      cpu := Some(c);
    }

    method MustWithMemory(m: int64) returns (r: Builder)
      modifies this
      ensures r == this && Values() == old(Values()).(memory := Some(m))
    {
      r := this;
      memory := Some(m);
    }

    // Replaces whatever memory policy was set before.
    method WithMemoryPolicy(p: MemoryPolicy) returns (r: Builder)
      modifies this
      ensures r == this && Values() == old(Values()).(memoryPolicy := Some(p))
    {
      r := this;
      memoryPolicy := Some(p);
    }

    method MustWithHugePages(h: uint64) returns (r: Builder, ok: bool)
      modifies this
      ensures r == this && ok == ValidHugePages(h)
      ensures Values() == if ok then old(Values()).(hugePages := Some(h)) else old(Values())
    {
      r, ok := this, ValidHugePages(h);
      if ok { hugePages := Some(h); }
    }

    method MustWithClone(c: bool) returns (r: Builder)
      modifies this
      ensures r == this && Values() == old(Values()).(clone := Some(c))
    {
      r := this;
      clone := Some(c);
    }

    // Replaces whatever disk list was set before. Its check for a disk that
    // appears twice never fires, because the set of seen disks stays empty.
    method MustWithDisks(ds: seq<DiskParams>) returns (r: Builder)
      modifies this
      ensures r == this && Values() == old(Values()).(disks := ds)
    {
      r := this;
      disks := ds;
    }

    method WithSoundcardEnabled(enabled: bool) returns (r: Builder)
      modifies this
      ensures r == this && Values() == old(Values()).(soundcard := Some(enabled))
    {
      r := this;
      soundcard := Some(enabled);
    }

    method WithSerialConsole(enabled: bool) returns (r: Builder)
      modifies this
      ensures r == this && Values() == old(Values()).(serialConsole := Some(enabled))
    {
      r := this;
      serialConsole := Some(enabled);
    }

    method WithPlacementPolicy(p: PlacementPolicy) returns (r: Builder)
      modifies this
      ensures r == this && Values() == old(Values()).(placement := Some(p))
    {
      r := this;
      placement := Some(p);
    }
  }

  /** The per-disk builder. create throws the results of its setters away. */
  class DiskBuilder {
    const diskID: string
    var sparse: Option<bool>
    var format: Option<string>
    var storageDomainID: Option<string>

    function Value(): DiskParams
      reads this
    {
      DiskParams(diskID, sparse, format, storageDomainID)
    }

    constructor (id: string)
      ensures Value() == DiskParams(id, None, None, None)
    {
      diskID := id;
      sparse, format, storageDomainID := None, None, None;
    }

    method MustWithSparse(s: bool) returns (r: DiskBuilder)
      modifies this
      ensures r == this && Value() == old(Value()).(sparse := Some(s))
    {
      r := this;
      sparse := Some(s);
    }

    method MustWithFormat(f: string) returns (r: DiskBuilder, ok: bool)
      modifies this
      ensures r == this && ok == ValidFormat(f)
      ensures Value() == if ok then old(Value()).(format := Some(f)) else old(Value())
    {
      r, ok := this, ValidFormat(f);
      if ok { format := Some(f); }
    }

    method MustWithStorageDomainID(d: string) returns (r: DiskBuilder)
      modifies this
      ensures r == this && Value() == old(Value()).(storageDomainID := Some(d))
    {
      r := this;
      storageDomainID := Some(d);
    }
  }

  /* ---- What the parameters amount to, field by field ---- */

  // The identifiers of the hosts of one cluster, in listing order.
  function HostsIn(hosts: seq<Host>, cluster: string): seq<string> {
    if hosts == [] then []
    else (if hosts[0].clusterID == cluster then [hosts[0].id] else []) + HostsIn(hosts[1..], cluster)
  }

  function OverriddenDisks(spec: ProviderSpec, disks: seq<DiskAttachment>): seq<DiskParams> {
    seq(|disks|, i requires 0 <= i < |disks| =>
      DiskParams(disks[i].diskID, spec.sparse, if spec.format != "" then Some(spec.format) else None, None))
  }

  // The setting for a storage domain replaces the per-disk overrides altogether.
  function ExpectedDisks(spec: ProviderSpec, disks: seq<DiskAttachment>): seq<DiskParams> {
    if spec.storageDomainId != "" && disks != [] then
      [DiskParams(disks[0].diskID, None, None, Some(spec.storageDomainId))]
    else if spec.sparse.Some? || spec.format != "" then OverriddenDisks(spec, disks)
    else []
  }

  function ExpectedParams(spec: ProviderSpec, ignition: string, machineName: string,
                          hosts: seq<Host>, disks: seq<DiskAttachment>): ParamValues {
    var sized := spec.instanceTypeId == "";
    ParamValues(
      customScript := ignition,
      hostname := machineName,
      vmType := if spec.vmType != "" then Some(spec.vmType) else None,
      instanceTypeID := if sized then None else Some(spec.instanceTypeId),
      cpu :=
        if spec.HighPerformance() then Some(CPUParams(None, Some("host_passthrough")))
        else if sized && spec.cpu.Some? then Some(CPUParams(Some(SentTopology(spec.cpu.value)), None))
        else None,
      memory := if sized && spec.memoryMB > 0 then Some(MiB(spec.memoryMB)) else None,
      memoryPolicy :=
        if spec.HighPerformance() then Some(MemoryPolicy(None, Some(false)))
        else if sized && spec.guaranteedMemoryMB > 0 then Some(MemoryPolicy(Some(MiB(spec.guaranteedMemoryMB)), None))
        else None,
      hugePages := if spec.hugepages > 0 then Some(spec.hugepages) else None,
      clone := Some(ClonesDisks(spec)),
      disks := ExpectedDisks(spec, disks),
      placement := Some(PlacementPolicy(
        Some(if spec.HighPerformance() then "user_migratable" else "migratable"),
        if spec.AutoPinning() then HostsIn(hosts, spec.clusterId) else [])),
      soundcard := if spec.HighPerformance() then Some(false) else None,
      serialConsole := if spec.HighPerformance() then Some(true) else None)
  }

  // create passes cores, sockets, threads to a setter that takes cores,
  // threads, sockets.
  function SentTopology(cpu: CPU): Topology {
    Topology(cores := ToUint64(cpu.cores), threads := ToUint64(cpu.sockets), sockets := ToUint64(cpu.threads))
  }

  function DeclaredTopology(cpu: CPU): Topology {
    Topology(cores := ToUint64(cpu.cores), threads := ToUint64(cpu.threads), sockets := ToUint64(cpu.sockets))
  }

  function MiB(n: int32): (bytes: int64)
    ensures bytes == 1048576 * n
    ensures -0x8_0000_0000_0000 <= bytes < 0x8_0000_0000_0000
  {
    WrapInt64Exact(BYTES_IN_MB * n);
    MulInt64(BYTES_IN_MB, n)
  }

  // Filling in the parameters panics on exactly these specs, whatever the template.
  predicate SpecPanics(spec: ProviderSpec) {
    || (spec.vmType != "" && !ValidVMType(spec.vmType))
    || CPUPanics(spec)
    || (spec.hugepages > 0 && !ValidHugePages(spec.hugepages))
  }

  predicate CPUPanics(spec: ProviderSpec) {
    spec.instanceTypeId == "" && spec.cpu.Some? &&
    (spec.cpu.value.cores == 0 || spec.cpu.value.sockets == 0 || spec.cpu.value.threads == 0)
  }

  // And on exactly these, given the disks of the template.
  predicate DisksPanic(spec: ProviderSpec, disks: seq<DiskAttachment>) {
    || (spec.format != "" && !ValidFormat(spec.format) && disks != [])
    || (spec.storageDomainId != "" && disks == [])
  }

  /* ---- The stages of the builder ---- */

  function Initial(ignition: string, machineName: string): ParamValues {
    ParamValues(ignition, machineName, None, None, None, None, None, None, None, [], None, None, None)
  }

  function Sized(p: ParamValues, spec: ProviderSpec): ParamValues {
    var sized := spec.instanceTypeId == "";
    p.(vmType := if spec.vmType != "" then Some(spec.vmType) else p.vmType,
       instanceTypeID := if sized then p.instanceTypeID else Some(spec.instanceTypeId),
       cpu := if sized && spec.cpu.Some? then Some(CPUParams(Some(SentTopology(spec.cpu.value)), None)) else p.cpu,
       memory := if sized && spec.memoryMB > 0 then Some(MiB(spec.memoryMB)) else p.memory,
       memoryPolicy :=
         if sized && spec.guaranteedMemoryMB > 0 then Some(MemoryPolicy(Some(MiB(spec.guaranteedMemoryMB)), None))
         else p.memoryPolicy)
  }

  function WithHugePages(p: ParamValues, spec: ProviderSpec): ParamValues {
    if spec.hugepages > 0 then p.(hugePages := Some(spec.hugepages)) else p
  }

  function Overridden(p: ParamValues, spec: ProviderSpec, disks: seq<DiskAttachment>): ParamValues {
    if spec.sparse.Some? || spec.format != "" then p.(disks := OverriddenDisks(spec, disks)) else p
  }

  function Relocated(p: ParamValues, spec: ProviderSpec, disks: seq<DiskAttachment>): ParamValues {
    if spec.storageDomainId != "" && disks != [] then
      p.(disks := [DiskParams(disks[0].diskID, None, None, Some(spec.storageDomainId))])
    else p
  }

  function Tuned(p: ParamValues, spec: ProviderSpec, hostIDs: seq<string>): ParamValues {
    var hp := spec.HighPerformance();
    p.(soundcard := if hp then Some(false) else p.soundcard,
       serialConsole := if hp then Some(true) else p.serialConsole,
       cpu := if hp then Some(CPUParams(None, Some("host_passthrough"))) else p.cpu,
       memoryPolicy := if hp then Some(MemoryPolicy(None, Some(false))) else p.memoryPolicy,
       placement := Some(PlacementPolicy(Some(if hp then "user_migratable" else "migratable"), hostIDs)))
  }

  predicate FormatOk(spec: ProviderSpec, disks: seq<DiskAttachment>) {
    spec.format == "" || ValidFormat(spec.format) || disks == []
  }

  function ClonesDisks(spec: ProviderSpec): bool {
    if spec.clone.Some? then spec.clone.value else spec.vmType != "desktop"
  }

  // The settings in the order in which create makes them, the later ones
  // replacing the earlier, amount to the field-by-field description.
  lemma SettingsAddUp(spec: ProviderSpec, ignition: string, name: string, hosts: seq<Host>, disks: seq<DiskAttachment>)
    ensures var hostIDs := if spec.AutoPinning() then HostsIn(hosts, spec.clusterId) else [];
            Tuned(Relocated(Overridden(WithHugePages(Sized(Initial(ignition, name), spec), spec), spec, disks)
                              .(clone := Some(ClonesDisks(spec))), spec, disks), spec, hostIDs)
            == ExpectedParams(spec, ignition, name, hosts, disks)
  {
    hide MiB, SentTopology, OverriddenDisks, HostsIn, ClonesDisks;
  }

  /* ---- Consequences ---- */

  lemma {:induction false} HostsInExactly(hosts: seq<Host>, cluster: string, h: string)
    ensures h in HostsIn(hosts, cluster) <==> exists i :: 0 <= i < |hosts| && hosts[i] == Host(h, cluster)
  {
    if hosts != [] {
      HostsInExactly(hosts[1..], cluster, h);
      if i :| 0 <= i < |hosts| && hosts[i] == Host(h, cluster) {
        assert i > 0 ==> hosts[1..][i - 1] == Host(h, cluster);
      }
      if i :| 0 <= i < |hosts[1..]| && hosts[1..][i] == Host(h, cluster) {
        assert hosts[i + 1] == Host(h, cluster);
      }
    }
  }

  lemma {:induction false} HostsInAppend(a: seq<Host>, h: Host, cluster: string)
    ensures HostsIn(a + [h], cluster) == HostsIn(a, cluster) + (if h.clusterID == cluster then [h.id] else [])
  {
    if a != [] {
      assert (a + [h])[1..] == a[1..] + [h];
      HostsInAppend(a[1..], h, cluster);
    }
  }

  // The engine gets the topology the spec declares only when the VM is not high
  // performance and sockets and threads happen to be equal.
  lemma TopologySentExactly(spec: ProviderSpec, ignition: string, name: string,
                            hosts: seq<Host>, disks: seq<DiskAttachment>)
    requires spec.instanceTypeId == "" && spec.cpu.Some?
    ensures var p := ExpectedParams(spec, ignition, name, hosts, disks);
            p.cpu == Some(CPUParams(Some(DeclaredTopology(spec.cpu.value)), None))
            <==> spec.vmType != "high_performance" && spec.cpu.value.sockets == spec.cpu.value.threads
  {
  }

  // Hosts are named only for a policy other than none, and then all of the
  // machine's cluster.
  lemma PlacementExactly(spec: ProviderSpec, ignition: string, name: string,
                         hosts: seq<Host>, disks: seq<DiskAttachment>, h: string)
    ensures var p := ExpectedParams(spec, ignition, name, hosts, disks);
            p.placement.Some? &&
            (h in p.placement.value.hostIDs <==>
               spec.autoPinningPolicy !in {"", "none"} && Host(h, spec.clusterId) in hosts)
  {
    HostsInExactly(hosts, spec.clusterId, h);
  }

  // What distinguishes a high performance VM.
  lemma PerformanceExactly(spec: ProviderSpec, ignition: string, name: string,
                           hosts: seq<Host>, disks: seq<DiskAttachment>)
    ensures var p := ExpectedParams(spec, ignition, name, hosts, disks);
            var fast := spec.vmType == "high_performance";
            && (p.placement.value.affinity == Some("user_migratable") <==> fast)
            && (p.placement.value.affinity == Some("migratable") <==> !fast)
            && (p.soundcard == Some(false) <==> fast) && (p.soundcard == None <==> !fast)
            && (p.serialConsole == Some(true) <==> fast) && (p.serialConsole == None <==> !fast)
            && (p.cpu.Some? && p.cpu.value.mode == Some("host_passthrough") <==> fast)
            && (p.memoryPolicy.Some? && p.memoryPolicy.value.ballooning == Some(false) <==> fast)
  {
  }

  // The disks are cloned unless the spec says no, or says nothing of a desktop.
  lemma ClonedExactly(spec: ProviderSpec, ignition: string, name: string,
                      hosts: seq<Host>, disks: seq<DiskAttachment>)
    ensures var p := ExpectedParams(spec, ignition, name, hosts, disks);
            && p.clone in {Some(true), Some(false)}
            && (p.clone == Some(false) <==>
                  spec.clone == Some(false) || (spec.clone == None && spec.vmType == "desktop"))
  {
  }

  // The guaranteed memory of the spec reaches the engine only when no later
  // setting replaces the memory policy that carried it.
  lemma GuaranteedSentExactly(spec: ProviderSpec, ignition: string, name: string,
                              hosts: seq<Host>, disks: seq<DiskAttachment>)
    requires spec.guaranteedMemoryMB > 0
    ensures var p := ExpectedParams(spec, ignition, name, hosts, disks);
            (p.memoryPolicy.Some? && p.memoryPolicy.value.guaranteed == Some(1048576 * spec.guaranteedMemoryMB))
            <==> spec.vmType != "high_performance" && spec.instanceTypeId == ""
  {
  }

  // Sparse and format settings reach every template disk unless a storage
  // domain is set as well.
  lemma DiskOverridesSentExactly(spec: ProviderSpec, disks: seq<DiskAttachment>)
    requires spec.sparse.Some? || spec.format != ""
    requires disks != []
    ensures (|ExpectedDisks(spec, disks)| == |disks| &&
             forall i :: 0 <= i < |disks| ==>
               var d := ExpectedDisks(spec, disks)[i];
               d.diskID == disks[i].diskID && d.sparse == spec.sparse &&
               d.format == (if spec.format != "" then Some(spec.format) else None))
            <==> spec.storageDomainId == ""
  {
  }
}
