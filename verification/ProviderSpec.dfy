/** The provider spec a Machine carries, as a value. */
module ProviderSpecs {
  import opened Prelude

  datatype CPU = CPU(sockets: int32, cores: int32, threads: int32)

  datatype Disk = Disk(sizeGB: int64)

  datatype NetworkInterface = NetworkInterface(vnicProfileID: string)

  datatype LocalObjectReference = LocalObjectReference(name: string)

  // A nil pointer or slice is None.
  datatype ProviderSpec = ProviderSpec(
    typeMeta: string,
    objectMeta: Option<map<string, string>>,
    userDataSecret: Option<LocalObjectReference>,
    credentialsSecret: Option<LocalObjectReference>,
    id: string,
    name: string,
    templateName: string,
    clusterId: string,
    instanceTypeId: string,
    cpu: Option<CPU>,
    memoryMB: int32,
    osDisk: Option<Disk>,
    vmType: string,
    networkInterfaces: Option<seq<Option<NetworkInterface>>>,
    affinityGroupsNames: Option<seq<string>>,
    autoPinningPolicy: string,
    hugepages: int32,
    guaranteedMemoryMB: int32,
    clone: Option<bool>,
    sparse: Option<bool>,
    format: string,
    storageDomainId: string
  )
  {
    predicate HighPerformance() {
      vmType == "high_performance"
    }

    predicate AutoPinning() {
      autoPinningPolicy != "" && autoPinningPolicy != "none"
    }

    // Ranging over a nil slice is ranging over an empty one.
    function Interfaces(): seq<Option<NetworkInterface>> {
      if networkInterfaces.Some? then networkInterfaces.value else []
    }

    function AffinityGroups(): seq<string> {
      if affinityGroupsNames.Some? then affinityGroupsNames.value else []
    }
  }

  // What a scope without a provider spec holds; exists and delete never look at it.
  const NO_SPEC := ProviderSpec("", None, None, None, "", "", "", "", "", None, 0, None, "", None, None, "", 0, 0,
                                None, None, "", "")
}
