/** What the engine knows about templates, and the pieces a VM is made of. */
module Templates {

  datatype Nic = Nic(id: nat, name: string, profile: string)

  datatype DiskAttachment = DiskAttachment(diskID: string, bootable: bool, provisionedSize: nat)

  datatype Host = Host(id: string, clusterID: string)

  datatype Template = Template(
    id: string,
    disks: seq<DiskAttachment>,
    nics: seq<Nic>,
    consoles: seq<nat>
  )

  ghost predicate DistinctNics(nics: seq<Nic>) {
    forall i, j :: 0 <= i < j < |nics| ==> nics[i].id != nics[j].id
  }

  ghost predicate DistinctDisks(disks: seq<DiskAttachment>) {
    forall i, j :: 0 <= i < j < |disks| ==> disks[i].diskID != disks[j].diskID
  }

  ghost predicate DistinctIds(ids: seq<nat>) {
    forall i, j :: 0 <= i < j < |ids| ==> ids[i] != ids[j]
  }

  // The engine identifies every device of one template uniquely.
  ghost predicate WellFormed(t: Template) {
    DistinctNics(t.nics) && DistinctDisks(t.disks) && DistinctIds(t.consoles)
  }
}
