/** The `vms` table and the `vm_drives_map` join table, and the operations
    on them: list, look up by id, insert a normalized request, update a
    record with a changeset, attach a drive, delete everything. */
module VmTables {
  import opened Common
  import opened NetworkModes
  import opened Vms
  import ModelErrors

  /** A row of `vm_drives_map`: one drive attached to one VM. */
  datatype AttachedDrive = AttachedDrive(vmId: Uuid, driveId: Uuid)

  /** No two rows share a primary key. */
  predicate UniqueIds(rows: seq<Vm>) {
    forall i, j :: 0 <= i < j < |rows| ==> rows[i].id != rows[j].id
  }

  /** The row whose primary key is `id`, if there is one. */
  function Find(rows: seq<Vm>, id: Uuid): (r: Option<Vm>)
    ensures r.Some? ==> r.value in rows && r.value.id == id
    ensures r.None? <==> forall v :: v in rows ==> v.id != id
  {
    if rows == [] then None
    else if rows[0].id == id then Some(rows[0])
    else Find(rows[1..], id)
  }

  /** With unique keys, looking a row up by its own key finds exactly it. */
  lemma FindOwnKey(rows: seq<Vm>, v: Vm)
    requires UniqueIds(rows) && v in rows
    ensures Find(rows, v.id) == Some(v)
  {
  }

  /** `rows` with the row keyed `vm.id` replaced by `vm`; every other row,
      and their positions, are kept. */
  function Replace(rows: seq<Vm>, vm: Vm): (r: seq<Vm>)
    ensures |r| == |rows|
    ensures forall i :: 0 <= i < |rows| ==> r[i].id == rows[i].id
    ensures forall i :: 0 <= i < |rows| && rows[i].id != vm.id ==> r[i] == rows[i]
    ensures forall i :: 0 <= i < |rows| && rows[i].id == vm.id ==> r[i] == vm
  {
    seq(|rows|, i requires 0 <= i < |rows| => if rows[i].id == vm.id then vm else rows[i])
  }

  /** After replacing an existing row, looking up its key yields the new row. */
  lemma FindReplaced(rows: seq<Vm>, vm: Vm)
    requires UniqueIds(rows) && Find(rows, vm.id).Some?
    ensures UniqueIds(Replace(rows, vm))
    ensures Find(Replace(rows, vm), vm.id) == Some(vm)
  {
  }

  /** A row appended under a key not yet used keeps the keys unique and is
      what a lookup of that key finds; lookups of other keys are unaffected. */
  lemma FindAppended(rows: seq<Vm>, vm: Vm, other: Uuid)
    requires UniqueIds(rows) && Find(rows, vm.id).None?
    ensures UniqueIds(rows + [vm])
    ensures Find(rows + [vm], vm.id) == Some(vm)
    ensures other != vm.id ==> Find(rows + [vm], other) == Find(rows, other)
  {
    if other != vm.id {
      FindAppendedOther(rows, vm, other);
    }
  }

  /** Appending a row does not change what a lookup of any other key finds. */
  lemma {:induction false} FindAppendedOther(rows: seq<Vm>, vm: Vm, other: Uuid)
    requires other != vm.id
    ensures Find(rows + [vm], other) == Find(rows, other)
  {
    if rows != [] {
      assert (rows + [vm])[1..] == rows[1..] + [vm];
      FindAppendedOther(rows[1..], vm, other);
    }
  }

  /** The row an update leaves behind: the changeset `vm` sets every column,
      except that an optional column whose new value is `None` is skipped
      and keeps its stored value. */
  function Merge(stored: Vm, vm: Vm): (r: Vm)
    ensures r.id == vm.id && r.name == vm.name && r.status == vm.status
    ensures r.vcpu == vm.vcpu && r.memory == vm.memory
    ensures r.kernelParams == vm.kernelParams && r.kernel == vm.kernel
    ensures r.hostId == (if vm.hostId.Some? then vm.hostId else stored.hostId)
    ensures r.address == (if vm.address.Some? then vm.address else stored.address)
    ensures r.networkMode == (if vm.networkMode.Some? then vm.networkMode else stored.networkMode)
  {
    vm.(hostId := if vm.hostId.Some? then vm.hostId else stored.hostId,
        address := if vm.address.Some? then vm.address else stored.address,
        networkMode := if vm.networkMode.Some? then vm.networkMode else stored.networkMode)
  }

  /** A record with every optional column set overwrites the stored row
      completely; and applying the same update twice changes nothing more. */
  lemma MergeProperties(stored: Vm, vm: Vm)
    ensures vm.hostId.Some? && vm.address.Some? && vm.networkMode.Some? ==> Merge(stored, vm) == vm
    ensures Merge(Merge(stored, vm), vm) == Merge(stored, vm)
    ensures Merge(stored, stored) == stored
  {
  }

  /** The two tables of the database the VM operations act on. Each method
      is one statement against the store, which applies it atomically. */
  class Tables {
    /** The `vms` table; the order of the sequence is the model's (appends
        go last, updates stay in place). */
    var vms: seq<Vm>
    /** The `vm_drives_map` table. */
    var vmDrivesMap: set<AttachedDrive>

    /** The primary key of `vms` is unique. */
    ghost predicate Valid()
      reads this
    {
      UniqueIds(vms)
    }

    constructor ()
      ensures Valid() && vms == [] && vmDrivesMap == {}
    {
      vms := [];
      vmDrivesMap := {};
    }

    /** Every row of `vms`; empty, not an error, when the
        table has none. */
    method All() returns (r: Result<seq<Vm>, ModelErrors.Error>)
      requires Valid()
      ensures r.Ok? && r.value == vms
      ensures UniqueIds(r.value)
    {
      r := Ok(vms);
    }

    /** The VM stored under `id`, or NotFound for that entity and id. */
    method ById(id: Uuid) returns (r: Result<Vm, ModelErrors.Error>)
      requires Valid()
      ensures r.Ok? <==> exists v :: v in vms && v.id == id
      ensures r.Ok? ==> r.value in vms && r.value.id == id
      ensures r.Err? ==> r.error == ModelErrors.NotFound(ModelErrors.EntityType.Vm, id)
    {
      match Find(vms, id)
      case Some(v) =>
        r := Ok(v);
      case None =>
        r := Err(ModelErrors.NotFound(ModelErrors.EntityType.Vm, id));
    }

    /** Normalizes `nv` under the generated identifier `id` and appends the
        record to `vms`, returning its id. A request normalization rejects and
        a key already in use both leave the tables as they were. */
    method Insert(nv: NewVm, id: Uuid) returns (r: Result<Uuid, ModelErrors.Error>)
      requires Valid()
      modifies this
      ensures Valid() && vmDrivesMap == old(vmDrivesMap)
      ensures Normalize(nv, id).Err? ==>
                r == Err(ModelErrors.InvalidRequest(Normalize(nv, id).error)) && vms == old(vms)
      ensures Normalize(nv, id).Ok? && Find(old(vms), id).Some? ==>
                r == Err(ModelErrors.Database(ModelErrors.UniqueViolation)) && vms == old(vms)
      ensures Normalize(nv, id).Ok? && Find(old(vms), id).None? ==>
                r == Ok(id) && vms == old(vms) + [Normalize(nv, id).value]
      // what a later lookup of the returned id yields: the normalized request
      ensures r.Ok? ==> Find(vms, r.value) == Some(Normalize(nv, id).value)
      ensures r.Ok? ==> forall other :: other != id ==> Find(vms, other) == Find(old(vms), other)
    {
      var normalized := Normalize(nv, id);
      if normalized.Err? {
        r := Err(ModelErrors.InvalidRequest(normalized.error));
        return;
      }
      var v := normalized.value;
      if Find(vms, v.id).Some? {
        r := Err(ModelErrors.Database(ModelErrors.UniqueViolation));
        return;
      }
      forall other | other != id
        ensures Find(vms + [v], other) == Find(vms, other)
      {
        FindAppended(vms, v, other);
      }
      FindAppended(vms, v, id);
      vms := vms + [v];
      r := Ok(v.id);
    }

    /** Writes `vm` as a changeset onto the row whose key is `vm.id` and
        returns the row as stored afterwards: every column takes `vm`'s
        value, except that `hostId`, `address` and `networkMode` keep their
        stored value where `vm` has `None`. When no row has that key nothing
        changes and the database reports that no record was found. */
    method Update(vm: Vm) returns (r: Result<Vm, ModelErrors.Error>)
      requires Valid()
      modifies this
      ensures Valid() && vmDrivesMap == old(vmDrivesMap)
      ensures r.Ok? <==> Find(old(vms), vm.id).Some?
      ensures r.Ok? ==>
                r.value == Merge(Find(old(vms), vm.id).value, vm) &&
                vms == Replace(old(vms), r.value)
      ensures r.Ok? ==> Find(vms, vm.id) == Some(r.value)
      ensures r.Err? ==> r.error == ModelErrors.Database(ModelErrors.RecordNotFound) && vms == old(vms)
    {
      var stored := Find(vms, vm.id);
      if stored.None? {
        r := Err(ModelErrors.Database(ModelErrors.RecordNotFound));
        return;
      }
      var merged := Merge(stored.value, vm);
      FindReplaced(vms, merged);
      vms := Replace(vms, merged);
      r := Ok(merged);
    }

    /** Records that drive `driveId` is attached to VM `vmId`. */
    method AttachDrive(vmId: Uuid, driveId: Uuid)
      requires Valid()
      modifies this
      ensures Valid() && vms == old(vms)
      ensures vmDrivesMap == old(vmDrivesMap) + {AttachedDrive(vmId, driveId)}
    {
      vmDrivesMap := vmDrivesMap + {AttachedDrive(vmId, driveId)};
    }

    /** Deletes every row of `vms` and returns how many there were. */
    method DeleteAll() returns (deleted: nat)
      requires Valid()
      modifies this
      ensures Valid() && vms == [] && vmDrivesMap == old(vmDrivesMap)
      ensures deleted == |old(vms)|
    {
      deleted := |vms|;
      vms := [];
    }
  }

  /** The create-then-fetch sequences the VM endpoints go through: an empty
      listing, one create per network configuration, the fetched record, and
      the teardown. */
  method CreateAndFetch(kernel: Uuid, id: Uuid)
  {
    var db := new Tables();
    var all := db.All();
    assert all == Ok([]);

    // no network configuration, no kernel parameters
    var request := NewVm("vm1", 1, 128, kernel, None, None, None);
    var created := db.Insert(request, id);
    assert created == Ok(id);
    all := db.All();
    assert |all.value| == 1;
    var fetched := db.ById(id);
    assert fetched.Ok? && fetched.value.networkMode == None && fetched.value.address == Some("");
    assert fetched.value.kernelParams == "console=ttyS0 reboot=k panic=1 pci=off";
    var deleted := db.DeleteAll();
    assert deleted == 1;

    // DHCP: the record keeps the mode name and an empty address
    request := NewVm("vm1", 1, 128, kernel, Some(Dhcp), Some("10.0.0.1"), None);
    created := db.Insert(request, id);
    fetched := db.ById(id);
    assert fetched.Ok? && fetched.value.networkMode == Some("dhcp") && fetched.value.address == Some("");
    deleted := db.DeleteAll();

    // static IP with custom kernel parameters
    request := NewVm("vm1", 1, 128, kernel, Some(StaticIp), Some("192.168.122.100"), Some("ip=1.1.1.1"));
    created := db.Insert(request, id);
    fetched := db.ById(id);
    assert fetched.Ok? && fetched.value.networkMode == Some("static_ip");
    assert fetched.value.address == Some("192.168.122.100");
    assert fetched.value.kernelParams == "ip=1.1.1.1";

    // an update whose address is None renames the VM and keeps the stored address
    var updated := db.Update(fetched.value.(name := "vm3", address := None));
    assert updated.Ok? && updated.value.name == "vm3";
    assert updated.value.address == Some("192.168.122.100");

    // a static-IP request without an address is refused and stores nothing
    var refused := db.Insert(NewVm("vm2", 1, 128, kernel, Some(StaticIp), None, None), id);
    assert refused.Err?;
    all := db.All();
    assert |all.value| == 1;
  }
}
