# VM records, network modes and the VM tables

A Dafny model of the VM model layer of a virtual-machine management API
(`src/models/vm.rs`). It covers three things:

- **Network mode codec.** `NetworkMode` has two variants, `Dhcp` and `StaticIp`. Their canonical names are `"dhcp"` and `"static_ip"`. The parser accepts only these two strings.
- **VM normalization.** A creation request (`NewVm`) becomes the record stored in the `vms` table (`Vm`):
  - the network mode and address are resolved;
  - kernel parameters get their default when missing;
  - status starts at 0, with no host;
  - name, vcpu, memory and kernel are copied.
- **The VM tables.** The `vms` table and the `vm_drives_map` join table live in a class. The `vms` table is a sequence of rows in an order the model fixes, and `vm_drives_map` is a set of pairs. Its methods list the VMs, look one up by id, insert a normalized request, update a record with a changeset, attach a drive and delete every VM.

Modules, one per file:

- `common.dfy`: `Common`. Holds `Option`, `Result`, the 128-bit `Uuid` and the 32-bit `Int32`.
- `network_mode.dfy`: `NetworkModes`. Holds `AsStr`, `FromStr` and their round trips.
- `vm.dfy`: `Vms`. Holds the `Vm` and `NewVm` records, the default kernel command line, the `WellFormed` shape of a fresh record and `Normalize`.
- `model_errors.dfy`: `ModelErrors`. Holds the errors the table operations report. `ModelError` and `EntityType` come from the parent module `models`, which is not part of this model. Only the variants `vm.rs` uses appear here.
- `vm_tables.dfy`: `VmTables`. Holds the lookup function `Find` and its lemmas, and the class `Tables` with the table operations. It ends with `CreateAndFetch`, a client that replays the create-then-fetch sequences of the VM endpoints against the contracts.

Two behaviours of the code worth stating on their own:

- **Empty kernel parameters.** An empty kernel-parameter string is kept verbatim (`src/models/vm.rs:131-134`), not replaced by the default. `Vms.EmptyKernelParamsKept` states it.
- **Empty static address.** A static-IP request whose address is the empty string is accepted, and the record stores `""` as its address (`src/models/vm.rs:124`). `Vms.EmptyStaticAddressKept` states it. For this reason `Vms.WellFormed` does not require a static address to be non-empty.

## Model

| member | source | states |
|---|---|---|
| `NetworkModes.AsStr` | src/models/vm.rs:46-53 | each mode's name is `"dhcp"` or `"static_ip"`, and parsing the name gives the mode back |
| `NetworkModes.FromStr` | src/models/vm.rs:55-64 | a string parses iff it is exactly `"dhcp"` or `"static_ip"`; `"dhcp"` gives `Dhcp`, `"static_ip"` gives `StaticIp`; every other string gives `Err(())` |
| `NetworkModes.FromStrThenAsStr` | src/models/vm.rs:47-63 | a string that parses is the name of the mode it parses to |
| `NetworkModes.AsStrInjective` | src/models/vm.rs:47-52 | the two modes have distinct names |
| `Vms.Normalize` | src/models/vm.rs:117-148 | fails iff the request asks for a static IP without an address (the `unwrap` at line 124); otherwise gives a well-formed record with the given id, status 0 and no host, with name, vcpu, memory and kernel copied; the stored mode is present iff requested and parses back to the requested mode; the address is the request's for static IP and `""` otherwise; kernel parameters are the request's when given and the line-9 default when not |
| `Vms.AddressIgnoredUnlessStaticIp` | src/models/vm.rs:120-129 | for a request without mode or with DHCP, the address sent has no effect on the record |
| `Vms.NormalizeDeterministic` | src/models/vm.rs:136-147 | the generated id is the only part of the record the request does not determine |
| `Vms.EmptyKernelParamsKept` | src/models/vm.rs:131-134 | an empty kernel-parameter string is stored as `""`, not replaced by the default |
| `Vms.EmptyStaticAddressKept` | src/models/vm.rs:124 | a static-IP request with an empty address is accepted and stores `"static_ip"` with address `""` |
| `VmTables.Find` | src/models/vm.rs:75 | a lookup by primary key returns a row of the table with that key, and returns none iff no row has it |
| `VmTables.FindOwnKey` | src/models/vm.rs:72-79 | with unique keys, looking a row up by its own key finds exactly that row |
| `VmTables.Replace` | src/models/vm.rs:90-95 | the table has the same length and keys; the row keyed `vm.id` becomes `vm` and every other row is unchanged |
| `VmTables.Merge` | src/models/vm.rs:11-24 | what an update (line 91) leaves in a row: the primary key and every non-optional column come from the new record; `hostId`, `address` and `networkMode` come from it when it sets them and otherwise keep the stored value, so no stored optional column is cleared by an update |
| `VmTables.MergeProperties` | src/models/vm.rs:11-24 | the changeset derived for `Vm` skips `None` optional columns: a record with every optional column set overwrites the stored row completely, applying the same update twice changes nothing more, and writing a row onto itself changes nothing |
| `VmTables.FindReplaced` | src/models/vm.rs:90-95 | replacing an existing row keeps keys unique, and a lookup of its key then yields the new row |
| `VmTables.FindAppended` | src/models/vm.rs:81-88 | appending a row under an unused key keeps keys unique; a lookup of that key then yields the row; lookups of other keys are unaffected |
| `VmTables.Tables.All` | src/models/vm.rs:67-70 | returns every row of the table (in the model's order), the empty sequence for an empty table, with unique keys |
| `VmTables.Tables.ById` | src/models/vm.rs:72-79 | succeeds iff a row has the id, with that row; otherwise fails with `NotFound(Vm, id)` |
| `VmTables.Tables.Insert` | src/models/vm.rs:81-88 | a rejected request reports `InvalidRequest`; an id already in use reports a unique violation; in both cases the table is unchanged; otherwise appends the normalized record and returns its id; afterwards a lookup of that id yields the normalized request and other lookups are unchanged; `vm_drives_map` is untouched |
| `VmTables.Tables.Update` | src/models/vm.rs:90-95 | succeeds iff a row has `vm.id`; then that row alone becomes `vm` written as a changeset onto it (`hostId`, `address` and `networkMode` keep their stored values where `vm` has `None`), and the method returns the row as stored, which a later lookup of the key yields; otherwise reports that no record was found and changes nothing |
| `VmTables.Tables.AttachDrive` | src/models/vm.rs:97-108 | adds the pair `(vmId, driveId)` to `vm_drives_map` and leaves `vms` unchanged |
| `VmTables.Tables.DeleteAll` | src/models/vm.rs:110-114 | empties `vms` and returns how many rows it held |

## Left out

- Identifier generation (`Uuid::new_v4`, `src/models/vm.rs:137`) is random. `Normalize` and `Insert` take the generated id as a parameter instead.
- `Vms.Normalize`: the source aborts the request (panics) on a static-IP request without an address. The model returns the error value `StaticIpWithoutAddress` instead, and `Insert` reports it as `InvalidRequest`.
- The database connection is abstracted away. Connection failures, serialization errors and every other storage failure are not modelled. The exceptions are a duplicate primary key on insert and a missing target row on update.
- `VmTables.Tables.ById`: the source turns every lookup error into `NotFound`, connection failures included. The model produces `NotFound` only for a missing row. The underlying cause carried by `NotFound` is dropped.
- `VmTables.Tables.AttachDrive`: never fails in the model. The source's failures come from constraints in a schema that is not part of this model: duplicate pairs and foreign keys to VMs and drives. The model therefore makes no claim about what a duplicate attach does in the database.
- `VmTables.Tables.DeleteAll`: leaves `vm_drives_map` unchanged. Whether the database cascades the delete or rejects it depends on the schema, which is not part of this model.
- `VmTables.Tables.Insert`: does not check that the kernel id refers to an existing kernel. That foreign key lives in the schema.
- `src/controllers/vms.rs` is not part of this model. This covers HTTP routing, the JSON envelopes, status codes, the start/stop pass-throughs and the drive listing via the drive service. Its tests are mirrored only by `VmTables.CreateAndFetch`.
- JSON (de)serialization of `NetworkMode` through serde attributes is not modelled. The attributes use the same names as `AsStr`.
- `VmTables.Tables.All`: the source's query (`src/models/vm.rs:69`) has no ordering, so the database guarantees no row order, and an updated row may move. The sequence order that `All` returns is the model's own: appends go last and updates stay in place. Only the set of rows returned is what the source promises.
- `VmTables.Tables.Insert`: the record is inserted with `host_id = None` and, without a mode, `network_mode = None`. The database writes `DEFAULT` for a `None` column, and the column defaults live in the schema, which is not part of this model. The model takes those defaults to be NULL, so the stored row is exactly the normalized record.
- The `usize` row count of `delete_all` is modelled as an unbounded `nat`.
