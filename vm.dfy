/** VM records and the normalization that turns a creation request into the
    record the `vms` table stores. */
module Vms {
  import opened Common
  import opened NetworkModes

  /** The kernel command line a VM boots with when its request names none. */
  const DefaultKernelParams: string := "console=ttyS0 reboot=k panic=1 pci=off"

  /** A row of the `vms` table. */
  datatype Vm = Vm(
    id: Uuid,
    name: string,
    status: Int32,
    hostId: Option<Uuid>,
    vcpu: Int32,
    memory: Int32,
    address: Option<string>,
    networkMode: Option<string>,
    kernelParams: string,
    kernel: Uuid)

  /** A creation request, as the JSON body of a create call decodes to. */
  datatype NewVm = NewVm(
    name: string,
    vcpu: Int32,
    memory: Int32,
    kernel: Uuid,
    networkMode: Option<NetworkMode>,
    address: Option<string>,
    kernelParams: Option<string>)

  /** Why a request cannot be normalized: a static-IP request that carries
      no address (the one input on which the conversion aborts). */
  datatype NormalizeError = StaticIpWithoutAddress

  /** The shape every freshly normalized record has: an address is always
      present; a stored network mode is a canonical mode name; and unless
      that mode is static IP the address is the empty string. */
  predicate WellFormed(vm: Vm) {
    vm.address.Some? &&
    match vm.networkMode
    case None => vm.address == Some("")
    case Some(s) => FromStr(s).Ok? && (FromStr(s).value == Dhcp ==> vm.address == Some(""))
  }

  /** Builds the record to persist from a creation request and the
      identifier generated for it. */
  function Normalize(nv: NewVm, id: Uuid): (r: Result<Vm, NormalizeError>)
    // fails exactly on a static-IP request without an address
    ensures r.Err? <==> nv.networkMode == Some(StaticIp) && nv.address.None?
    ensures r.Ok? ==> WellFormed(r.value)
    // a new VM is unstarted, unplaced, and keeps the request's sizing and kernel
    ensures r.Ok? ==> r.value.id == id && r.value.status == 0 && r.value.hostId == None
    ensures r.Ok? ==>
              r.value.name == nv.name && r.value.vcpu == nv.vcpu &&
              r.value.memory == nv.memory && r.value.kernel == nv.kernel
    // the stored mode is present iff requested, and parses back to the requested mode
    ensures r.Ok? ==> (r.value.networkMode.Some? <==> nv.networkMode.Some?)
    ensures r.Ok? && nv.networkMode.Some? ==>
              r.value.networkMode.Some? && FromStr(r.value.networkMode.value) == Ok(nv.networkMode.value)
    // only a static-IP request keeps its address; every other request's address is dropped
    ensures r.Ok? && nv.networkMode == Some(StaticIp) ==> r.value.address == nv.address
    ensures r.Ok? && nv.networkMode != Some(StaticIp) ==> r.value.address == Some("")
    // kernel parameters are kept verbatim when given (even empty) and defaulted otherwise
    ensures r.Ok? && nv.kernelParams.Some? ==> r.value.kernelParams == nv.kernelParams.value
    ensures r.Ok? && nv.kernelParams.None? ==> r.value.kernelParams == DefaultKernelParams
  {
    var resolved: Result<(Option<string>, string), NormalizeError> :=
      match nv.networkMode
      case Some(n) =>
        (match n
         case Dhcp => Ok((Some(AsStr(n)), ""))
         case StaticIp =>
           if nv.address.Some? then Ok((Some(AsStr(n)), nv.address.value))
           else Err(StaticIpWithoutAddress))
      case None => Ok((None, ""));
    if resolved.Err? then Err(resolved.error)
    else
      var kernelParams := match nv.kernelParams
        case Some(kp) => kp
        case None => DefaultKernelParams;
      Ok(Vm(
        id := id,
        name := nv.name,
        status := 0,
        hostId := None,
        vcpu := nv.vcpu,
        memory := nv.memory,
        address := Some(resolved.value.1),
        networkMode := resolved.value.0,
        kernelParams := kernelParams,
        kernel := nv.kernel))
  }

  /** Two requests that differ only in their address normalize to the same
      record unless they ask for a static IP. */
  lemma AddressIgnoredUnlessStaticIp(nv1: NewVm, nv2: NewVm, id: Uuid)
    requires nv1.(address := None) == nv2.(address := None)
    requires nv1.networkMode != Some(StaticIp)
    ensures Normalize(nv1, id) == Normalize(nv2, id)
  {
  }

  /** The identifier is the only part of the record the request does not
      determine: normalizing one request under two identifiers gives records
      that differ in the identifier alone. */
  lemma NormalizeDeterministic(nv: NewVm, id1: Uuid, id2: Uuid)
    ensures Normalize(nv, id1).Ok? == Normalize(nv, id2).Ok?
    ensures Normalize(nv, id1).Ok? ==>
              Normalize(nv, id1).value.(id := id2) == Normalize(nv, id2).value
  {
  }

  /** An empty kernel-parameter string is a given value, not a missing one:
      it is stored as the empty string, not replaced by the default. */
  lemma EmptyKernelParamsKept(nv: NewVm, id: Uuid)
    requires nv.kernelParams == Some("")
    requires Normalize(nv, id).Ok?
    ensures Normalize(nv, id).value.kernelParams == ""
    ensures Normalize(nv, id).value.kernelParams != DefaultKernelParams
  {
  }

  /** A static-IP request with an empty address is accepted and stores the
      empty address: normalization does not reject it. */
  lemma EmptyStaticAddressKept(nv: NewVm, id: Uuid)
    requires nv.networkMode == Some(StaticIp) && nv.address == Some("")
    ensures Normalize(nv, id).Ok?
    ensures Normalize(nv, id).value.networkMode == Some("static_ip")
    ensures Normalize(nv, id).value.address == Some("")
  {
  }
}
