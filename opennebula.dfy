/** The OpenNebula cloud-provider plugin: how a machine is found among the
    platform's VMs, how its deletion is decided, and how a VM's identity,
    addresses and coarse status are reported.

    The OpenNebula SDK calls are inputs here: the result of listing the VM
    pool, a function giving the result of fetching one VM's full info by id,
    and a function giving the result of hard-terminating a VM by id. The
    resolution of the provider config (secrets, environment variables) is an
    input too; only the nil-value check in front of it is modelled. */
module OpenNebula {
  import opened Wrappers
  import opened KubeTypes
  import opened GoStrings

  /** The context key under which the machine's UID is stored at creation. */
  const MachineUidContextKey: string := "K8S_MACHINE_UID"

  /** The NIC attribute that holds the interface's address. */
  const NicIpKey: string := "IP"

  const ProviderIdPrefix: string := "opennebula://"

  /** The error substring by which the platform signals "no such object". */
  const NoExistsMarker: string := "NO_EXISTS"

  // ---------------------------------------------------------------------------
  // Data model
  // ---------------------------------------------------------------------------

  /** The top-level VM state. The states the provider names get their own
      constructor; every other state code, including the one reported for an
      unrecognised raw value, is `OtherState`. The `code` of an `OtherState`
      is never the code of a named state: a VM in the `Active` state is
      `Active`, not `OtherState` of Active's code. */
  datatype VmState = Init | Pending | Hold | Active | Done | OtherState(code: int)

  /** The life-cycle-manager sub-state, meaningful while the VM is `Active`.
      As with `OtherState`, the `code` of an `OtherLcmState` is never the code
      of a named sub-state. */
  datatype LcmState = LcmInit | Prolog | Boot | Epilog | OtherLcmState(code: int)

  /** `instance.Status`, the coarse status reported to the controller. */
  datatype InstanceStatus =
    | StatusCreating
    | StatusRunning
    | StatusDeleting
    | StatusDeleted
    | StatusUnknown

  /** One network interface of a VM template, as its attribute map. */
  datatype Nic = Nic(attributes: map<string, string>)

  /** A VM's full info, as fetched by id. */
  datatype Vm = Vm(
    id: int,
    name: string,
    state: VmState,
    lcmState: LcmState,
    context: map<string, string>,
    nics: seq<Nic>)

  /** A VM as listed in the pool: the listing carries no context map. */
  datatype PoolVm = PoolVm(id: int, name: string)

  /** The resolved provider configuration. Only used to open a client. */
  datatype OneConfig = OneConfig(
    username: string,
    password: string,
    endpoint: string,
    vcpu: Option<int>,
    memory: Option<int>,
    image: string,
    datastore: string,
    diskSize: Option<int>,
    network: string,
    enableVnc: bool)

  /** `ProviderSpec`: `value` is a pointer that may be nil. */
  datatype ProviderSpec = ProviderSpec(value: Option<RawExtension>)

  /** The parts of a machine object that the provider reads: `name` is the
      machine spec's name (`machine.Spec.Name`, the VM's display name), not
      the object's metadata name; `uid` is the object's UID. */
  datatype Machine = Machine(name: string, uid: string, providerSpec: ProviderSpec)

  /** Why a terminal error was raised; this provider only ever raises one. */
  datatype MachineErrorReason = InvalidConfigurationMachineError

  /** `TerminalError`: the controller must not retry. */
  datatype TerminalError = TerminalError(reason: MachineErrorReason, message: string)

  /** What `Get` reports: the instance, the `ErrInstanceNotFound` sentinel, or
      a terminal error. */
  datatype GetOutcome = Found(vm: Vm) | NotFound | Terminal(error: TerminalError)

  type VmInfo = int -> Result<Vm, string>

  function InvalidConfiguration(message: string): TerminalError {
    TerminalError(InvalidConfigurationMachineError, message)
  }

  // ---------------------------------------------------------------------------
  // Config
  // ---------------------------------------------------------------------------

  /** `getConfig`: a nil provider-spec value is rejected before anything is
      resolved; otherwise the outcome of resolving the fields stands. */
  function GetConfig(spec: ProviderSpec, resolved: Result<OneConfig, string>): (r: Result<OneConfig, string>)
    ensures r.Success? <==> spec.value.Some? && resolved.Success?
    ensures spec.value.Some? ==> r == resolved
    ensures spec.value.None? ==> r == Failure("machine.spec.providerconfig.value is nil")
  {
    if spec.value.None? then Failure("machine.spec.providerconfig.value is nil") else resolved
  }

  /** `Validate`: the config must resolve and the embedded cloud-provider spec
      must decode (`cloudSpecDecodeError` is the outcome of that decoding). */
  function Validate(spec: ProviderSpec, resolved: Result<OneConfig, string>, cloudSpecDecodeError: Option<string>): (r: Option<string>)
    ensures r.None? <==> spec.value.Some? && resolved.Success? && cloudSpecDecodeError.None?
    ensures GetConfig(spec, resolved).Failure? ==>
              r == Some("failed to parse config: " + GetConfig(spec, resolved).error)
    ensures GetConfig(spec, resolved).Success? ==> r == cloudSpecDecodeError
  {
    match GetConfig(spec, resolved)
    case Failure(e) => Some("failed to parse config: " + e)
    case Success(_) => cloudSpecDecodeError
  }

  // ---------------------------------------------------------------------------
  // Get: the two-phase lookup of a machine's VM
  // ---------------------------------------------------------------------------

  /** The machine UID recorded in a VM's context, if the key is there. */
  function ContextUid(vm: Vm): Option<string> {
    if MachineUidContextKey in vm.context then Some(vm.context[MachineUidContextKey]) else None
  }

  /** Phase one: the ids of the pool's VMs named `name`, in pool order. */
  function CandidateIds(pool: seq<PoolVm>, name: string): seq<int> {
    if pool == [] then []
    else (if pool[0].name == name then [pool[0].id] else []) + CandidateIds(pool[1..], name)
  }

  lemma {:induction false} CandidateIdsAppend(pool: seq<PoolVm>, e: PoolVm, name: string)
    ensures CandidateIds(pool + [e], name)
         == CandidateIds(pool, name) + (if e.name == name then [e.id] else [])
  {
    var last: seq<int> := if e.name == name then [e.id] else [];
    if pool == [] {
      assert [e][1..] == [];
      assert CandidateIds([e], name) == last + CandidateIds([], name);
    } else {
      var head: seq<int> := if pool[0].name == name then [pool[0].id] else [];
      assert (pool + [e])[0] == pool[0] && (pool + [e])[1..] == pool[1..] + [e];
      CandidateIdsAppend(pool[1..], e, name);
      assert CandidateIds(pool + [e], name) == head + (CandidateIds(pool[1..], name) + last);
      assert CandidateIds(pool, name) == head + CandidateIds(pool[1..], name);
    }
  }

  /** The terminal error for a provider config that does not resolve. */
  function ParseFailed(e: string): TerminalError {
    InvalidConfiguration("Failed to parse MachineSpec, due to " + e)
  }

  /** The terminal error for a VM pool that cannot be listed. */
  function ListFailed(e: string): TerminalError {
    InvalidConfiguration("failed to list virtual machines, due to " + e)
  }

  /** The terminal error for a VM whose info could not be fetched. */
  function FetchFailed(id: int, e: string): TerminalError {
    InvalidConfiguration("failed to get info for VM " + Itoa(id) + ", due to " + e)
  }

  /** Phase two: fetch each candidate in turn; a failed fetch ends the scan, a
      candidate without the UID key or with another UID is passed over. */
  function MatchCandidates(ids: seq<int>, uid: string, info: VmInfo): GetOutcome {
    if ids == [] then NotFound
    else match info(ids[0])
      case Failure(e) =>
        Terminal(FetchFailed(ids[0], e))
      case Success(vm) =>
        if ContextUid(vm) == Some(uid) then Found(vm) else MatchCandidates(ids[1..], uid, info)
  }

  /** One step of phase two, at position `j` of the candidate ids. */
  lemma MatchCandidatesStep(ids: seq<int>, j: nat, uid: string, info: VmInfo)
    requires j < |ids|
    ensures MatchCandidates(ids[j..], uid, info) ==
              match info(ids[j])
              case Failure(e) =>
                Terminal(FetchFailed(ids[j], e))
              case Success(vm) =>
                if ContextUid(vm) == Some(uid) then Found(vm) else MatchCandidates(ids[j + 1..], uid, info)
  {
    assert ids[j..][0] == ids[j] && ids[j..][1..] == ids[j + 1..];
  }

  /** The lookup over an already listed pool. */
  function FindMachine(pool: seq<PoolVm>, name: string, uid: string, info: VmInfo): GetOutcome {
    MatchCandidates(CandidateIds(pool, name), uid, info)
  }

  /** The whole of `Get`, including the failures before the lookup. */
  function GetSpec(machine: Machine, resolved: Result<OneConfig, string>,
                   pool: Result<seq<PoolVm>, string>, info: VmInfo): GetOutcome
  {
    match GetConfig(machine.providerSpec, resolved)
    case Failure(e) => Terminal(ParseFailed(e))
    case Success(_) =>
      match pool
      case Failure(e) => Terminal(ListFailed(e))
      case Success(vms) => FindMachine(vms, machine.name, machine.uid, info)
  }

  /** `provider.Get`: collect the ids of same-named VMs, then return the first
      whose context carries the machine's UID. */
  method Get(machine: Machine, resolved: Result<OneConfig, string>,
             pool: Result<seq<PoolVm>, string>, info: VmInfo) returns (r: GetOutcome)
    ensures r == GetSpec(machine, resolved, pool, info)
  {
    var config := GetConfig(machine.providerSpec, resolved);
    if config.Failure? {
      return Terminal(ParseFailed(config.error));
    }
    if pool.Failure? {
      return Terminal(ListFailed(pool.error));
    }
    var vms := pool.value;
    ghost var outcome := FindMachine(vms, machine.name, machine.uid, info);
    assert GetSpec(machine, resolved, pool, info) == outcome;

    var vmIds: seq<int> := [];
    var i := 0;
    while i < |vms|
      invariant 0 <= i <= |vms|
      invariant vmIds == CandidateIds(vms[..i], machine.name)
    {
      assert vms[..i + 1] == vms[..i] + [vms[i]];
      CandidateIdsAppend(vms[..i], vms[i], machine.name);
      if vms[i].name == machine.name {
        vmIds := vmIds + [vms[i].id];
      }
      i := i + 1;
    }
    assert vms[..i] == vms;
    assert MatchCandidates(vmIds, machine.uid, info) == outcome;

    var j := 0;
    while j < |vmIds|
      invariant 0 <= j <= |vmIds|
      invariant MatchCandidates(vmIds[j..], machine.uid, info) == outcome
    {
      var vmId := vmIds[j];
      MatchCandidatesStep(vmIds, j, machine.uid, info);
      var fetched := info(vmId);
      if fetched.Failure? {
        return Terminal(FetchFailed(vmId, fetched.error));
      }
      var vm := fetched.value;
      var uid := ContextUid(vm);
      // a VM without the UID key is passed over, not reported
      if uid.Some? && uid.value == machine.uid {
        return Found(vm);
      }
      j := j + 1;
    }
    return NotFound;
  }

  // What the lookup means, stated over the pool itself.

  /** The scan passes over `e`: another name, or a fetched VM without the UID. */
  predicate PassedOver(e: PoolVm, name: string, uid: string, info: VmInfo) {
    e.name != name || (info(e.id).Success? && ContextUid(info(e.id).value) != Some(uid))
  }

  /** `e` is named `name` and its fetched context carries `uid`. */
  predicate IsMachine(e: PoolVm, name: string, uid: string, info: VmInfo) {
    e.name == name && info(e.id).Success? && ContextUid(info(e.id).value) == Some(uid)
  }

  /** Every pool entry before index `k` is passed over. */
  predicate PassedOverBefore(pool: seq<PoolVm>, k: int, name: string, uid: string, info: VmInfo)
    requires k <= |pool|
  {
    forall j :: 0 <= j < k ==> PassedOver(pool[j], name, uid, info)
  }

  /** The index of the first pool entry the scan stops at, or `|pool|`. */
  function FirstStop(pool: seq<PoolVm>, name: string, uid: string, info: VmInfo): (k: nat)
    ensures k <= |pool| && PassedOverBefore(pool, k, name, uid, info)
    ensures k < |pool| ==> !PassedOver(pool[k], name, uid, info)
  {
    if pool == [] then 0
    else if !PassedOver(pool[0], name, uid, info) then 0
    else 1 + FirstStop(pool[1..], name, uid, info)
  }

  /** The verdict at the entry the scan stops at. */
  function StopVerdict(e: PoolVm, uid: string, info: VmInfo): GetOutcome {
    match info(e.id)
    case Failure(err) =>
      Terminal(FetchFailed(e.id, err))
    case Success(vm) => Found(vm)
  }

  /** The lookup is decided by the first entry it does not pass over. */
  lemma {:induction false} FindMachineStops(pool: seq<PoolVm>, name: string, uid: string, info: VmInfo)
    ensures var k := FirstStop(pool, name, uid, info);
            FindMachine(pool, name, uid, info)
              == if k == |pool| then NotFound else StopVerdict(pool[k], uid, info)
  {
    if pool != [] {
      var ids := CandidateIds(pool, name);
      var rest := pool[1..];
      FindMachineStops(rest, name, uid, info);
      if pool[0].name == name {
        assert ids == [pool[0].id] + CandidateIds(rest, name);
        assert ids[1..] == CandidateIds(rest, name);
        if PassedOver(pool[0], name, uid, info) {
          assert FindMachine(pool, name, uid, info) == FindMachine(rest, name, uid, info);
        }
      } else {
        assert ids == CandidateIds(rest, name);
      }
      var k := FirstStop(rest, name, uid, info);
      if PassedOver(pool[0], name, uid, info) && k < |rest| {
        assert pool[k + 1] == rest[k];
      }
    }
  }

  /** Two indices that both are the first stop are the same index. */
  lemma FirstStopUnique(pool: seq<PoolVm>, k: int, name: string, uid: string, info: VmInfo)
    requires 0 <= k < |pool| && PassedOverBefore(pool, k, name, uid, info)
    requires !PassedOver(pool[k], name, uid, info)
    ensures FirstStop(pool, name, uid, info) == k
  {
  }

  /** `Get` over a listed pool returns `vm` exactly when some entry is named
      like the machine, its fetched context carries the machine's UID, that
      fetch gave `vm`, and every earlier entry was passed over: the first
      match in pool order, never one after a failed fetch. */
  lemma FindMachineFoundIff(pool: seq<PoolVm>, name: string, uid: string, info: VmInfo, vm: Vm)
    ensures FindMachine(pool, name, uid, info) == Found(vm) <==>
            exists k :: 0 <= k < |pool| && PassedOverBefore(pool, k, name, uid, info)
                     && IsMachine(pool[k], name, uid, info) && info(pool[k].id) == Success(vm)
  {
    FindMachineStops(pool, name, uid, info);
    var f := FirstStop(pool, name, uid, info);
    if FindMachine(pool, name, uid, info) == Found(vm) {
      assert f < |pool| && IsMachine(pool[f], name, uid, info);
    }
    if k :| (0 <= k < |pool| && PassedOverBefore(pool, k, name, uid, info)
            && IsMachine(pool[k], name, uid, info) && info(pool[k].id) == Success(vm)) {
      FirstStopUnique(pool, k, name, uid, info);
    }
  }

  /** `Get` over a listed pool reports "not found" exactly when every entry is
      passed over: no same-named VM carries the UID and none failed to fetch,
      however many share the name. */
  lemma FindMachineNotFoundIff(pool: seq<PoolVm>, name: string, uid: string, info: VmInfo)
    ensures FindMachine(pool, name, uid, info) == NotFound <==>
            PassedOverBefore(pool, |pool|, name, uid, info)
  {
    FindMachineStops(pool, name, uid, info);
    var f := FirstStop(pool, name, uid, info);
    if f < |pool| {
      assert !PassedOver(pool[f], name, uid, info);
    }
  }

  /** `Get` over a listed pool ends in a terminal error exactly when a
      same-named VM fails to fetch before any match, whatever follows it. */
  lemma FindMachineTerminalIff(pool: seq<PoolVm>, name: string, uid: string, info: VmInfo)
    ensures FindMachine(pool, name, uid, info).Terminal? <==>
            exists k :: 0 <= k < |pool| && PassedOverBefore(pool, k, name, uid, info)
                     && pool[k].name == name && info(pool[k].id).Failure?
  {
    FindMachineStops(pool, name, uid, info);
    var f := FirstStop(pool, name, uid, info);
    if k :| (0 <= k < |pool| && PassedOverBefore(pool, k, name, uid, info)
            && pool[k].name == name && info(pool[k].id).Failure?) {
      FirstStopUnique(pool, k, name, uid, info);
    }
  }

  /** Once no VM of the machine's name is listed, `Get` reports "not found";
      this is what makes a repeated `Cleanup` succeed. */
  lemma GetAfterRemovalNotFound(machine: Machine, resolved: Result<OneConfig, string>,
                                vms: seq<PoolVm>, info: VmInfo)
    requires machine.providerSpec.value.Some? && resolved.Success?
    requires forall k :: 0 <= k < |vms| ==> vms[k].name != machine.name
    ensures GetSpec(machine, resolved, Success(vms), info) == NotFound
  {
    FindMachineNotFoundIff(vms, machine.name, machine.uid, info);
  }

  // ---------------------------------------------------------------------------
  // Cleanup
  // ---------------------------------------------------------------------------

  /** `provider.Cleanup`: look the machine up, then hard-terminate its VM.
      `resolvedOnDelete` is the outcome of resolving the config a second time;
      `terminate` gives the error text of terminating a VM by id, if any. */
  method Cleanup(machine: Machine, resolvedOnGet: Result<OneConfig, string>,
                 pool: Result<seq<PoolVm>, string>, info: VmInfo,
                 resolvedOnDelete: Result<OneConfig, string>,
                 terminate: int -> Option<string>)
    returns (deleted: bool, err: Option<TerminalError>)
    ensures deleted <==> err.None?
    ensures var got := GetSpec(machine, resolvedOnGet, pool, info);
            var config := GetConfig(machine.providerSpec, resolvedOnDelete);
            && (got.NotFound? ==> deleted)
            && (got.Terminal? ==> err == Some(got.error))
            && (got.Found? && config.Failure? ==>
                  err == Some(ParseFailed(config.error)))
            && (got.Found? && config.Success? && terminate(got.vm.id).None? ==> deleted)
            && (got.Found? && config.Success? && terminate(got.vm.id).Some? ==>
                  var e := terminate(got.vm.id).value;
                  if Contains(e, NoExistsMarker) then deleted
                  else err == Some(InvalidConfiguration("failed to delete virtual machine, due to " + e)))
    ensures var got := GetSpec(machine, resolvedOnGet, pool, info);
            deleted <==>
              || got.NotFound?
              || (got.Found? && GetConfig(machine.providerSpec, resolvedOnDelete).Success? &&
                  (terminate(got.vm.id).None? || Contains(terminate(got.vm.id).value, NoExistsMarker)))
  {
    var instance := Get(machine, resolvedOnGet, pool, info);
    if !instance.Found? {
      if instance.NotFound? {
        return true, None;
      }
      return false, Some(instance.error);
    }

    var config := GetConfig(machine.providerSpec, resolvedOnDelete);
    if config.Failure? {
      return false, Some(ParseFailed(config.error));
    }

    var terminated := terminate(instance.vm.id);
    // an already vanished VM shows up only as an error text containing NO_EXISTS
    if terminated.Some? && !Contains(terminated.value, NoExistsMarker) {
      return false, Some(InvalidConfiguration("failed to delete virtual machine, due to " + terminated.value));
    }
    return true, None;
  }

  // ---------------------------------------------------------------------------
  // The instance view of a VM
  // ---------------------------------------------------------------------------

  function Name(vm: Vm): string {
    vm.name
  }

  /** `ID`: the canonical decimal rendering of the VM id (no leading zero,
      '-' only for a negative id), which reads back as the id. */
  function ID(vm: Vm): (s: string)
    ensures CanonicalDecimal(s) && (s[0] == '-' <==> vm.id < 0)
    ensures ParseDecimal(s) == Some(vm.id)
  {
    Itoa(vm.id)
  }

  /** `ProviderID`: the fixed scheme prefix, then the VM id in decimal. */
  function ProviderID(vm: Vm): (s: string)
    ensures |s| > |ProviderIdPrefix| && s[..|ProviderIdPrefix|] == ProviderIdPrefix
    ensures s[|ProviderIdPrefix|..] == ID(vm) && CanonicalDecimal(s[|ProviderIdPrefix|..])
    ensures ParseDecimal(s[|ProviderIdPrefix|..]) == Some(vm.id)
  {
    ProviderIdPrefix + Itoa(vm.id)
  }

  /** VMs with different ids never get the same provider id. */
  lemma ProviderIDInjective(a: Vm, b: Vm)
    requires ProviderID(a) == ProviderID(b)
    ensures a.id == b.id
  {
    assert ProviderID(a)[|ProviderIdPrefix|..] == ProviderID(b)[|ProviderIdPrefix|..];
  }

  /** The address of a NIC, or "" when it has none (the lookup error is
      dropped). */
  function NicIp(nic: Nic): string {
    if NicIpKey in nic.attributes then nic.attributes[NicIpKey] else ""
  }

  /** `Addresses`: builds a map from every NIC's address to
      `NodeExternalIP`, then returns nil instead of that map, whatever the
      NICs are. */
  method Addresses(vm: Vm) returns (r: Option<map<string, NodeAddressType>>)
    ensures r == None
  {
    var addresses: map<string, NodeAddressType> := map[];
    for k := 0 to |vm.nics|
      invariant forall j :: 0 <= j < k ==> NicIp(vm.nics[j]) in addresses
    {
      addresses := addresses[NicIp(vm.nics[k]) := NodeExternalIP];
    }
    return None;
  }

  /** `Status`: the two-level VM state mapped onto the coarse status, read
      status by status. The sub-state matters only under `Active`, and every
      combination gets exactly one status. */
  function Status(vm: Vm): (r: InstanceStatus)
    ensures r == StatusCreating <==>
              vm.state in {Init, Pending, Hold} || (vm.state == Active && vm.lcmState in {LcmInit, Prolog, Boot})
    ensures r == StatusDeleting <==> vm.state == Active && vm.lcmState == Epilog
    ensures r == StatusRunning <==>
              vm.state == Active && vm.lcmState !in {LcmInit, Prolog, Boot, Epilog}
    ensures r == StatusDeleted <==> vm.state == Done
    ensures r == StatusUnknown <==> vm.state.OtherState?
  {
    match vm.state
    case Init | Pending | Hold => StatusCreating
    case Active =>
      (match vm.lcmState
       case LcmInit | Prolog | Boot => StatusCreating
       case Epilog => StatusDeleting
       case _ => StatusRunning)
    case Done => StatusDeleted
    case _ => StatusUnknown
  }

  /** Outside `Active`, the sub-state never changes the status. */
  lemma StatusIgnoresLcmOutsideActive(vm: Vm, lcm: LcmState)
    requires vm.state != Active
    ensures Status(vm.(lcmState := lcm)) == Status(vm)
  {
  }
}
