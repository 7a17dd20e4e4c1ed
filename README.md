# OpenNebula provider and Flatcar config of the machine controller, in Dafny

This project models two small pieces of decision logic from the machine
controller.

- The **OpenNebula cloud provider** (`OpenNebula`, in `opennebula.dfy`) covers these parts:
  - How `Get` finds the VM of a machine. OpenNebula indexes VMs only by name, so the provider first collects the ids of all VMs named like the machine. It then fetches each one's full info and returns the first whose context entry `K8S_MACHINE_UID` equals the machine's UID.
  - How `Cleanup` decides that a machine is gone. It accepts the not-found sentinel, a successful hard termination, or a termination error whose text contains `NO_EXISTS`.
  - How a VM is reported: its `ID`, its `ProviderID` (`opennebula://<id>`), its `Addresses` and its coarse `Status`. `Addresses` builds a map from NIC addresses and then returns nil. That behaviour is kept as written. `Status` has five coarse results; `StatusUnknown` is the fifth, for every state the switch does not name.
  - The nil-value check of `getConfig` and the outcome logic of `Validate`.
- The **Flatcar OS config** (`Flatcar`, in `flatcar.dfy`) covers the defaulting rule for an absent raw spec, loading a config and turning a config back into a raw spec. The default is every flag off, with the provisioning utility `cloud-init` on AWS and the empty value elsewhere.
- `GoStrings` (`gostrings.dfy`) models the two Go library functions the provider's decisions depend on:
  - `strconv.Itoa`, with an independent decimal reader and a round-trip proof.
  - `strings.Contains`, proved equal to "occurs at some position".
- `Wrappers` and `KubeTypes` (`wrappers.dfy`) hold `Option`, `Result`, bytes, `runtime.RawExtension` and `v1.NodeAddressType`.

Everything outside this logic is an input of the model:
- **VM pool listing**: a `Result` holding the listed `(id, name)` pairs.
- **Per-VM info fetch**: a function from an id to a `Result` holding the full VM.
- **Hard termination**: a function from an id to an optional error text.
- **Config-field resolution**: a `Result` value, passed separately for each call of `getConfig`. That resolution reads secrets and the environment, so two calls may disagree.
- **JSON marshalling and unmarshalling**: encoder and decoder functions. The lemmas that need the codec to read back what it wrote take that as a hypothesis (`Flatcar.RoundTrips`).

The Go method `Get` is modelled as a Dafny method with its two loops. The method is proved equal to the function `GetSpec`, and lemmas characterise that function over the pool.

## Model

| member | source | states |
|---|---|---|
| `OpenNebula.GetConfig` | pkg/cloudprovider/provider/opennebula/provider.go:83-86 | a nil provider-spec value fails with "machine.spec.providerconfig.value is nil"; otherwise the resolution outcome, success or error, is returned unchanged; success iff value present and resolution succeeds |
| `OpenNebula.Validate` | pkg/cloudprovider/provider/opennebula/provider.go:145-157 | no error iff the value is present, the config resolves and the cloud-provider spec decodes; a config failure is wrapped as "failed to parse config: …", otherwise the decode error is returned as is |
| `OpenNebula.Get` | pkg/cloudprovider/provider/opennebula/provider.go:249-301 | the two loops (collect same-named ids, then fetch each and return the first whose context UID matches) compute exactly `GetSpec`: config failure and listing failure are terminal errors, then the pool lookup decides |
| `OpenNebula.FirstStop` | pkg/cloudprovider/provider/opennebula/provider.go:271-298 | the index where the scan stops: every earlier entry is passed over (other name, or fetched without the machine's UID), the entry at it is not |
| `OpenNebula.FindMachineStops` | pkg/cloudprovider/provider/opennebula/provider.go:269-300 | the lookup is decided by the first entry not passed over: its failed fetch gives the terminal error naming its id, its successful fetch gives Found; no such entry gives NotFound |
| `OpenNebula.FindMachineFoundIff` | pkg/cloudprovider/provider/opennebula/provider.go:271-296 | Get returns a VM iff some pool entry has the machine's name, its fetched context carries the machine's UID, that fetch gave this VM, and every earlier entry was passed over (first match in pool order, never after a failed fetch) |
| `OpenNebula.FindMachineNotFoundIff` | pkg/cloudprovider/provider/opennebula/provider.go:280-300 | Get returns the not-found sentinel iff every entry is passed over: no same-named VM carries the UID (a missing key is skipped) and none failed to fetch, however many share the name |
| `OpenNebula.FindMachineTerminalIff` | pkg/cloudprovider/provider/opennebula/provider.go:280-287 | Get ends in a terminal error iff a same-named VM fails to fetch before any match, even if a later candidate would match |
| `OpenNebula.GetAfterRemovalNotFound` | pkg/cloudprovider/provider/opennebula/provider.go:216-221 | once no VM of the machine's name is listed, Get reports not found, so a repeated Cleanup succeeds |
| `OpenNebula.Cleanup` | pkg/cloudprovider/provider/opennebula/provider.go:216-247 | deleted iff no error; not found gives success; a terminal Get error is returned as is; a failed second config gives a terminal error; termination success or an error text containing "NO_EXISTS" gives success; any other termination error gives (false, terminal error "failed to delete virtual machine, due to …") |
| `OpenNebula.ID` | pkg/cloudprovider/provider/opennebula/provider.go:328-330 | the canonical decimal of the VM id (no leading zero, '-' only for a negative id), which reads back as the id |
| `OpenNebula.ProviderID` | pkg/cloudprovider/provider/opennebula/provider.go:332-335 | the prefix "opennebula://" followed by exactly `ID`, the canonical decimal that reads back as the VM id |
| `OpenNebula.ProviderIDInjective` | pkg/cloudprovider/provider/opennebula/provider.go:332-335 | VMs with different ids never share a provider id |
| `OpenNebula.Addresses` | pkg/cloudprovider/provider/opennebula/provider.go:337-346 | returns nil whatever the NICs are; the loop builds the address map (every NIC's IP, "" when missing, mapped to NodeExternalIP) and discards it |
| `OpenNebula.Status` | pkg/cloudprovider/provider/opennebula/provider.go:348-369 | Creating iff Init/Pending/Hold or Active with LcmInit/Prolog/Boot; Deleting iff Active with Epilog; Running iff Active with any other sub-state; Deleted iff Done; Unknown iff any other state; so exactly one status for every pair |
| `OpenNebula.StatusIgnoresLcmOutsideActive` | pkg/cloudprovider/provider/opennebula/provider.go:352-354 | outside Active the sub-state never changes the status |
| `GoStrings.NatToDecimal` | pkg/cloudprovider/provider/opennebula/provider.go:329 | the decimal rendering is non-empty, all digits, and has no leading zero unless it is "0" |
| `GoStrings.NatToDecimalRoundTrip` | pkg/cloudprovider/provider/opennebula/provider.go:329 | reading the decimal rendering of a natural number gives the number back |
| `GoStrings.Itoa` | pkg/cloudprovider/provider/opennebula/provider.go:329 | the canonical decimal (no leading zero, never "-0"), starting with '-' iff the number is negative, which reads back as the number |
| `GoStrings.ItoaInjective` | pkg/cloudprovider/provider/opennebula/provider.go:329 | different integers never share a rendering |
| `GoStrings.ContainsIff` | pkg/cloudprovider/provider/opennebula/provider.go:239 | the substring scan succeeds iff the substring occurs at some position |
| `Flatcar.DefaultOsSpec` | pkg/userdata/flatcar/flatcar.go:51-54 | all three flags off; utility "cloud-init" iff the cloud is AWS, the empty value otherwise |
| `Flatcar.DefaultConfigForCloud` | pkg/userdata/flatcar/flatcar.go:50-61 | a present raw spec is returned unchanged; an absent one gets the encoding of the cloud's default (stays absent if encoding fails) |
| `Flatcar.DefaultConfig` | pkg/userdata/flatcar/flatcar.go:46-48 | a present raw spec is unchanged; an absent one gets the encoding of the all-off config with the empty utility |
| `Flatcar.DefaultConfigIsEmptyCloud` | pkg/userdata/flatcar/flatcar.go:46-48 | DefaultConfig is DefaultConfigForCloud with the empty cloud name |
| `Flatcar.DefaultConfigForCloudIdempotent` | pkg/userdata/flatcar/flatcar.go:56-60 | applying the default twice gives the same result as once |
| `Flatcar.LoadConfig` | pkg/userdata/flatcar/flatcar.go:64-72 | a present raw spec is decoded as is; an absent one decodes the encoded empty-cloud default (or an empty input if encoding failed); a decode error is returned as the error |
| `Flatcar.LoadConfigAbsentIsEmptyDefault` | pkg/userdata/flatcar/flatcar.go:64-71 | with a round-tripping codec, loading an absent spec yields the all-off config with the empty utility, never "cloud-init" |
| `Flatcar.LoadConfigAfterCloudDefault` | pkg/userdata/flatcar/flatcar.go:50-71 | with a round-tripping codec, a spec defaulted for a cloud loads as that cloud's default, with "cloud-init" iff the cloud is AWS |
| `Flatcar.Spec` | pkg/userdata/flatcar/flatcar.go:75-84 | an encoding failure is returned as is; otherwise the extension's raw bytes are exactly the encoding |
| `Flatcar.SpecLoadConfigRoundTrip` | pkg/userdata/flatcar/flatcar.go:64-84 | with a round-tripping codec, what Spec writes LoadConfig reads back unchanged |

## Left out

- The OpenNebula SDK calls have no model: client construction, pool listing, info fetch, `TerminateHard` and VM creation. Their results are inputs, because the remote protocol is not visible.
- `Create` is not modelled. Its behaviour is building the VM template from optional config fields and submitting it, and the template format belongs to the SDK.
- The field resolution of `getConfig` (inline values or `ONE_USERNAME`, `ONE_PASSWORD` and `ONE_ENDPOINT`) is not modelled. It goes through the config-variable resolver and the environment, so its outcome is an input. The `Cpu` field (a float64) is not part of the modelled config, because no decision reads it.
- The internals of `encoding/json` are left out. Marshalling and unmarshalling are encoder and decoder inputs, and this includes the decoding of the cloud-provider spec in `Validate`. The round trip of a config through JSON is a hypothesis of the lemmas that need it, not a proved fact.
- The goca `State()` conversion from raw state codes is not modelled. Every state or sub-state the provider does not name is one `OtherState(code)` or `OtherLcmState(code)` value, and an invalid raw code (whose conversion error the provider ignores) is one of those.
- The value "aws" of `CloudProviderAWS` comes from the provider-config types package, which is not part of this model.
- `runtime.RawExtension` is modelled by its `Raw` field only. The `Object` field is not read by the code modelled here.
- The `context.Context` parameters are left out, because no cancellation is passed on.
- `GetCloudConfig`, `AddDefaults`, `MigrateUID`, `MachineMetricsLabels`, `SetMetricsForMachines`, `New` and `getClient` are left out. They are constant stubs or only build a client.
- `Name` is modelled as a plain field read with no contract.
- The wrapping of a terminal error as Go's `error` interface and `errors.Is` are modelled by the `GetOutcome` datatype. `NotFound` stands for the `ErrInstanceNotFound` sentinel.
