/** The Flatcar operating-system config: its defaulting rule, how it is loaded
    from an embedded raw spec, and how it is turned back into one.

    JSON marshalling and unmarshalling are inputs (`Encoder`, `Decoder`); the
    properties that depend on them take the round-trip law of the codec as a
    hypothesis. */
module Flatcar {
  import opened Wrappers
  import opened KubeTypes

  /** `ProvisioningUtility` is a string type: besides its two named values a
      decoded config may hold any string, and its zero value is "". */
  type ProvisioningUtility = string

  const Ignition: ProvisioningUtility := "ignition"
  const CloudInit: ProvisioningUtility := "cloud-init"

  /** The cloud-provider name of AWS, the one cloud with a different default. */
  const CloudProviderAws: string := "aws"

  datatype Config = Config(
    disableAutoUpdate: bool,
    disableLocksmithD: bool,
    disableUpdateEngine: bool,
    provisioningUtility: ProvisioningUtility)

  type Encoder = Config -> Result<Bytes, string>
  type Decoder = Bytes -> Result<Config, string>

  /** The codec reads back every config it manages to write. */
  ghost predicate RoundTrips(encode: Encoder, decode: Decoder) {
    forall c :: encode(c).Success? ==> decode(encode(c).value) == Success(c)
  }

  /** The config assumed for a cloud when none is given: every flag off, and
      the utility `cloud-init` on AWS and the zero value elsewhere. */
  function DefaultOsSpec(cloudProvider: string): (c: Config)
    ensures !c.disableAutoUpdate && !c.disableLocksmithD && !c.disableUpdateEngine
    ensures c.provisioningUtility == CloudInit <==> cloudProvider == CloudProviderAws
    ensures cloudProvider != CloudProviderAws ==> c.provisioningUtility == ""
  {
    Config(false, false, false, if cloudProvider == CloudProviderAws then CloudInit else "")
  }

  /** `DefaultConfigForCloud`: a spec that has raw bytes is returned as it is;
      a spec without them gets the encoding of the cloud's default config, or
      stays without them if that encoding fails (the error is dropped). */
  function DefaultConfigForCloud(spec: RawExtension, cloudProvider: string, encode: Encoder): (r: RawExtension)
    ensures spec.raw.Some? ==> r == spec
    ensures spec.raw.None? ==> r.raw == encode(DefaultOsSpec(cloudProvider)).ToOption()
  {
    if spec.raw.None? then spec.(raw := encode(DefaultOsSpec(cloudProvider)).ToOption()) else spec
  }

  /** `DefaultConfig`: the defaulting rule for no cloud in particular, so the
      filled-in config never selects `cloud-init`. */
  function DefaultConfig(spec: RawExtension, encode: Encoder): (r: RawExtension)
    ensures spec.raw.Some? ==> r == spec
    ensures spec.raw.None? ==> r.raw == encode(Config(false, false, false, "")).ToOption()
  {
    DefaultConfigForCloud(spec, "", encode)
  }

  /** `DefaultConfig` is `DefaultConfigForCloud` for the empty cloud name. */
  lemma DefaultConfigIsEmptyCloud(spec: RawExtension, encode: Encoder)
    ensures DefaultConfig(spec, encode) == DefaultConfigForCloud(spec, "", encode)
  {
  }

  /** Defaulting twice is defaulting once, for any cloud and any encoder. */
  lemma DefaultConfigForCloudIdempotent(spec: RawExtension, cloudProvider: string, encode: Encoder)
    ensures var once := DefaultConfigForCloud(spec, cloudProvider, encode);
            DefaultConfigForCloud(once, cloudProvider, encode) == once
  {
  }

  /** `LoadConfig`: default the spec for no cloud in particular, then decode
      its raw bytes (a nil slice decodes like an empty one). */
  function LoadConfig(spec: RawExtension, encode: Encoder, decode: Decoder): (r: Result<Config, string>)
    ensures spec.raw.Some? ==> r == decode(spec.raw.value)
    ensures spec.raw.None? && encode(DefaultOsSpec("")).Success? ==>
              r == decode(encode(DefaultOsSpec("")).value)
    ensures spec.raw.None? && encode(DefaultOsSpec("")).Failure? ==> r == decode([])
  {
    var defaulted := DefaultConfig(spec, encode);
    decode(defaulted.raw.GetOr([]))
  }

  /** Loading a spec that has no raw bytes yields the all-off config with the
      empty utility, never `cloud-init`, whatever the cloud. */
  lemma LoadConfigAbsentIsEmptyDefault(encode: Encoder, decode: Decoder)
    requires RoundTrips(encode, decode)
    requires encode(DefaultOsSpec("")).Success?
    ensures LoadConfig(RawExtension(None), encode, decode) == Success(Config(false, false, false, ""))
    ensures LoadConfig(RawExtension(None), encode, decode).value.provisioningUtility != CloudInit
  {
  }

  /** A spec defaulted for a cloud loads as that cloud's default config: with
      `cloud-init` exactly on AWS. */
  lemma LoadConfigAfterCloudDefault(cloudProvider: string, encode: Encoder, decode: Decoder)
    requires RoundTrips(encode, decode)
    requires encode(DefaultOsSpec(cloudProvider)).Success?
    ensures var r := LoadConfig(DefaultConfigForCloud(RawExtension(None), cloudProvider, encode), encode, decode);
            r == Success(DefaultOsSpec(cloudProvider))
            && (r.value.provisioningUtility == CloudInit <==> cloudProvider == CloudProviderAws)
  {
  }

  /** `Config.Spec`: an encoding failure is returned as it is; otherwise the
      extension's raw bytes are exactly the encoding. */
  function Spec(cfg: Config, encode: Encoder): (r: Result<RawExtension, string>)
    ensures r.Failure? <==> encode(cfg).Failure?
    ensures r.Failure? ==> r.error == encode(cfg).error
    ensures r.Success? ==> r.value.raw == Some(encode(cfg).value)
  {
    match encode(cfg)
    case Failure(e) => Failure(e)
    case Success(b) => Success(RawExtension(Some(b)))
  }

  /** What `Spec` writes, `LoadConfig` reads back unchanged. */
  lemma SpecLoadConfigRoundTrip(cfg: Config, encode: Encoder, decode: Decoder)
    requires RoundTrips(encode, decode)
    requires Spec(cfg, encode).Success?
    ensures LoadConfig(Spec(cfg, encode).value, encode, decode) == Success(cfg)
  {
  }
}
