/** The configuration of the k8s workload registrar: the settings decoded from
    the configuration text, the defaults table, the validated configuration,
    and the two entry points ParseConfig and LoadConfig. */
module RegistrarConfig {
  import opened Wrappers

  // ---------------------------------------------------------------------------
  // Defaults table
  // ---------------------------------------------------------------------------

  /** Defaults whose values are defined outside this model; they are left
      uninterpreted, so every property below holds whatever they are. */
  const DefaultLogLevel: string
  const DefaultCertPath: string
  const DefaultKeyPath: string
  const DefaultCaCertPath: string

  /** Defaults whose values the registrar fixes. */
  const DefaultAddr: string := ":8443"
  const DefaultInformerResyncInterval: string := "0"

  /** The two operating modes and their names in the configuration text. */
  datatype Mode = Admission | Informer

  const AdmissionName: string := "admission"
  const InformerName: string := "informer"

  function ModeName(m: Mode): string {
    match m
    case Admission => AdmissionName
    case Informer => InformerName
  }

  /** Every string-valued setting of the registrar, by its key. The mode and
      the boolean insecure_skip_client_verification are handled on their own. */
  datatype Field =
    | LogLevel | LogPath
    | TrustDomain | Cluster | ServerSocketPath
    | PodLabel | PodAnnotation
    | Addr | CertPath | KeyPath | CaCertPath
    | KubeConfig | InformerResyncInterval

  /** Settings that only admission mode gives a default. */
  predicate AdmissionOnly(f: Field) {
    f == Addr || f == CertPath || f == KeyPath || f == CaCertPath
  }

  /** Settings that only informer mode gives a default. */
  predicate InformerOnly(f: Field) {
    f == KubeConfig || f == InformerResyncInterval
  }

  /** The value a setting takes when the operator leaves it unset, in mode `m`,
      with `kubeconfigEnv` the value of the KUBECONFIG environment variable.
      The empty string means the setting has no default. Admission-only
      settings are filled in admission mode only, informer-only settings in
      informer mode only, the log level in both, and nothing else in either. */
  function Default(f: Field, m: Mode, kubeconfigEnv: string): (r: string)
    ensures AdmissionOnly(f) && m == Informer ==> r == ""
    ensures InformerOnly(f) && m == Admission ==> r == ""
    ensures !AdmissionOnly(f) && !InformerOnly(f) && f != LogLevel ==> r == ""
  {
    match f
    case LogLevel => DefaultLogLevel
    case Addr => if m == Admission then DefaultAddr else ""
    case CertPath => if m == Admission then DefaultCertPath else ""
    case KeyPath => if m == Admission then DefaultKeyPath else ""
    case CaCertPath => if m == Admission then DefaultCaCertPath else ""
    case KubeConfig => if m == Informer then kubeconfigEnv else ""
    case InformerResyncInterval => if m == Informer then DefaultInformerResyncInterval else ""
    case _ => ""
  }

  // ---------------------------------------------------------------------------
  // Decoded input
  // ---------------------------------------------------------------------------

  /** The flat set of keys the configuration text decodes to. `None` is a key
      the text does not mention. */
  datatype RawConfig = RawConfig(
    mode: Option<string>,
    logLevel: Option<string>,
    logPath: Option<string>,
    trustDomain: Option<string>,
    cluster: Option<string>,
    serverSocketPath: Option<string>,
    podLabel: Option<string>,
    podAnnotation: Option<string>,
    addr: Option<string>,
    certPath: Option<string>,
    keyPath: Option<string>,
    caCertPath: Option<string>,
    insecureSkipClientVerification: Option<bool>,
    kubeConfig: Option<string>,
    informerResyncInterval: Option<string>)

  /** The outcome of the external decoder on the configuration text. */
  datatype DecodeResult = DecodeFailed(cause: string) | Decoded(raw: RawConfig)

  /** The outcome of reading the configuration file. */
  datatype ReadResult = ReadFailed(cause: string) | ReadOk(text: string)

  /** A setting counts as given when the text sets it to a non-empty value. */
  predicate Present(o: Option<string>) {
    o.Some? && o.value != ""
  }

  function Setting(raw: RawConfig, f: Field): Option<string> {
    match f
    case LogLevel => raw.logLevel
    case LogPath => raw.logPath
    case TrustDomain => raw.trustDomain
    case Cluster => raw.cluster
    case ServerSocketPath => raw.serverSocketPath
    case PodLabel => raw.podLabel
    case PodAnnotation => raw.podAnnotation
    case Addr => raw.addr
    case CertPath => raw.certPath
    case KeyPath => raw.keyPath
    case CaCertPath => raw.caCertPath
    case KubeConfig => raw.kubeConfig
    case InformerResyncInterval => raw.informerResyncInterval
  }

  /** The mode is absent or names one of the two modes. No other value is
      given a meaning here. */
  predicate KnownMode(raw: RawConfig) {
    !Present(raw.mode) || raw.mode.value == AdmissionName || raw.mode.value == InformerName
  }

  /** KnownMode for whatever the decoder produced. */
  predicate KnownModeIn(d: DecodeResult) {
    d.Decoded? ==> KnownMode(d.raw)
  }

  /** The mode selected by the text; admission when it names none. */
  function ModeOf(raw: RawConfig): (m: Mode)
    requires KnownMode(raw)
    ensures Present(raw.mode) ==> ModeName(m) == raw.mode.value
    ensures !Present(raw.mode) ==> m == Admission
  {
    if Present(raw.mode) && raw.mode.value == InformerName then Informer else Admission
  }

  // ---------------------------------------------------------------------------
  // Validated configuration and errors
  // ---------------------------------------------------------------------------

  datatype Config = Config(
    mode: Mode,
    logLevel: string,
    logPath: string,
    trustDomain: string,
    cluster: string,
    serverSocketPath: string,
    podLabel: string,
    podAnnotation: string,
    addr: string,
    certPath: string,
    keyPath: string,
    caCertPath: string,
    insecureSkipClientVerification: bool,
    kubeConfig: string,
    informerResyncInterval: string)

  function Get(c: Config, f: Field): string {
    match f
    case LogLevel => c.logLevel
    case LogPath => c.logPath
    case TrustDomain => c.trustDomain
    case Cluster => c.cluster
    case ServerSocketPath => c.serverSocketPath
    case PodLabel => c.podLabel
    case PodAnnotation => c.podAnnotation
    case Addr => c.addr
    case CertPath => c.certPath
    case KeyPath => c.keyPath
    case CaCertPath => c.caCertPath
    case KubeConfig => c.kubeConfig
    case InformerResyncInterval => c.informerResyncInterval
  }

  /** What every configuration handed to a caller satisfies: the required
      settings are non-empty, at most one workload selector is set, and the
      setting foreign to the mode is empty while the mode's own listen address
      or resync interval is filled in. */
  predicate WellFormed(c: Config) {
    && c.serverSocketPath != ""
    && c.trustDomain != ""
    && c.cluster != ""
    && (c.podLabel == "" || c.podAnnotation == "")
    && (c.mode == Admission ==> c.kubeConfig == "" && c.addr != "")
    && (c.mode == Informer ==> c.addr == "" && c.informerResyncInterval != "")
  }

  datatype ConfigError =
    | LoadError(cause: string)
    | DecodeError(cause: string)
    | MissingSocketPath
    | MissingTrustDomain
    | MissingCluster
    | BothLabelAndAnnotation
    | KubeconfigInAdmission
    | AddrInInformer

  /** The rule of the registrar that error `e` reports, as a condition on the
      decoded settings. Load and decode errors are not about settings. */
  predicate Breaks(raw: RawConfig, e: ConfigError)
    requires KnownMode(raw)
  {
    match e
    case LoadError(_) => false
    case DecodeError(_) => false
    case MissingSocketPath => !Present(raw.serverSocketPath)
    case MissingTrustDomain => !Present(raw.trustDomain)
    case MissingCluster => !Present(raw.cluster)
    case BothLabelAndAnnotation => Present(raw.podLabel) && Present(raw.podAnnotation)
    case KubeconfigInAdmission => ModeOf(raw) == Admission && Present(raw.kubeConfig)
    case AddrInInformer => ModeOf(raw) == Informer && Present(raw.addr)
  }

  /** The fixed text that identifies each kind of error. */
  function Tag(e: ConfigError): string {
    match e
    case LoadError(_) => "unable to load configuration:"
    case DecodeError(_) => "unable to decode configuration"
    case MissingSocketPath => "server_socket_path must be specified"
    case MissingTrustDomain => "trust_domain must be specified"
    case MissingCluster => "cluster must be specified"
    case BothLabelAndAnnotation =>
      // Written in pieces so that the verifier can index into the text.
      "workload registration mode " + "specification is incorrect, "
      + "can't specify both pod_label " + "and pod_annotation"
    case KubeconfigInAdmission => "kubeconfig not valid in admission mode"
    case AddrInInformer => "addr not valid in informer mode"
  }

  /** The message of an error: its tag, followed by the underlying cause for
      the two errors that wrap one. */
  function Message(e: ConfigError): (r: string)
    ensures Tag(e) <= r
    ensures !e.LoadError? && !e.DecodeError? ==> r == Tag(e)
    ensures e.LoadError? || e.DecodeError? ==> |r| >= |e.cause| && r[|r| - |e.cause|..] == e.cause
  {
    match e
    case LoadError(cause) => Tag(e) + " " + cause
    case DecodeError(cause) => Tag(e) + ": " + cause
    case _ => Tag(e)
  }

  /** Two errors are of the same kind when they are the same variant. */
  predicate SameKind(a: ConfigError, b: ConfigError) {
    match a
    case LoadError(_) => b.LoadError?
    case DecodeError(_) => b.DecodeError?
    case _ => a == b
  }

  // ---------------------------------------------------------------------------
  // Parsing and loading
  // ---------------------------------------------------------------------------

  /** A setting's value after defaulting: the operator's value when given,
      otherwise the default. */
  function Resolve(o: Option<string>, default: string): string {
    if Present(o) then o.value else default
  }

  /** The decoded settings with the defaults of mode `m` filled in. */
  function Defaulted(raw: RawConfig, m: Mode, kubeconfigEnv: string): Config {
    Config(
      mode := m,
      logLevel := Resolve(raw.logLevel, Default(LogLevel, m, kubeconfigEnv)),
      logPath := Resolve(raw.logPath, Default(LogPath, m, kubeconfigEnv)),
      trustDomain := Resolve(raw.trustDomain, Default(TrustDomain, m, kubeconfigEnv)),
      cluster := Resolve(raw.cluster, Default(Cluster, m, kubeconfigEnv)),
      serverSocketPath := Resolve(raw.serverSocketPath, Default(ServerSocketPath, m, kubeconfigEnv)),
      podLabel := Resolve(raw.podLabel, Default(PodLabel, m, kubeconfigEnv)),
      podAnnotation := Resolve(raw.podAnnotation, Default(PodAnnotation, m, kubeconfigEnv)),
      addr := Resolve(raw.addr, Default(Addr, m, kubeconfigEnv)),
      certPath := Resolve(raw.certPath, Default(CertPath, m, kubeconfigEnv)),
      keyPath := Resolve(raw.keyPath, Default(KeyPath, m, kubeconfigEnv)),
      caCertPath := Resolve(raw.caCertPath, Default(CaCertPath, m, kubeconfigEnv)),
      insecureSkipClientVerification := raw.insecureSkipClientVerification == Some(true),
      kubeConfig := Resolve(raw.kubeConfig, Default(KubeConfig, m, kubeconfigEnv)),
      informerResyncInterval :=
        Resolve(raw.informerResyncInterval, Default(InformerResyncInterval, m, kubeconfigEnv)))
  }

  /** Decodes, defaults and validates a configuration. `d` is what the external
      decoder made of the configuration text; `kubeconfigEnv` is the value of
      the KUBECONFIG environment variable. */
  function ParseConfig(d: DecodeResult, kubeconfigEnv: string): (r: Result<Config, ConfigError>)
    requires KnownModeIn(d)
    ensures d.DecodeFailed? ==> r == Err(DecodeError(d.cause))
    ensures d.Decoded? && r.Err? ==> Breaks(d.raw, r.error)
    ensures r.Ok? ==> d.Decoded? && WellFormed(r.value) && r.value.mode == ModeOf(d.raw)
  {
    match d
    case DecodeFailed(cause) => Err(DecodeError(cause))
    case Decoded(raw) =>
      var m := ModeOf(raw);
      var c := Defaulted(raw, m, kubeconfigEnv);
      if m == Admission && Present(raw.kubeConfig) then Err(KubeconfigInAdmission)
      else if m == Informer && Present(raw.addr) then Err(AddrInInformer)
      else if c.serverSocketPath == "" then Err(MissingSocketPath)
      else if c.trustDomain == "" then Err(MissingTrustDomain)
      else if c.cluster == "" then Err(MissingCluster)
      else if c.podLabel != "" && c.podAnnotation != "" then Err(BothLabelAndAnnotation)
      else Ok(c)
  }

  /** Reads the configuration file and parses its text; `decode` stands for
      the external decoder. */
  function LoadConfig(read: ReadResult, decode: string -> DecodeResult, kubeconfigEnv: string)
    : (r: Result<Config, ConfigError>)
    requires read.ReadOk? ==> KnownModeIn(decode(read.text))
    ensures read.ReadFailed? <==> r.Err? && r.error.LoadError?
    ensures read.ReadFailed? ==> r.error.cause == read.cause
    ensures read.ReadOk? ==> r == ParseConfig(decode(read.text), kubeconfigEnv)
  {
    match read
    case ReadFailed(cause) => Err(LoadError(cause))
    case ReadOk(text) => ParseConfig(decode(text), kubeconfigEnv)
  }
}
