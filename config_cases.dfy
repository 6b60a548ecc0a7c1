/** The table-driven cases of the registrar's configuration tests, each stated
    as a lemma about ParseConfig or LoadConfig. A case's configuration text is
    represented by the settings it decodes to. */
module RegistrarConfigCases {
  import opened Wrappers
  import opened RegistrarConfig

  /** Text that mentions no key at all. */
  function NoSettings(): RawConfig {
    RawConfig(None, None, None, None, None, None, None, None,
              None, None, None, None, None, None, None)
  }

  /** The minimal configuration: trust domain, cluster and server socket. */
  function MinimalConfig(): RawConfig {
    NoSettings().(
      trustDomain := Some("TRUSTDOMAIN"),
      cluster := Some("CLUSTER"),
      serverSocketPath := Some("SOCKETPATH"))
  }

  /** The minimal configuration in informer mode. */
  function MinimalInformerConfig(): RawConfig {
    MinimalConfig().(mode := Some(InformerName))
  }

  /** Minimal text without a mode gets every admission default. */
  lemma AdmissionDefaults(kubeconfigEnv: string)
    ensures ParseConfig(Decoded(MinimalConfig()), kubeconfigEnv) == Ok(Config(
      mode := Admission,
      logLevel := DefaultLogLevel,
      logPath := "",
      trustDomain := "TRUSTDOMAIN",
      cluster := "CLUSTER",
      serverSocketPath := "SOCKETPATH",
      podLabel := "",
      podAnnotation := "",
      addr := ":8443",
      certPath := DefaultCertPath,
      keyPath := DefaultKeyPath,
      caCertPath := DefaultCaCertPath,
      insecureSkipClientVerification := false,
      kubeConfig := "",
      informerResyncInterval := ""))
  {
  }

  /** Minimal text in informer mode gets the informer defaults, with the
      kubeconfig taken from the environment, and none of the admission ones. */
  lemma InformerDefaults(kubeconfigEnv: string)
    ensures ParseConfig(Decoded(MinimalInformerConfig()), kubeconfigEnv) == Ok(Config(
      mode := Informer,
      logLevel := DefaultLogLevel,
      logPath := "",
      trustDomain := "TRUSTDOMAIN",
      cluster := "CLUSTER",
      serverSocketPath := "SOCKETPATH",
      podLabel := "",
      podAnnotation := "",
      addr := "",
      certPath := "",
      keyPath := "",
      caCertPath := "",
      insecureSkipClientVerification := false,
      kubeConfig := kubeconfigEnv,
      informerResyncInterval := "0"))
  {
  }

  /** Every admission setting given in the text is kept as given. */
  lemma AdmissionOverrides(kubeconfigEnv: string)
    ensures ParseConfig(Decoded(NoSettings().(
      logLevel := Some("LEVELOVERRIDE"),
      logPath := Some("PATHOVERRIDE"),
      addr := Some(":1234"),
      certPath := Some("CERTOVERRIDE"),
      keyPath := Some("KEYOVERRIDE"),
      caCertPath := Some("CACERTOVERRIDE"),
      insecureSkipClientVerification := Some(true),
      serverSocketPath := Some("SOCKETPATHOVERRIDE"),
      trustDomain := Some("TRUSTDOMAINOVERRIDE"),
      cluster := Some("CLUSTEROVERRIDE"),
      podLabel := Some("PODLABEL"))), kubeconfigEnv)
      == Ok(Config(
      mode := Admission,
      logLevel := "LEVELOVERRIDE",
      logPath := "PATHOVERRIDE",
      trustDomain := "TRUSTDOMAINOVERRIDE",
      cluster := "CLUSTEROVERRIDE",
      serverSocketPath := "SOCKETPATHOVERRIDE",
      podLabel := "PODLABEL",
      podAnnotation := "",
      addr := ":1234",
      certPath := "CERTOVERRIDE",
      keyPath := "KEYOVERRIDE",
      caCertPath := "CACERTOVERRIDE",
      insecureSkipClientVerification := true,
      kubeConfig := "",
      informerResyncInterval := ""))
  {
  }

  /** Every informer setting given in the text is kept as given; the
      environment's kubeconfig is not used. */
  lemma InformerOverrides(kubeconfigEnv: string)
    ensures ParseConfig(Decoded(NoSettings().(
      logLevel := Some("LEVELOVERRIDE"),
      logPath := Some("PATHOVERRIDE"),
      serverSocketPath := Some("SOCKETPATHOVERRIDE"),
      trustDomain := Some("TRUSTDOMAINOVERRIDE"),
      cluster := Some("CLUSTEROVERRIDE"),
      podLabel := Some("PODLABEL"),
      mode := Some(InformerName),
      kubeConfig := Some("KUBEOVERRIDE"),
      informerResyncInterval := Some("10m"))), kubeconfigEnv)
      == Ok(Config(
      mode := Informer,
      logLevel := "LEVELOVERRIDE",
      logPath := "PATHOVERRIDE",
      trustDomain := "TRUSTDOMAINOVERRIDE",
      cluster := "CLUSTEROVERRIDE",
      serverSocketPath := "SOCKETPATHOVERRIDE",
      podLabel := "PODLABEL",
      podAnnotation := "",
      addr := "",
      certPath := "",
      keyPath := "",
      caCertPath := "",
      insecureSkipClientVerification := false,
      kubeConfig := "KUBEOVERRIDE",
      informerResyncInterval := "10m"))
  {
  }

  /** Text the decoder rejects fails with a decode error. */
  lemma BadText(cause: string, kubeconfigEnv: string)
    ensures ParseConfig(DecodeFailed(cause), kubeconfigEnv) == Err(DecodeError(cause))
    ensures "unable to decode configuration" <= Message(DecodeError(cause))
  {
  }

  lemma MissingServerSocketPath(kubeconfigEnv: string)
    ensures ParseConfig(Decoded(MinimalConfig().(serverSocketPath := None)), kubeconfigEnv)
      == Err(MissingSocketPath)
    ensures Message(MissingSocketPath) == "server_socket_path must be specified"
  {
  }

  lemma MissingTrustDomainCase(kubeconfigEnv: string)
    ensures ParseConfig(Decoded(MinimalConfig().(trustDomain := None)), kubeconfigEnv)
      == Err(MissingTrustDomain)
    ensures Message(MissingTrustDomain) == "trust_domain must be specified"
  {
  }

  lemma MissingClusterCase(kubeconfigEnv: string)
    ensures ParseConfig(Decoded(MinimalConfig().(cluster := None)), kubeconfigEnv)
      == Err(MissingCluster)
    ensures Message(MissingCluster) == "cluster must be specified"
  {
  }

  lemma LabelAndAnnotation(kubeconfigEnv: string)
    ensures ParseConfig(Decoded(MinimalConfig().(
      podLabel := Some("PODLABEL"), podAnnotation := Some("PODANNOTATION"))), kubeconfigEnv)
      == Err(BothLabelAndAnnotation)
  {
  }

  lemma KubeconfigWithDefaultedAdmission(kubeconfigEnv: string)
    ensures ParseConfig(Decoded(MinimalConfig().(kubeConfig := Some("KUBECONFIG"))), kubeconfigEnv)
      == Err(KubeconfigInAdmission)
    ensures Message(KubeconfigInAdmission) == "kubeconfig not valid in admission mode"
  {
  }

  lemma AddrWithInformer(kubeconfigEnv: string)
    ensures ParseConfig(Decoded(MinimalInformerConfig().(addr := Some("ADDR"))), kubeconfigEnv)
      == Err(AddrInInformer)
    ensures Message(AddrInInformer) == "addr not valid in informer mode"
  {
  }

  /** Loading a file that cannot be read fails with a load error; once the
      minimal configuration is written to it, loading gives the admission
      defaults. */
  lemma LoadMissingThenMinimal(
    cause: string, text: string, decode: string -> DecodeResult, kubeconfigEnv: string)
    requires decode(text) == Decoded(MinimalConfig())
    ensures LoadConfig(ReadFailed(cause), decode, kubeconfigEnv) == Err(LoadError(cause))
    ensures "unable to load configuration:" <= Message(LoadError(cause))
    ensures LoadConfig(ReadOk(text), decode, kubeconfigEnv) == Ok(Config(
      mode := Admission,
      logLevel := DefaultLogLevel,
      logPath := "",
      trustDomain := "TRUSTDOMAIN",
      cluster := "CLUSTER",
      serverSocketPath := "SOCKETPATH",
      podLabel := "",
      podAnnotation := "",
      addr := ":8443",
      certPath := DefaultCertPath,
      keyPath := DefaultKeyPath,
      caCertPath := DefaultCaCertPath,
      insecureSkipClientVerification := false,
      kubeConfig := "",
      informerResyncInterval := ""))
  {
    AdmissionDefaults(kubeconfigEnv);
  }
}
