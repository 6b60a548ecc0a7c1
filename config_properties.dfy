/** Laws of ParseConfig and LoadConfig that hold for every input: which inputs
    are accepted, what each setting of an accepted configuration is, which error
    can be reported, and how the error messages tell the kinds of error apart. */
module RegistrarConfigProperties {
  import opened Wrappers
  import opened RegistrarConfig

  /** Decoded settings are accepted exactly when they break none of the rules. */
  lemma AcceptedIffNoRuleBroken(raw: RawConfig, kubeconfigEnv: string)
    requires KnownMode(raw)
    ensures ParseConfig(Decoded(raw), kubeconfigEnv).Ok? <==> (forall e :: !Breaks(raw, e))
  {
  }

  /** When the decoded settings break exactly one rule, that rule is the one
      reported, whatever the order in which the rules are checked. */
  lemma SoleBrokenRuleReported(raw: RawConfig, kubeconfigEnv: string, e: ConfigError)
    requires KnownMode(raw)
    requires Breaks(raw, e)
    requires forall e' :: Breaks(raw, e') ==> e' == e
    ensures ParseConfig(Decoded(raw), kubeconfigEnv) == Err(e)
  {
    AcceptedIffNoRuleBroken(raw, kubeconfigEnv);
  }

  /** Each setting of an accepted configuration is the operator's value when
      the text gives one, and otherwise the default of the selected mode. */
  lemma ParsedSettings(raw: RawConfig, kubeconfigEnv: string, c: Config)
    requires KnownMode(raw)
    requires ParseConfig(Decoded(raw), kubeconfigEnv) == Ok(c)
    ensures c.mode == ModeOf(raw)
    ensures forall f :: Present(Setting(raw, f)) ==> Get(c, f) == Setting(raw, f).value
    ensures forall f :: !Present(Setting(raw, f)) ==> Get(c, f) == Default(f, c.mode, kubeconfigEnv)
    ensures c.insecureSkipClientVerification <==> raw.insecureSkipClientVerification == Some(true)
  {
    forall f ensures Get(c, f) == Resolve(Setting(raw, f), Default(f, c.mode, kubeconfigEnv)) {
      match f
      case LogLevel =>
      case LogPath =>
      case TrustDomain =>
      case Cluster =>
      case ServerSocketPath =>
      case PodLabel =>
      case PodAnnotation =>
      case Addr =>
      case CertPath =>
      case KeyPath =>
      case CaCertPath =>
      case KubeConfig =>
      case InformerResyncInterval =>
    }
  }

  /** Admission defaults reach only admission-mode configurations and informer
      defaults only informer-mode ones: an unset setting of the other mode
      stays empty. */
  lemma ModeDefaultsStayInTheirMode(raw: RawConfig, kubeconfigEnv: string, c: Config, f: Field)
    requires KnownMode(raw)
    requires ParseConfig(Decoded(raw), kubeconfigEnv) == Ok(c)
    requires !Present(Setting(raw, f))
    ensures AdmissionOnly(f) && c.mode == Informer ==> Get(c, f) == ""
    ensures InformerOnly(f) && c.mode == Admission ==> Get(c, f) == ""
    ensures f == InformerResyncInterval && c.mode == Informer ==> Get(c, f) == "0"
    ensures f == KubeConfig && c.mode == Informer ==> Get(c, f) == kubeconfigEnv
    ensures f == Addr && c.mode == Admission ==> Get(c, f) == ":8443"
  {
  }

  /** A mode named in the text is the mode of the accepted configuration,
      spelled the same way. */
  lemma ModeNameRoundTrip(raw: RawConfig, kubeconfigEnv: string, c: Config)
    requires KnownMode(raw)
    requires ParseConfig(Decoded(raw), kubeconfigEnv) == Ok(c)
    ensures ModeName(c.mode) == (if Present(raw.mode) then raw.mode.value else AdmissionName)
  {
  }

  /** The first character of each kind's tag; only the two "unable to ..."
      tags share one. */
  function Initial(e: ConfigError): char {
    match e
    case LoadError(_) => 'u'
    case DecodeError(_) => 'u'
    case MissingSocketPath => 's'
    case MissingTrustDomain => 't'
    case MissingCluster => 'c'
    case BothLabelAndAnnotation => 'w'
    case KubeconfigInAdmission => 'k'
    case AddrInInformer => 'a'
  }

  /** The characters at which the tags of different kinds differ. */
  lemma TagStart(e: ConfigError)
    ensures |Tag(e)| > 10 && Tag(e)[0] == Initial(e)
    ensures e.LoadError? ==> Tag(e)[10] == 'l'
    ensures e.DecodeError? ==> Tag(e)[10] == 'd'
  {
  }

  /** A text that differs from a prefix of `s` at some position is not
      itself a prefix of `s`. */
  lemma DifferAt(t: string, u: string, s: string, i: nat)
    requires u <= s && i < |t| && i < |u| && t[i] != u[i]
    ensures !(t <= s)
  {
  }

  /** Every message begins with the tag of its own kind, and with no other
      kind's tag, so matching on a tag tells the kinds of error apart; in
      particular a read failure is told apart from every content problem. */
  lemma TagIdentifiesKind(a: ConfigError, b: ConfigError)
    ensures Tag(a) <= Message(b) <==> SameKind(a, b)
  {
    TagStart(a);
    TagStart(b);
    if SameKind(a, b) {
      assert Tag(a) == Tag(b);
    } else {
      // Distinct kinds differ in the first character, except the two
      // "unable to ..." tags, which part at index 10.
      DifferAt(Tag(a), Tag(b), Message(b), if Initial(a) != Initial(b) then 0 else 10);
    }
  }
}
