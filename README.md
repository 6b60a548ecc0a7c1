# k8s workload registrar configuration — a Dafny model

The k8s workload registrar runs in one of two modes: as an admission webhook
(`admission`, the default) or as a Kubernetes informer (`informer`). Before it
starts, `ParseConfig` turns its configuration text into a `Config`: it decodes
the text (HCL), fills in the defaults of the selected mode, rejects the
setting that does not belong to the mode (`kubeconfig` in admission mode,
`addr` in informer mode), requires `server_socket_path`, `trust_domain` and
`cluster`, and rejects `pod_label` together with `pod_annotation`.
`LoadConfig` reads a file and hands its text to `ParseConfig`, reporting an
unreadable file as its own kind of error.

The implementation of these two functions is not part of this model; their
behaviour is taken from the table-driven tests in
`support/k8s/k8s-workload-registrar/config_test.go`, which fix it case by case.

Files:

- `wrappers.dfy` — `Option` and `Result`.
- `config.dfy` (module `RegistrarConfig`) — the decoded settings (`RawConfig`,
  one optional value per key), the defaults table (`Default`), the validated
  `Config`, the errors (`ConfigError`, one variant per failure, with `Tag` and
  `Message`), the rule each error reports (`Breaks`), `ParseConfig` and
  `LoadConfig`.
- `config_properties.dfy` (module `RegistrarConfigProperties`) — laws over all
  inputs: accepted exactly when no rule is broken, the error reported is a
  broken rule, every setting is the operator's value or the mode's default,
  and error messages tell the kinds of error apart.
- `config_cases.dfy` (module `RegistrarConfigCases`) — each test case as a lemma.

Modelling decisions:

- The decoder is external. `ParseConfig` receives what it produced:
  `DecodeFailed(cause)` or `Decoded(raw)`. `LoadConfig` receives the outcome of
  the file read, `ReadFailed(cause)` or `ReadOk(text)`, and the decoder as a
  function parameter.
- The `KUBECONFIG` environment variable is the parameter `kubeconfigEnv`.
- A key counts as set when it is given a non-empty value (`Present`). A key
  written as the empty string is treated like an absent one, as a string field
  left at its zero value would be. The tests never write an empty value.
- `defaultLogLevel`, `defaultCertPath`, `defaultKeyPath` and
  `defaultCaCertPath` are uninterpreted constants. `:8443` and `"0"` are fixed
  by the tests.
- A setting that belongs to the other mode, and that the selected mode
  neither defaults nor forbids, is kept as written. These settings are
  `cert_path`, `key_path`, `cacert_path` and
  `insecure_skip_client_verification` in informer mode, and
  `informer_resync_interval` in admission mode. The tests give none of them.
- The body checks the rules in one order: forbidden field, then
  `server_socket_path`, `trust_domain`, `cluster`, then the label/annotation
  rule. The tests never break two rules at once, so no property depends on
  this order. The properties say only that an input is rejected exactly when
  it breaks some rule, that the error reported names a broken rule, and that
  a sole broken rule is the one reported.
- The tests check that an error message contains a fixed text. The model
  states something stronger: every message begins with its kind's tag and
  with no other kind's tag. Load and decode errors append their cause, after
  `" "` and `": "` respectively.

## Model

| member | source | states |
|---|---|---|
| RegistrarConfig.ModeOf | support/k8s/k8s-workload-registrar/config_test.go:12-93 | a mode named in the text is the mode selected; with no mode given, admission is selected |
| RegistrarConfig.Default | support/k8s/k8s-workload-registrar/config_test.go:42-93 | the defaults table fills admission-only settings (addr, cert, key and CA paths) only in admission mode and informer-only settings (kubeconfig, resync interval) only in informer mode; settings outside both groups other than the log level have no default |
| RegistrarConfig.Message | support/k8s/k8s-workload-registrar/config_test.go:34-203 | every error message begins with its kind's fixed text; a validation error's message is exactly that text; a load or decode error's message ends with the underlying cause (the texts are those matched at lines 34 and 152-203) |
| RegistrarConfig.ParseConfig | support/k8s/k8s-workload-registrar/config_test.go:64-216 | undecodable text gives a decode error carrying the decoder's cause; any other error names a rule the settings break; a returned config has non-empty socket path, trust domain and cluster, at most one workload selector, no kubeconfig and a listen address in admission mode, no listen address and a resync interval in informer mode, and the mode the text selects |
| RegistrarConfig.LoadConfig | support/k8s/k8s-workload-registrar/config_test.go:32-52 | a load error is returned exactly when the file cannot be read, carrying the read's cause; a readable file gives exactly what parsing its text gives |
| RegistrarConfigProperties.AcceptedIffNoRuleBroken | support/k8s/k8s-workload-registrar/config_test.go:157-203 | decoded settings are accepted if and only if they break none of the six rules (missing socket path, trust domain or cluster; both selectors; kubeconfig in admission mode; addr in informer mode) |
| RegistrarConfigProperties.SoleBrokenRuleReported | support/k8s/k8s-workload-registrar/config_test.go:157-203 | settings that break exactly one rule fail with that rule's error, whatever order the rules are checked in |
| RegistrarConfigProperties.ParsedSettings | support/k8s/k8s-workload-registrar/config_test.go:64-150 | in an accepted config every setting given in the text appears verbatim, every unset one has the selected mode's default, and insecure_skip_client_verification is true only when the text sets it true |
| RegistrarConfigProperties.ModeDefaultsStayInTheirMode | support/k8s/k8s-workload-registrar/config_test.go:64-93 | unset admission-only settings stay empty in informer mode and unset informer-only ones in admission mode; informer mode defaults the resync interval to "0" and kubeconfig to the environment's value; admission mode defaults addr to ":8443" |
| RegistrarConfigProperties.ModeNameRoundTrip | support/k8s/k8s-workload-registrar/config_test.go:77-89 | the accepted config's mode is spelled as in the text, or "admission" when the text names none |
| RegistrarConfigProperties.TagIdentifiesKind | support/k8s/k8s-workload-registrar/config_test.go:210-213 | a message begins with a kind's tag if and only if the error is of that kind, so a read failure, a decode failure and each validation failure are told apart by their text |
| RegistrarConfigCases.AdmissionDefaults | support/k8s/k8s-workload-registrar/config_test.go:64-79 | the minimal text without a mode gives the admission config with ":8443", the default certificate, key, CA and log-level values, no client-verification skip, and empty log path, kubeconfig and resync interval |
| RegistrarConfigCases.InformerDefaults | support/k8s/k8s-workload-registrar/config_test.go:81-93 | the minimal text in informer mode gives the environment's kubeconfig, resync interval "0", the default log level, and empty addr and certificate, key and CA paths |
| RegistrarConfigCases.AdmissionOverrides | support/k8s/k8s-workload-registrar/config_test.go:95-124 | every admission setting given, including a true client-verification skip and a pod label, is kept verbatim |
| RegistrarConfigCases.InformerOverrides | support/k8s/k8s-workload-registrar/config_test.go:126-150 | every informer setting given, including kubeconfig, resync interval and a pod label, is kept verbatim |
| RegistrarConfigCases.BadText | support/k8s/k8s-workload-registrar/config_test.go:152-156 | undecodable text fails with a decode error whose message begins "unable to decode configuration" |
| RegistrarConfigCases.MissingServerSocketPath | support/k8s/k8s-workload-registrar/config_test.go:157-164 | without server_socket_path the minimal text fails with "server_socket_path must be specified" |
| RegistrarConfigCases.MissingTrustDomainCase | support/k8s/k8s-workload-registrar/config_test.go:165-172 | without trust_domain the minimal text fails with "trust_domain must be specified" |
| RegistrarConfigCases.MissingClusterCase | support/k8s/k8s-workload-registrar/config_test.go:173-180 | without cluster the minimal text fails with "cluster must be specified" |
| RegistrarConfigCases.LabelAndAnnotation | support/k8s/k8s-workload-registrar/config_test.go:181-188 | the minimal text with both pod_label and pod_annotation fails with the label-and-annotation error |
| RegistrarConfigCases.KubeconfigWithDefaultedAdmission | support/k8s/k8s-workload-registrar/config_test.go:190-196 | kubeconfig with the mode left to default fails with "kubeconfig not valid in admission mode" |
| RegistrarConfigCases.AddrWithInformer | support/k8s/k8s-workload-registrar/config_test.go:197-203 | addr in informer mode fails with "addr not valid in informer mode" |
| RegistrarConfigCases.LoadMissingThenMinimal | support/k8s/k8s-workload-registrar/config_test.go:23-53 | an unreadable file fails with a message beginning "unable to load configuration:"; the same path holding the minimal text loads to the admission config with ":8443", the default log level, certificate, key and CA paths, the three given values, and every other setting empty or false |

## Left out

- HCL decoding and its grammar: an external library, represented only by its outcome (`DecodeResult`).
- Reading the file, temporary directories and their removal: I/O, represented by `ReadResult`.
- Reading the `KUBECONFIG` environment variable: ambient state, passed in as `kubeconfigEnv`.
- The values of `defaultLogLevel`, `defaultCertPath`, `defaultKeyPath` and `defaultCaCertPath`: they are defined in a file that is not part of this model, so they stay uninterpreted constants.
- ParseConfig: requires the mode to be absent, "admission" or "informer"; no test gives any other value, so no outcome is assumed for one.
- LoadConfig: requires the same of the decoded file text, for the same reason.
- Which error is reported when several rules are broken at once: no test combines failures, so no property fixes it.
- The exact wording of the load and decode errors after their tags: the model appends the underlying cause; the tests only check the tags.
- The testify harness and the per-case subtests: test scaffolding.
