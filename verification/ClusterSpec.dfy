/** The specification of a RabbitmqCluster and the questions the operator asks of it. */
module ClusterSpec {
  import opened Wrappers
  import opened Plugins
  import opened Annotations

  datatype TLSSpec = TLSSpec(secretName: string, caSecretName: string, disableNonTLSListeners: bool)

  datatype VaultSpec = VaultSpec(
    defaultUserPath: string,
    updaterImage: Option<string>,
    pkiIssuerPath: string,
    podAnnotations: Annotation)  // the operator's Vault annotations overlaid with the user's

  datatype ServiceType = ClusterIP | NodePort | LoadBalancer | Unset

  datatype Spec = Spec(
    replicas: int,
    image: string,
    pullSecrets: Option<seq<string>>,
    storage: int,
    serviceType: ServiceType,
    plugins: seq<Plugin>,
    serverConf: string,  // the text the server ConfigMap builder renders from the specification
    tls: TLSSpec,
    vault: Option<VaultSpec>,
    skipPostDeploySteps: bool,
    memoryLimit: Option<int>,
    memoryRequest: Option<int>)
  {
    predicate SecretTLSEnabled() { tls.secretName != "" }

    predicate VaultTLSEnabled() { vault.Some? && vault.value.pkiIssuerPath != "" }

    predicate TLSEnabled() { SecretTLSEnabled() || VaultTLSEnabled() }

    predicate MutualTLSEnabled() { (SecretTLSEnabled() && tls.caSecretName != "") || VaultTLSEnabled() }

    predicate SingleTLSSecret() { MutualTLSEnabled() && tls.caSecretName == tls.secretName }

    predicate DisableNonTLSListeners() { tls.disableNonTLSListeners }

    predicate AdditionalPluginEnabled(plugin: Plugin) { plugin in plugins }

    predicate StreamNeeded() {
      AdditionalPluginEnabled("rabbitmq_stream") || AdditionalPluginEnabled("rabbitmq_multi_dc_replication")
    }

    predicate VaultDefaultUserSecretEnabled() { vault.Some? && vault.value.defaultUserPath != "" }

    predicate UsesDefaultUserUpdaterImage() { vault.Some? && vault.value.updaterImage.None? }

    /** Annotations every pod template is given. */
    function PodAnnotations(): Annotation { if vault.Some? then vault.value.podAnnotations else map[] }
  }

  /** What the port tables depend on. */
  datatype Switches = Switches(disableNonTLS: bool, tls: bool, mutualTLS: bool,
                               mqtt: bool, webMqtt: bool, stomp: bool, webStomp: bool, stream: bool)

  function SwitchesOf(spec: Spec): Switches {
    Switches(spec.DisableNonTLSListeners(), spec.TLSEnabled(), spec.MutualTLSEnabled(),
             spec.AdditionalPluginEnabled("rabbitmq_mqtt"), spec.AdditionalPluginEnabled("rabbitmq_web_mqtt"),
             spec.AdditionalPluginEnabled("rabbitmq_stomp"), spec.AdditionalPluginEnabled("rabbitmq_web_stomp"),
             spec.StreamNeeded())
  }

  /** TLS settings the controller goes on with; the others end the run. */
  ghost predicate TLSGate(spec: Spec) { spec.DisableNonTLSListeners() ==> spec.TLSEnabled() }
}
