/** The child objects of a cluster, in the order in which a run builds them. */
module Builders {
  import opened ClusterSpec

  datatype Builder =
    | HeadlessService | ClientService | ErlangCookie | DefaultUserSecret | PluginsConfigMap | ServerConfigMap
    | ServiceAccount | Role | RoleBinding | StatefulSetBuilder

  /** With Vault as its backend the default user has no Secret. */
  function ResourceBuilders(spec: Spec): seq<Builder> {
    [HeadlessService, ClientService, ErlangCookie]
    + (if spec.VaultDefaultUserSecretEnabled() then [] else [DefaultUserSecret])
    + [PluginsConfigMap, ServerConfigMap, ServiceAccount, Role, RoleBinding, StatefulSetBuilder]
  }
}
