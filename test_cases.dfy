/**
 The two cases of the mount-planning table, with every expected volume and
 mount written out literally, for `New("/etc/prometheus/web_config", "web-config", fields)`.
 */
module WebConfigTestCases {
  import opened Wrappers
  import opened WebConfig
  import opened WebConfigMounts

  const MountingDir := "/etc/prometheus/web_config"

  /** The fields of the second case: key, certificate and client CA all from the Secret "some-secret". */
  const SomeSecretFields := WebConfigFileFields(
    Some(WebTLSConfig(
      SecretRef("some-secret", "tls.key"),
      SecretRef("some-secret", "tls.crt"),
      SecretRef("some-secret", "tls.client_ca"),
      None, None, None, [], None, [])),
    None)

  /** The first case: with no fields set, only the document is mounted. */
  lemma EmptyFieldsCase(fp: Fingerprinter)
    ensures var p := GetMountParameters(New(MountingDir, "web-config", EmptyFields), fp);
            && p.volumes == [Volume("web-config", SecretSource("web-config"))]
            && p.mounts == [VolumeMount("web-config", true, "/etc/prometheus/web_config/web-config.yaml", "web-config.yaml")]
  {
    NoTLSPlan(New(MountingDir, "web-config", EmptyFields), fp);
    DocumentPath();
  }

  /** The second case, given that the fingerprint of "some-secret" is "3556f148". */
  lemma SomeSecretCase(fp: Fingerprinter)
    requires fp("some-secret") == "3556f148"
    ensures var p := GetMountParameters(New(MountingDir, "web-config", SomeSecretFields), fp);
            && p.volumes == [
                 Volume("web-config", SecretSource("web-config")),
                 Volume("web-config-tls-secret-key-some-secret-3556f148", SecretSource("some-secret")),
                 Volume("web-config-tls-secret-cert-some-secret-3556f148", SecretSource("some-secret")),
                 Volume("web-config-tls-secret-client-ca-some-secret-3556f148", SecretSource("some-secret"))]
            && p.mounts == [
                 VolumeMount("web-config", true, "/etc/prometheus/web_config/web-config.yaml", "web-config.yaml"),
                 VolumeMount("web-config-tls-secret-key-some-secret-3556f148", true, "/etc/prometheus/web_config/secret/some-secret-key", ""),
                 VolumeMount("web-config-tls-secret-cert-some-secret-3556f148", true, "/etc/prometheus/web_config/secret/some-secret-cert", ""),
                 VolumeMount("web-config-tls-secret-client-ca-some-secret-3556f148", true, "/etc/prometheus/web_config/secret/some-secret-ca", "")]
  {
    AllSecretsPlan(New(MountingDir, "web-config", SomeSecretFields), fp);
    DocumentPath();
    KeyVolumeName(fp);
    CertVolumeName(fp);
    ClientCAVolumeName(fp);
    KeyMountPath();
    CertMountPath();
    ClientCAMountPath();
  }

  lemma DocumentPath()
    ensures MountingDir + "/web-config.yaml" == "/etc/prometheus/web_config/web-config.yaml"
  {
  }

  lemma KeyVolumeName(fp: Fingerprinter)
    requires fp("some-secret") == "3556f148"
    ensures "web-config-tls-secret-key-" + "some-secret" + "-" + fp("some-secret") == "web-config-tls-secret-key-some-secret-3556f148"
  {
  }

  lemma CertVolumeName(fp: Fingerprinter)
    requires fp("some-secret") == "3556f148"
    ensures "web-config-tls-secret-cert-" + "some-secret" + "-" + fp("some-secret") == "web-config-tls-secret-cert-some-secret-3556f148"
  {
  }

  lemma ClientCAVolumeName(fp: Fingerprinter)
    requires fp("some-secret") == "3556f148"
    ensures "web-config-tls-secret-client-ca-" + "some-secret" + "-" + fp("some-secret") == "web-config-tls-secret-client-ca-some-secret-3556f148"
  {
  }

  lemma KeyMountPath()
    ensures MountingDir + "/secret/" + "some-secret" + "-key" == "/etc/prometheus/web_config/secret/some-secret-key"
  {
  }

  lemma CertMountPath()
    ensures MountingDir + "/secret/" + "some-secret" + "-cert" == "/etc/prometheus/web_config/secret/some-secret-cert"
  {
  }

  lemma ClientCAMountPath()
    ensures MountingDir + "/secret/" + "some-secret" + "-ca" == "/etc/prometheus/web_config/secret/some-secret-ca"
  {
  }
}
