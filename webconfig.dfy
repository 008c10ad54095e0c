/**
 The input of the web configuration core: the web-config file fields of a
 Prometheus-like server (an optional TLS block and an optional HTTP block),
 the configuration object built from them by `New`, and the naming constants
 shared by mount planning and persistence.
 */
module WebConfig {
  import opened Wrappers

  /** One byte of a Secret's data. */
  newtype byte = x: int | 0 <= x < 256

  /** Where one TLS file of the server comes from. The Go struct has separate
      pointer fields for each variant; here exactly one variant is chosen, so a
      selector with both a Secret and a ConfigMap set cannot be built at all. */
  datatype Asset =
    | SecretRef(name: string, key: string)     // a key of a Kubernetes Secret
    | ConfigMapRef(name: string, key: string)  // a key of a Kubernetes ConfigMap
    | FileRef(path: string)                    // a file already present on the server's filesystem
    | Unset
  {
    /** A reference into an external key-value object, which has to be mounted. */
    predicate IsReference() {
      SecretRef? || ConfigMapRef?
    }
  }

  /** The private key comes from a Secret key selector or from a key file, never from a ConfigMap. */
  type KeyAsset = a: Asset | !a.ConfigMapRef? witness Unset

  /** The TLS block ("tls_server_config"). */
  datatype WebTLSConfig = WebTLSConfig(
    keySecret: KeyAsset,
    cert: Asset,
    clientCA: Asset,
    clientAuthType: Option<string>,
    minVersion: Option<string>,
    maxVersion: Option<string>,
    cipherSuites: seq<string>,
    preferServerCipherSuites: Option<bool>,
    curvePreferences: seq<string>)

  datatype WebHTTPHeaders = WebHTTPHeaders(
    contentSecurityPolicy: string,
    strictTransportSecurity: string,
    xContentTypeOptions: string,
    xFrameOptions: string,
    xXSSProtection: string)

  /** The HTTP block ("http_server_config"). */
  datatype WebHTTPConfig = WebHTTPConfig(http2: Option<bool>, headers: Option<WebHTTPHeaders>)

  datatype WebConfigFileFields = WebConfigFileFields(
    tlsConfig: Option<WebTLSConfig>,
    httpConfig: Option<WebHTTPConfig>)

  /** The zero value `WebConfigFileFields{}`. */
  const EmptyFields := WebConfigFileFields(None, None)

  /** What `New(mountingDir, secretName, fields)` keeps: the directory under which
      every file is mounted, the name of the Secret that stores the document, and
      the fields. */
  datatype Config = Config(mountingDir: string, secretName: string, fields: WebConfigFileFields)

  /** `New` keeps its three arguments unchanged; validation is not part of this model. */
  function New(mountingDir: string, secretName: string, fields: WebConfigFileFields): (c: Config)
    ensures c.mountingDir == mountingDir && c.secretName == secretName && c.fields == fields
  {
    Config(mountingDir, secretName, fields)
  }

  /** Name of the document file, used as the data key of the Secret and as the mount's sub-path. */
  const ConfigFile := "web-config.yaml"
  /** Name of the volume that carries the document. */
  const ConfigVolumeName := "web-config"
  /** Common prefix of the volumes that carry TLS files. */
  const TLSVolumePrefix := "web-config-tls-"
  /** The path segment, after the mounting directory, of the directory that holds referenced TLS files. */
  const SecretDir := "/secret/"

  /** The three TLS files that can be referenced. */
  datatype Role = KeyRole | CertRole | ClientCARole

  /** The fixed order in which the TLS files are planned: key, certificate, client CA. */
  const Roles: seq<Role> := [KeyRole, CertRole, ClientCARole]

  function Rank(r: Role): nat {
    match r
    case KeyRole => 0
    case CertRole => 1
    case ClientCARole => 2
  }

  /** The role as it appears at the end of a mount path. */
  function MountSuffix(r: Role): string {
    match r
    case KeyRole => "-key"
    case CertRole => "-cert"
    case ClientCARole => "-ca"
  }

  /** The role as it appears inside a volume name. */
  function VolumeLabel(r: Role): string {
    match r
    case KeyRole => "key"
    case CertRole => "cert"
    case ClientCARole => "client-ca"
  }

  function AssetFor(tls: WebTLSConfig, r: Role): Asset {
    match r
    case KeyRole => tls.keySecret
    case CertRole => tls.cert
    case ClientCARole => tls.clientCA
  }

  /** The asset of a role, `Unset` when there is no TLS block at all. */
  function AssetOf(f: WebConfigFileFields, r: Role): Asset {
    match f.tlsConfig
    case None => Unset
    case Some(tls) => AssetFor(tls, r)
  }

  /** Eight lower-case hexadecimal digits. */
  predicate IsHex8(s: string) {
    |s| == 8 && forall i :: 0 <= i < |s| ==> s[i] in "0123456789abcdef"
  }

  type Fingerprint = s: string | IsHex8(s) witness "00000000"

  /** The stable short digest of a referenced object's name that ends every TLS
      volume name. Its algorithm is not part of this model, so every operation
      that needs it takes it as a parameter: a deterministic function of the name. */
  type Fingerprinter = string -> Fingerprint
}
