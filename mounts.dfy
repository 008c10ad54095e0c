/**
 Mount planning: `GetMountParameters` turns a web configuration into the path of
 the document, a list of volumes and an index-aligned list of volume mounts. The
 first pair always carries the document itself; then comes one pair per TLS
 file that references a Secret or a ConfigMap, in the order key, certificate,
 client CA.
 */
module WebConfigMounts {
  import opened Wrappers
  import opened WebConfig

  datatype VolumeSource = SecretSource(secretName: string) | ConfigMapSource(configMapName: string)

  datatype Volume = Volume(name: string, source: VolumeSource)

  /** A volume mount; `subPath == ""` means the whole volume is mounted. */
  datatype VolumeMount = VolumeMount(name: string, readOnly: bool, mountPath: string, subPath: string)

  datatype MountParameters = MountParameters(configFilePath: string, volumes: seq<Volume>, mounts: seq<VolumeMount>)

  /** A volume together with the mount that exposes it. */
  type Entry = (Volume, VolumeMount)

  // ---------------------------------------------------------------- naming

  function ConfigFilePath(mountingDir: string): string {
    mountingDir + "/" + ConfigFile
  }

  /** The document's path, written out. */
  lemma ConfigFilePathIs(mountingDir: string)
    ensures ConfigFilePath(mountingDir) == mountingDir + "/web-config.yaml"
  {
    assert "/" + ConfigFile == "/web-config.yaml";
    assert mountingDir + "/" + ConfigFile == mountingDir + ("/" + ConfigFile);
  }

  function ConfigVolume(secretName: string): Volume {
    Volume(ConfigVolumeName, SecretSource(secretName))
  }

  function ConfigMount(mountingDir: string): VolumeMount {
    VolumeMount(ConfigVolumeName, true, ConfigFilePath(mountingDir), ConfigFile)
  }

  function StoreKind(a: Asset): string
    requires a.IsReference()
  {
    if a.SecretRef? then "secret" else "configmap"
  }

  /** `web-config-tls-<secret|configmap>-<key|cert|client-ca>-`. */
  function VolumeNamePrefix(kind: string, r: Role): string {
    TLSVolumePrefix + kind + "-" + VolumeLabel(r) + "-"
  }

  function AssetVolumeName(a: Asset, r: Role, fp: Fingerprinter): string
    requires a.IsReference()
  {
    VolumeNamePrefix(StoreKind(a), r) + a.name + "-" + fp(a.name)
  }

  /** `<dir>/secret/<name>-<key|cert|ca>`. */
  function AssetMountPath(mountingDir: string, a: Asset, r: Role): string
    requires a.IsReference()
  {
    mountingDir + SecretDir + a.name + MountSuffix(r)
  }

  function AssetVolume(a: Asset, r: Role, fp: Fingerprinter): Volume
    requires a.IsReference()
  {
    Volume(AssetVolumeName(a, r, fp), if a.SecretRef? then SecretSource(a.name) else ConfigMapSource(a.name))
  }

  function AssetMount(mountingDir: string, a: Asset, r: Role, fp: Fingerprinter): VolumeMount
    requires a.IsReference()
  {
    VolumeMount(AssetVolumeName(a, r, fp), true, AssetMountPath(mountingDir, a, r), "")
  }

  function AssetEntry(mountingDir: string, a: Asset, r: Role, fp: Fingerprinter): Entry
    requires a.IsReference()
  {
    (AssetVolume(a, r, fp), AssetMount(mountingDir, a, r, fp))
  }

  // ---------------------------------------------------------------- planning

  /** The roles among `roles`, in their order, whose asset references a Secret or a ConfigMap. */
  function ReferencedRoles(tls: WebTLSConfig, roles: seq<Role>): (rs: seq<Role>)
    ensures |rs| <= |roles|
    ensures forall r :: r in rs <==> r in roles && AssetFor(tls, r).IsReference()
  {
    if roles == [] then []
    else if AssetFor(tls, roles[0]).IsReference() then [roles[0]] + ReferencedRoles(tls, roles[1..])
    else ReferencedRoles(tls, roles[1..])
  }

  /** The roles that get a volume: none without a TLS block. */
  function PlannedRoles(f: WebConfigFileFields): seq<Role> {
    match f.tlsConfig
    case None => []
    case Some(tls) => ReferencedRoles(tls, Roles)
  }

  /** One entry per role of `roles` whose asset is a reference; other roles are skipped. */
  function AssetEntries(mountingDir: string, tls: WebTLSConfig, roles: seq<Role>, fp: Fingerprinter): seq<Entry> {
    if roles == [] then []
    else
      var a := AssetFor(tls, roles[0]);
      var rest := AssetEntries(mountingDir, tls, roles[1..], fp);
      if a.IsReference() then [AssetEntry(mountingDir, a, roles[0], fp)] + rest else rest
  }

  /** Skipping the roles without a reference leaves exactly one entry per
      referenced role, in the order of `roles`. */
  lemma {:induction false} AssetEntriesByRole(mountingDir: string, tls: WebTLSConfig, roles: seq<Role>, fp: Fingerprinter)
    ensures var es, rs := AssetEntries(mountingDir, tls, roles, fp), ReferencedRoles(tls, roles);
            |es| == |rs| &&
            forall i :: 0 <= i < |es| ==> AssetFor(tls, rs[i]).IsReference() && es[i] == AssetEntry(mountingDir, AssetFor(tls, rs[i]), rs[i], fp)
  {
    if roles != [] {
      AssetEntriesByRole(mountingDir, tls, roles[1..], fp);
      var es, rs := AssetEntries(mountingDir, tls, roles, fp), ReferencedRoles(tls, roles);
      var rest, rs' := AssetEntries(mountingDir, tls, roles[1..], fp), ReferencedRoles(tls, roles[1..]);
      if AssetFor(tls, roles[0]).IsReference() {
        assert es == [AssetEntry(mountingDir, AssetFor(tls, roles[0]), roles[0], fp)] + rest;
        assert rs == [roles[0]] + rs';
        forall i | 0 < i < |es|
          ensures AssetFor(tls, rs[i]).IsReference() && es[i] == AssetEntry(mountingDir, AssetFor(tls, rs[i]), rs[i], fp)
        {
          assert es[i] == rest[i - 1] && rs[i] == rs'[i - 1];
        }
      } else {
        assert es == rest && rs == rs';
      }
    }
  }

  function Entries(c: Config, fp: Fingerprinter): seq<Entry> {
    [(ConfigVolume(c.secretName), ConfigMount(c.mountingDir))]
    + match c.fields.tlsConfig
      case None => []
      case Some(tls) => AssetEntries(c.mountingDir, tls, Roles, fp)
  }

  /** Every entry pairs a volume with a read-only mount of the same name. */
  lemma EntriesPaired(c: Config, fp: Fingerprinter)
    ensures |Entries(c, fp)| == 1 + |PlannedRoles(c.fields)|
    ensures forall e :: e in Entries(c, fp) ==> e.1.name == e.0.name && e.1.readOnly
  {
    if c.fields.tlsConfig.Some? {
      AssetEntriesByRole(c.mountingDir, c.fields.tlsConfig.value, Roles, fp);
    }
  }

  function VolumesOf(es: seq<Entry>): (vs: seq<Volume>)
    ensures |vs| == |es|
    ensures forall i :: 0 <= i < |es| ==> vs[i] == es[i].0
  {
    if es == [] then [] else [es[0].0] + VolumesOf(es[1..])
  }

  function MountsOf(es: seq<Entry>): (ms: seq<VolumeMount>)
    ensures |ms| == |es|
    ensures forall i :: 0 <= i < |es| ==> ms[i] == es[i].1
  {
    if es == [] then [] else [es[0].1] + MountsOf(es[1..])
  }

  /** The volumes and mounts a server container needs for its web configuration.
      Both lists are index-aligned (mount i exposes volume i), every mount is
      read-only, and the document pair comes first. */
  function GetMountParameters(c: Config, fp: Fingerprinter): (p: MountParameters)
    ensures |p.volumes| == |p.mounts| == 1 + |PlannedRoles(c.fields)|
    ensures p.volumes[0] == ConfigVolume(c.secretName) && p.mounts[0] == ConfigMount(c.mountingDir)
    ensures p.configFilePath == p.mounts[0].mountPath
    ensures forall i :: 0 <= i < |p.mounts| ==> p.mounts[i].name == p.volumes[i].name && p.mounts[i].readOnly
  {
    EntriesPaired(c, fp);
    var es := Entries(c, fp);
    MountParameters(ConfigFilePath(c.mountingDir), VolumesOf(es), MountsOf(es))
  }

  // ---------------------------------------------------------------- properties

  /** The planned roles are exactly the roles whose asset is a Secret or ConfigMap reference. */
  lemma PlannedRolesExact(f: WebConfigFileFields, r: Role)
    ensures r in PlannedRoles(f) <==> AssetOf(f, r).IsReference()
  {
    assert r in Roles by { match r case KeyRole => case CertRole => case ClientCARole => }
  }

  predicate StrictlyOrdered(rs: seq<Role>) {
    forall i, j :: 0 <= i < j < |rs| ==> Rank(rs[i]) < Rank(rs[j])
  }

  lemma {:induction false} ReferencedRolesOrdered(tls: WebTLSConfig, roles: seq<Role>)
    requires StrictlyOrdered(roles)
    ensures StrictlyOrdered(ReferencedRoles(tls, roles))
  {
    if roles != [] {
      var rest := ReferencedRoles(tls, roles[1..]);
      assert StrictlyOrdered(roles[1..]) by {
        forall i, j | 0 <= i < j < |roles[1..]| ensures Rank(roles[1..][i]) < Rank(roles[1..][j]) {
          assert roles[1..][i] == roles[i + 1] && roles[1..][j] == roles[j + 1];
        }
      }
      ReferencedRolesOrdered(tls, roles[1..]);
      if AssetFor(tls, roles[0]).IsReference() {
        var rs := [roles[0]] + rest;
        forall j | 0 < j < |rs| ensures Rank(rs[0]) < Rank(rs[j]) {
          assert rs[j] == rest[j - 1];
          assert rest[j - 1] in roles[1..];
          var k :| 0 <= k < |roles[1..]| && roles[1..][k] == rest[j - 1];
          assert roles[k + 1] == rest[j - 1];
        }
        forall i, j | 0 <= i < j < |rs| ensures Rank(rs[i]) < Rank(rs[j]) {
          if i > 0 {
            assert rs[i] == rest[i - 1] && rs[j] == rest[j - 1];
          }
        }
      }
    }
  }

  /** The filter over the three roles, written out. */
  lemma ReferencedRolesOfRoles(tls: WebTLSConfig)
    ensures ReferencedRoles(tls, Roles) ==
              (if tls.keySecret.IsReference() then [KeyRole] else [])
              + (if tls.cert.IsReference() then [CertRole] else [])
              + (if tls.clientCA.IsReference() then [ClientCARole] else [])
  {
    var last := if tls.clientCA.IsReference() then [ClientCARole] else [];
    assert [ClientCARole][1..] == [];
    assert ReferencedRoles(tls, [ClientCARole]) == last;
    assert [CertRole, ClientCARole][1..] == [ClientCARole];
    assert ReferencedRoles(tls, [CertRole, ClientCARole]) ==
             (if tls.cert.IsReference() then [CertRole] else []) + last;
    assert Roles[1..] == [CertRole, ClientCARole];
  }

  /** The planned roles never repeat and follow the order key, certificate, client CA. */
  lemma PlannedRolesOrdered(f: WebConfigFileFields)
    ensures StrictlyOrdered(PlannedRoles(f))
  {
    if f.tlsConfig.Some? {
      ReferencedRolesOrdered(f.tlsConfig.value, Roles);
    }
  }

  /** Pair j (after the document's pair 0) of the plan is the volume and mount
      of planned role j - 1. */
  lemma MountParametersByRole(c: Config, fp: Fingerprinter, j: nat)
    requires 1 <= j <= |PlannedRoles(c.fields)|
    ensures var p := GetMountParameters(c, fp);
            var r := PlannedRoles(c.fields)[j - 1];
            var a := AssetOf(c.fields, r);
            && a.IsReference()
            && p.volumes[j] == AssetVolume(a, r, fp)
            && p.mounts[j] == AssetMount(c.mountingDir, a, r, fp)
  {
    var tls := c.fields.tlsConfig.value;
    var es := Entries(c, fp);
    var tail := AssetEntries(c.mountingDir, tls, Roles, fp);
    AssetEntriesByRole(c.mountingDir, tls, Roles, fp);
    assert es == [es[0]] + tail;
    var r := PlannedRoles(c.fields)[j - 1];
    assert es[j] == tail[j - 1] == AssetEntry(c.mountingDir, AssetFor(tls, r), r, fp);
  }

  /** The plan has one pair for the document plus one per referenced TLS file. */
  lemma VolumeCount(c: Config, fp: Fingerprinter)
    ensures var p := GetMountParameters(c, fp);
            |p.volumes| == |p.mounts| ==
              1 + (if AssetOf(c.fields, KeyRole).IsReference() then 1 else 0)
                + (if AssetOf(c.fields, CertRole).IsReference() then 1 else 0)
                + (if AssetOf(c.fields, ClientCARole).IsReference() then 1 else 0)
  {
    if c.fields.tlsConfig.Some? {
      ReferencedRolesOfRoles(c.fields.tlsConfig.value);
    }
  }

  /** The name of a Secret-backed TLS volume, written out. */
  lemma SecretVolumeNameIs(a: Asset, r: Role, fp: Fingerprinter)
    requires a.SecretRef?
    ensures AssetVolumeName(a, r, fp) == "web-config-tls-secret-" + VolumeLabel(r) + "-" + a.name + "-" + fp(a.name)
  {
    assert TLSVolumePrefix + "secret" + "-" == "web-config-tls-secret-";
  }

  /** Pair j of the plan, when planned role j - 1 is Secret-backed, written out. */
  lemma SecretEntryAt(c: Config, fp: Fingerprinter, j: nat, r: Role)
    requires 1 <= j <= |PlannedRoles(c.fields)| && PlannedRoles(c.fields)[j - 1] == r
    requires AssetOf(c.fields, r).SecretRef?
    ensures var p := GetMountParameters(c, fp);
            var n := AssetOf(c.fields, r).name;
            var vname := "web-config-tls-secret-" + VolumeLabel(r) + "-" + n + "-" + fp(n);
            p.volumes[j] == Volume(vname, SecretSource(n)) &&
            p.mounts[j] == VolumeMount(vname, true, c.mountingDir + "/secret/" + n + MountSuffix(r), "")
  {
    MountParametersByRole(c, fp, j);
    SecretVolumeNameIs(AssetOf(c.fields, r), r, fp);
  }

  /** A Secret-referenced TLS file is mounted read-only, as a whole volume, at
      `<dir>/secret/<name>-<key|cert|ca>`, from a volume named
      `web-config-tls-secret-<key|cert|client-ca>-<name>-<fingerprint of name>`
      whose source is that Secret. */
  lemma SecretReferenceMount(c: Config, fp: Fingerprinter, r: Role)
    requires AssetOf(c.fields, r).SecretRef?
    ensures var p := GetMountParameters(c, fp);
            var n := AssetOf(c.fields, r).name;
            var vname := "web-config-tls-secret-" + VolumeLabel(r) + "-" + n + "-" + fp(n);
            exists i :: 1 <= i < |p.volumes| &&
              p.volumes[i] == Volume(vname, SecretSource(n)) &&
              p.mounts[i] == VolumeMount(vname, true, c.mountingDir + "/secret/" + n + MountSuffix(r), "")
  {
    var rs := PlannedRoles(c.fields);
    PlannedRolesExact(c.fields, r);
    var k :| 0 <= k < |rs| && rs[k] == r;
    SecretEntryAt(c, fp, k + 1, r);
  }

  /** A ConfigMap-referenced TLS file is mounted read-only, as a whole volume, in
      the same directory and under the same file name as a Secret-referenced one,
      from a volume whose source is that ConfigMap. */
  lemma ConfigMapReferenceMount(c: Config, fp: Fingerprinter, r: Role)
    requires AssetOf(c.fields, r).ConfigMapRef?
    ensures var p := GetMountParameters(c, fp);
            var n := AssetOf(c.fields, r).name;
            exists i :: 1 <= i < |p.volumes| &&
              p.volumes[i].source == ConfigMapSource(n) &&
              p.mounts[i] == VolumeMount(p.volumes[i].name, true, c.mountingDir + "/secret/" + n + MountSuffix(r), "")
  {
    var rs := PlannedRoles(c.fields);
    PlannedRolesExact(c.fields, r);
    var k :| 0 <= k < |rs| && rs[k] == r;
    ConfigMapEntryAt(c, fp, k + 1, r);
  }

  /** Pair j of the plan, when planned role j - 1 is ConfigMap-backed. */
  lemma ConfigMapEntryAt(c: Config, fp: Fingerprinter, j: nat, r: Role)
    requires 1 <= j <= |PlannedRoles(c.fields)| && PlannedRoles(c.fields)[j - 1] == r
    requires AssetOf(c.fields, r).ConfigMapRef?
    ensures var p := GetMountParameters(c, fp);
            var n := AssetOf(c.fields, r).name;
            p.volumes[j].source == ConfigMapSource(n) &&
            p.mounts[j] == VolumeMount(p.volumes[j].name, true, c.mountingDir + "/secret/" + n + MountSuffix(r), "")
  {
    MountParametersByRole(c, fp, j);
  }

  /** A TLS file that is a literal file or unset gets no volume: with no reference
      at all, the plan is the document pair alone. */
  lemma LiteralFilesAddNoMounts(c: Config, fp: Fingerprinter)
    requires forall r :: !AssetOf(c.fields, r).IsReference()
    ensures var p := GetMountParameters(c, fp);
            p.volumes == [Volume("web-config", SecretSource(c.secretName))] &&
            p.mounts == [VolumeMount("web-config", true, c.mountingDir + "/web-config.yaml", "web-config.yaml")]
  {
    var p := GetMountParameters(c, fp);
    VolumeCount(c, fp);
    assert !AssetOf(c.fields, KeyRole).IsReference();
    assert !AssetOf(c.fields, CertRole).IsReference();
    assert !AssetOf(c.fields, ClientCARole).IsReference();
    ConfigFilePathIs(c.mountingDir);
    assert p.volumes == [p.volumes[0]];
    assert p.mounts == [p.mounts[0]];
  }

  /** Without a TLS block the plan is the document volume, sourced from the Secret
      `New` was given, mounted read-only at `<dir>/web-config.yaml` with sub-path
      `web-config.yaml`. */
  lemma NoTLSPlan(c: Config, fp: Fingerprinter)
    requires c.fields.tlsConfig.None?
    ensures var p := GetMountParameters(c, fp);
            p.configFilePath == c.mountingDir + "/web-config.yaml" &&
            p.volumes == [Volume("web-config", SecretSource(c.secretName))] &&
            p.mounts == [VolumeMount("web-config", true, c.mountingDir + "/web-config.yaml", "web-config.yaml")]
  {
    LiteralFilesAddNoMounts(c, fp);
  }

  /** With key, certificate and client CA all taken from Secrets the plan is, in
      this order: document, key, certificate, client CA. The keys inside the
      Secrets play no part in the names. */
  lemma AllSecretsPlan(c: Config, fp: Fingerprinter)
    requires c.fields.tlsConfig.Some?
    requires var tls := c.fields.tlsConfig.value;
             tls.keySecret.SecretRef? && tls.cert.SecretRef? && tls.clientCA.SecretRef?
    ensures var tls := c.fields.tlsConfig.value;
            var (nk, nc, na) := (tls.keySecret.name, tls.cert.name, tls.clientCA.name);
            var p := GetMountParameters(c, fp);
            && p.volumes == [
                 Volume("web-config", SecretSource(c.secretName)),
                 Volume("web-config-tls-secret-key-" + nk + "-" + fp(nk), SecretSource(nk)),
                 Volume("web-config-tls-secret-cert-" + nc + "-" + fp(nc), SecretSource(nc)),
                 Volume("web-config-tls-secret-client-ca-" + na + "-" + fp(na), SecretSource(na))]
            && p.mounts == [
                 VolumeMount("web-config", true, c.mountingDir + "/web-config.yaml", "web-config.yaml"),
                 VolumeMount("web-config-tls-secret-key-" + nk + "-" + fp(nk), true, c.mountingDir + "/secret/" + nk + "-key", ""),
                 VolumeMount("web-config-tls-secret-cert-" + nc + "-" + fp(nc), true, c.mountingDir + "/secret/" + nc + "-cert", ""),
                 VolumeMount("web-config-tls-secret-client-ca-" + na + "-" + fp(na), true, c.mountingDir + "/secret/" + na + "-ca", "")]
  {
    AllSecretsVolumes(c, fp);
    AllSecretsMounts(c, fp);
  }

  lemma AllSecretsEntries(c: Config, fp: Fingerprinter)
    requires c.fields.tlsConfig.Some?
    requires var tls := c.fields.tlsConfig.value;
             tls.keySecret.SecretRef? && tls.cert.SecretRef? && tls.clientCA.SecretRef?
    ensures PlannedRoles(c.fields) == [KeyRole, CertRole, ClientCARole]
  {
    ReferencedRolesOfRoles(c.fields.tlsConfig.value);
  }

  lemma AllSecretsVolumes(c: Config, fp: Fingerprinter)
    requires c.fields.tlsConfig.Some?
    requires var tls := c.fields.tlsConfig.value;
             tls.keySecret.SecretRef? && tls.cert.SecretRef? && tls.clientCA.SecretRef?
    ensures var tls := c.fields.tlsConfig.value;
            var (nk, nc, na) := (tls.keySecret.name, tls.cert.name, tls.clientCA.name);
            GetMountParameters(c, fp).volumes == [
                 Volume("web-config", SecretSource(c.secretName)),
                 Volume("web-config-tls-secret-key-" + nk + "-" + fp(nk), SecretSource(nk)),
                 Volume("web-config-tls-secret-cert-" + nc + "-" + fp(nc), SecretSource(nc)),
                 Volume("web-config-tls-secret-client-ca-" + na + "-" + fp(na), SecretSource(na))]
  {
    var p := GetMountParameters(c, fp);
    AllSecretsEntries(c, fp);
    SecretEntryAt(c, fp, 1, KeyRole);
    SecretEntryAt(c, fp, 2, CertRole);
    SecretEntryAt(c, fp, 3, ClientCARole);
    AllSecretsLabels();
    assert p.volumes == [p.volumes[0], p.volumes[1], p.volumes[2], p.volumes[3]];
  }

  lemma AllSecretsMounts(c: Config, fp: Fingerprinter)
    requires c.fields.tlsConfig.Some?
    requires var tls := c.fields.tlsConfig.value;
             tls.keySecret.SecretRef? && tls.cert.SecretRef? && tls.clientCA.SecretRef?
    ensures var tls := c.fields.tlsConfig.value;
            var (nk, nc, na) := (tls.keySecret.name, tls.cert.name, tls.clientCA.name);
            GetMountParameters(c, fp).mounts == [
                 VolumeMount("web-config", true, c.mountingDir + "/web-config.yaml", "web-config.yaml"),
                 VolumeMount("web-config-tls-secret-key-" + nk + "-" + fp(nk), true, c.mountingDir + "/secret/" + nk + "-key", ""),
                 VolumeMount("web-config-tls-secret-cert-" + nc + "-" + fp(nc), true, c.mountingDir + "/secret/" + nc + "-cert", ""),
                 VolumeMount("web-config-tls-secret-client-ca-" + na + "-" + fp(na), true, c.mountingDir + "/secret/" + na + "-ca", "")]
  {
    var p := GetMountParameters(c, fp);
    AllSecretsEntries(c, fp);
    SecretEntryAt(c, fp, 1, KeyRole);
    SecretEntryAt(c, fp, 2, CertRole);
    SecretEntryAt(c, fp, 3, ClientCARole);
    AllSecretsLabels();
    ConfigFilePathIs(c.mountingDir);
    assert p.mounts == [p.mounts[0], p.mounts[1], p.mounts[2], p.mounts[3]];
  }

  lemma AllSecretsLabels()
    ensures "web-config-tls-secret-" + VolumeLabel(KeyRole) + "-" == "web-config-tls-secret-key-"
    ensures "web-config-tls-secret-" + VolumeLabel(CertRole) + "-" == "web-config-tls-secret-cert-"
    ensures "web-config-tls-secret-" + VolumeLabel(ClientCARole) + "-" == "web-config-tls-secret-client-ca-"
  {
  }

  /** A character of a TLS volume name inside its prefix is the prefix's character. */
  lemma VolumeNameAt(a: Asset, r: Role, fp: Fingerprinter, k: nat)
    requires a.IsReference() && k < |VolumeNamePrefix(StoreKind(a), r)|
    ensures AssetVolumeName(a, r, fp)[k] == VolumeNamePrefix(StoreKind(a), r)[k]
  {
  }

  lemma AssetVolumeNamesDiffer(a1: Asset, r1: Role, a2: Asset, r2: Role, fp: Fingerprinter)
    requires a1.IsReference() && a2.IsReference() && r1 != r2
    ensures AssetVolumeName(a1, r1, fp) != AssetVolumeName(a2, r2, fp)
  {
    var k1, k2 := StoreKind(a1), StoreKind(a2);
    var p1, p2 := VolumeNamePrefix(k1, r1), VolumeNamePrefix(k2, r2);
    var k: nat;
    if k1 != k2 {
      k := 15;
      assert p1[k] == k1[0] && p2[k] == k2[0];
    } else {
      var l1, l2 := VolumeLabel(r1), VolumeLabel(r2);
      var d := if l1[0] == l2[0] then 1 else 0;
      k := 16 + |k1| + d;
      assert p1[k] == l1[d] && p2[k] == l2[d];
    }
    VolumeNameAt(a1, r1, fp, k);
    VolumeNameAt(a2, r2, fp, k);
  }

  /** Volume j of a plan differs in name from every earlier volume i. */
  lemma VolumeNamesDiffer(c: Config, fp: Fingerprinter, i: nat, j: nat)
    requires i < j < |GetMountParameters(c, fp).volumes|
    ensures GetMountParameters(c, fp).volumes[i].name != GetMountParameters(c, fp).volumes[j].name
  {
    var p := GetMountParameters(c, fp);
    var rs := PlannedRoles(c.fields);
    MountParametersByRole(c, fp, j);
    var aj := AssetOf(c.fields, rs[j - 1]);
    assert p.volumes[j].name == AssetVolumeName(aj, rs[j - 1], fp);
    if i == 0 {
      AssetVolumeNameLong(aj, rs[j - 1], fp);
    } else {
      PlannedRolesOrdered(c.fields);
      assert Rank(rs[i - 1]) < Rank(rs[j - 1]);
      MountParametersByRole(c, fp, i);
      var ai := AssetOf(c.fields, rs[i - 1]);
      assert p.volumes[i].name == AssetVolumeName(ai, rs[i - 1], fp);
      AssetVolumeNamesDiffer(ai, rs[i - 1], aj, rs[j - 1], fp);
    }
  }

  lemma AssetVolumeNameLong(a: Asset, r: Role, fp: Fingerprinter)
    requires a.IsReference()
    ensures |AssetVolumeName(a, r, fp)| > |ConfigVolumeName|
  {
  }


  /** No two volumes of a plan have the same name, even when several TLS files
      come from one object: the role inside the name keeps them apart. */
  lemma VolumeNamesDistinct(c: Config, fp: Fingerprinter)
    ensures var p := GetMountParameters(c, fp);
            forall i, j :: 0 <= i < j < |p.volumes| ==> p.volumes[i].name != p.volumes[j].name
  {
    var p := GetMountParameters(c, fp);
    forall i, j | 0 <= i < j < |p.volumes| ensures p.volumes[i].name != p.volumes[j].name {
      VolumeNamesDiffer(c, fp, i, j);
    }
  }

  /** The last character of every mount path tells which file it is:
      'l' for the document, 'y' for the key, 't' for the certificate, 'a' for the client CA. */
  function LastChar(r: Role): char {
    match r
    case KeyRole => 'y'
    case CertRole => 't'
    case ClientCARole => 'a'
  }

  lemma MountPathLast(c: Config, fp: Fingerprinter, i: nat)
    requires i < |GetMountParameters(c, fp).mounts|
    ensures var path := GetMountParameters(c, fp).mounts[i].mountPath;
            |path| > 0 && path[|path| - 1] == if i == 0 then 'l' else LastChar(PlannedRoles(c.fields)[i - 1])
  {
    var p := GetMountParameters(c, fp);
    if i == 0 {
      ConfigFilePathEnd(c.mountingDir);
    } else {
      MountParametersByRole(c, fp, i);
      var r := PlannedRoles(c.fields)[i - 1];
      AssetMountPathEnd(c.mountingDir, AssetOf(c.fields, r), r);
    }
  }

  lemma AssetMountPathEnd(mountingDir: string, a: Asset, r: Role)
    requires a.IsReference()
    ensures var path := AssetMountPath(mountingDir, a, r); |path| > 0 && path[|path| - 1] == LastChar(r)
  {
  }

  lemma ConfigFilePathEnd(mountingDir: string)
    ensures var path := ConfigFilePath(mountingDir); |path| > 0 && path[|path| - 1] == 'l'
  {
  }

  lemma MountPathsDiffer(c: Config, fp: Fingerprinter, i: nat, j: nat)
    requires i < j < |GetMountParameters(c, fp).mounts|
    ensures GetMountParameters(c, fp).mounts[i].mountPath != GetMountParameters(c, fp).mounts[j].mountPath
  {
    var rs := PlannedRoles(c.fields);
    var p := GetMountParameters(c, fp);
    var pi, pj := p.mounts[i].mountPath, p.mounts[j].mountPath;
    MountPathLast(c, fp, i);
    MountPathLast(c, fp, j);
    var cj := LastChar(rs[j - 1]);
    assert pj[|pj| - 1] == cj;
    if i == 0 {
      assert pi[|pi| - 1] == 'l';
      LastCharNotL(rs[j - 1]);
    } else {
      PlannedRolesOrdered(c.fields);
      assert Rank(rs[i - 1]) < Rank(rs[j - 1]);
      LastCharInjective(rs[i - 1], rs[j - 1]);
      assert pi[|pi| - 1] == LastChar(rs[i - 1]);
    }
    LastCharsDiffer(pi, pj);
  }

  lemma LastCharInjective(r1: Role, r2: Role)
    requires r1 != r2
    ensures LastChar(r1) != LastChar(r2)
  {
  }

  lemma LastCharNotL(r: Role)
    ensures LastChar(r) != 'l'
  {
  }

  lemma LastCharsDiffer(s: string, t: string)
    requires |s| > 0 && |t| > 0 && s[|s| - 1] != t[|t| - 1]
    ensures s != t
  {
  }

  /** No two mounts of a plan share a mount path. */
  lemma MountPathsDistinct(c: Config, fp: Fingerprinter)
    ensures var p := GetMountParameters(c, fp);
            forall i, j :: 0 <= i < j < |p.mounts| ==> p.mounts[i].mountPath != p.mounts[j].mountPath
  {
    var p := GetMountParameters(c, fp);
    forall i, j | 0 <= i < j < |p.mounts| ensures p.mounts[i].mountPath != p.mounts[j].mountPath {
      MountPathsDiffer(c, fp, i, j);
    }
  }

  predicate EndsWith(s: string, suffix: string) {
    |suffix| <= |s| && s[|s| - |suffix|..] == suffix
  }

  lemma EndsWithAppended(a: string, b: string, c: string)
    ensures EndsWith(a + b + c, b + c)
  {
    assert (a + b + c)[|a|..] == b + c;
  }

  /** Several TLS files taken from one Secret share its fingerprint: each of their
      volume names ends with `-<fingerprint of the Secret's name>`, whatever key
      each file uses, and each volume is sourced from that Secret. */
  lemma SharedSecretFingerprint(c: Config, fp: Fingerprinter, n: string)
    requires c.fields.tlsConfig.Some?
    requires var tls := c.fields.tlsConfig.value;
             tls.keySecret.SecretRef? && tls.cert.SecretRef? && tls.clientCA.SecretRef? &&
             tls.keySecret.name == n && tls.cert.name == n && tls.clientCA.name == n
    ensures var p := GetMountParameters(c, fp);
            |p.volumes| == 4 &&
            forall i :: 1 <= i < 4 ==> EndsWith(p.volumes[i].name, "-" + fp(n)) && p.volumes[i].source == SecretSource(n)
  {
    AllSecretsVolumes(c, fp);
    EndsWithAppended("web-config-tls-secret-key-" + n, "-", fp(n));
    EndsWithAppended("web-config-tls-secret-cert-" + n, "-", fp(n));
    EndsWithAppended("web-config-tls-secret-client-ca-" + n, "-", fp(n));
  }

  /** Settings that only shape the document (the HTTP block) do not change the plan. */
  lemma PlanIgnoresHTTPConfig(c: Config, h: Option<WebHTTPConfig>, fp: Fingerprinter)
    ensures GetMountParameters(c, fp) == GetMountParameters(c.(fields := c.fields.(httpConfig := h)), fp)
  {
  }
}
