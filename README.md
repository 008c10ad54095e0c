# Web configuration mounts and Secret of a monitored server

This project models the web configuration core of the Prometheus operator (`pkg/webconfig`).
From the web-config file fields of a server (an optional TLS block, an optional HTTP block),
a mounting directory and a Secret name, `webconfig.New` builds a configuration. That
configuration does two things:

- `GetMountParameters` plans the volumes and volume mounts the server container needs:
  - the document `web-config.yaml` is mounted first, from the volume `web-config`, with that
    file name as sub-path;
  - then comes one read-only whole-volume mount per TLS file (key, certificate, client CA, in
    that order) that references a Secret or a ConfigMap;
  - a file from a Secret is mounted at `<dir>/secret/<object>-<key|cert|ca>`, from a volume
    named `web-config-tls-secret-<key|cert|client-ca>-<object>-<fingerprint>`;
  - a file from a ConfigMap is assumed to be mounted the same way, from a volume named
    `web-config-tls-configmap-<key|cert|client-ca>-<object>-<fingerprint>`. No test shows
    either the name or the path of a ConfigMap mount;
  - TLS files given as literal paths on the server's filesystem get no volume.
- `CreateOrUpdateWebConfigSecret` stores the document under the data key `web-config.yaml`
  in the Secret named at `New`. It creates the Secret when a get finds none, and updates it
  otherwise.

The behaviour modelled is the one asserted by `pkg/webconfig/config_test.go`. That test pins
down two points that a looser description of the component could read differently:

- The TLS volume names carry the prefix `web-config-tls-` before the store kind.
- Within one Secret, the eight-hex-digit fingerprint at the end of a TLS volume name depends
  neither on the key nor on the role. The test gives the same `3556f148` for the keys
  `tls.key`, `tls.crt` and `tls.client_ca` of the Secret "some-secret".

The fingerprint's algorithm is not shown. Every operation that needs it therefore takes it as
the parameter `fp: Fingerprinter`, a function from an object name to eight lower-case
hexadecimal digits. That `fp` also ignores the store kind is a modelling choice, not
something the test shows.

Files:

- `wrappers.dfy`: `Option`, for the source's optional pointer fields.
- `webconfig.dfy`: the input fields, `Config`/`New`, and the naming constants and roles.
- `mounts.dfy`: mount planning and its properties:
  - exact contents of each pair;
  - order;
  - count;
  - distinct names and paths;
  - shared fingerprints.
- `secret.dfy`: persisting the document into a store of Secrets, and how that store relates
  to the document mount.
- `test_cases.dfy`: the two cases of the mount-planning table, with every string written out.

## Model

| member | source | states |
|---|---|---|
| WebConfig.New | pkg/webconfig/config_test.go:329-330 | the configuration keeps the mounting directory, the Secret name and the fields it was given, for any input (validation is left out) |
| WebConfigMounts.GetMountParameters | pkg/webconfig/config_test.go:259-323 | volumes and mounts have equal length, one more than the number of referenced TLS files; pair 0 is the document volume and mount; the returned config-file path is the document mount's path; mount i has volume i's name and is read-only |
| WebConfigMounts.ConfigFilePathIs | pkg/webconfig/config_test.go:225-226 | the document is mounted at `<dir>/web-config.yaml` |
| WebConfigMounts.ReferencedRoles | pkg/webconfig/config_test.go:259-291 | a role is kept exactly when it is in the input and its asset is a Secret or ConfigMap reference; the result is no longer than the input |
| WebConfigMounts.PlannedRolesExact | pkg/webconfig/config_test.go:259-291 | a TLS file gets a volume if and only if it references a Secret or a ConfigMap |
| WebConfigMounts.ReferencedRolesOrdered | pkg/webconfig/config_test.go:267-290 | filtering an ordered list of roles keeps it strictly ordered |
| WebConfigMounts.PlannedRolesOrdered | pkg/webconfig/config_test.go:267-290 | planned roles never repeat and come in the order key, certificate, client CA |
| WebConfigMounts.ReferencedRolesOfRoles | pkg/webconfig/config_test.go:259-291 | the planned roles are key if referenced, then certificate if referenced, then client CA if referenced |
| WebConfigMounts.AssetEntriesByRole | pkg/webconfig/config_test.go:259-323 | the TLS pairs are exactly one pair per referenced role, in role order, each built from that role's asset |
| WebConfigMounts.MountParametersByRole | pkg/webconfig/config_test.go:267-322 | pair j ≥ 1 of the plan is the volume and mount of the (j-1)th planned role's asset |
| WebConfigMounts.VolumeCount | pkg/webconfig/config_test.go:211-291 | the plan has 1 + (key referenced) + (cert referenced) + (client CA referenced) pairs |
| WebConfigMounts.SecretVolumeNameIs | pkg/webconfig/config_test.go:269-285 | a Secret-backed TLS volume is named `web-config-tls-secret-<label>-<name>-<fp(name)>` |
| WebConfigMounts.SecretEntryAt | pkg/webconfig/config_test.go:267-322 | a Secret-backed pair is that literal volume name, sourced from the Secret, mounted read-only at `<dir>/secret/<name><-key/-cert/-ca>` with no sub-path |
| WebConfigMounts.SecretReferenceMount | pkg/webconfig/config_test.go:267-322 | every Secret-referenced TLS file has such a pair somewhere after the document pair |
| WebConfigMounts.ConfigMapEntryAt | pkg/webconfig/config_test.go:63-116 | a ConfigMap-backed pair is sourced from that ConfigMap and mounted read-only, with no sub-path, at `<dir>/secret/<name><-key/-cert/-ca>`; this path is an assumption (see "Left out") |
| WebConfigMounts.ConfigMapReferenceMount | pkg/webconfig/config_test.go:63-116 | every ConfigMap-referenced TLS file has such a pair somewhere after the document pair, under the same assumed path |
| WebConfigMounts.LiteralFilesAddNoMounts | pkg/webconfig/config_test.go:155-163 | when no TLS file is a reference (for example, all are literal files), the plan is exactly the document pair |
| WebConfigMounts.NoTLSPlan | pkg/webconfig/config_test.go:210-230 | without a TLS block the plan is exactly `web-config` from the named Secret, mounted read-only at `<dir>/web-config.yaml` with sub-path `web-config.yaml` |
| WebConfigMounts.AllSecretsEntries | pkg/webconfig/config_test.go:259-291 | with key, certificate and client CA all from Secrets, the planned roles are key, cert, client CA |
| WebConfigMounts.AllSecretsVolumes | pkg/webconfig/config_test.go:259-291 | in that case the four volumes are exactly the listed literal names and sources, in order |
| WebConfigMounts.AllSecretsMounts | pkg/webconfig/config_test.go:292-323 | in that case the four mounts are exactly the listed literal names, paths and sub-paths, in order |
| WebConfigMounts.AllSecretsPlan | pkg/webconfig/config_test.go:259-323 | the whole four-pair plan for that case, volumes and mounts together |
| WebConfigMounts.AssetVolumeNamesDiffer | pkg/webconfig/config_test.go:269-285 | two TLS volume names for different roles always differ, whatever the objects and fingerprints |
| WebConfigMounts.VolumeNamesDiffer | pkg/webconfig/config_test.go:259-291 | volume j differs in name from every earlier volume i |
| WebConfigMounts.VolumeNamesDistinct | pkg/webconfig/config_test.go:259-291 | no two volumes of any plan share a name, even when all TLS files come from one Secret |
| WebConfigMounts.MountPathsDiffer | pkg/webconfig/config_test.go:292-323 | mount j differs in path from every earlier mount i |
| WebConfigMounts.MountPathsDistinct | pkg/webconfig/config_test.go:292-323 | no two mounts of any plan share a mount path |
| WebConfigMounts.SharedSecretFingerprint | pkg/webconfig/config_test.go:233-290 | when one Secret supplies key, cert and client CA under different keys, all three volume names end in `-<fp(name)>` and are sourced from that Secret |
| WebConfigMounts.PlanIgnoresHTTPConfig | pkg/webconfig/config_test.go:164-178 | changing the HTTP block leaves the plan unchanged |
| WebConfigSecret.DesiredSecret | pkg/webconfig/config_test.go:185-198 | the Secret to persist has the name given to `New` and the single data key `web-config.yaml` holding the document |
| WebConfigSecret.CreateOrUpdateSecret | pkg/webconfig/config_test.go:190-195 | the call creates if and only if the name was absent; afterwards the store holds the desired Secret under its name, its names are the old ones plus that name, and every other Secret is unchanged |
| WebConfigSecret.CreateOrUpdateWebConfigSecret | pkg/webconfig/config_test.go:185-198 | afterwards the store holds exactly `{web-config.yaml: document}` under the Secret name given to `New`; its names are the old ones plus that name; every other Secret is unchanged |
| WebConfigSecret.PersistedDocumentReadBack | pkg/webconfig/config_test.go:185-198 | getting the Secret back by the name given to `New` yields exactly `{web-config.yaml: document}`; no other Secret is added or changed |
| WebConfigSecret.PersistIdempotent | pkg/webconfig/config_test.go:185-198 | persisting the same document a second time leaves the store unchanged |
| WebConfigSecret.DocumentMountServesPersistedDocument | pkg/webconfig/config_test.go:211-226 | the document mount's volume is the persisted Secret, and its sub-path is the data key holding the document |
| WebConfigSecret.PersistTableCase | pkg/webconfig/config_test.go:182-199 | for every table case, `New("/web_certs_path_prefix", "test-secret", fields)` persisted into an empty namespace creates exactly `{test-secret: {web-config.yaml: document}}` |
| WebConfigTestCases.EmptyFieldsCase | pkg/webconfig/config_test.go:209-230 | the first mount-planning case, with its expected volume and mount written out literally |
| WebConfigTestCases.SomeSecretCase | pkg/webconfig/config_test.go:231-324 | the second mount-planning case, all four volumes and mounts written out literally, given that `fp("some-secret") == "3556f148"` |

## Left out

- Document content: the YAML serialisation of the TLS and HTTP blocks and the golden files
  are not modelled. `CreateOrUpdateWebConfigSecret` takes the document's bytes as a parameter.
- Fingerprint algorithm: the hash behind the eight hex digits is not modelled. It is the
  parameter `fp`. `SomeSecretCase` assumes the test's value `3556f148` for "some-secret".
- The external Secret client: the fake clientset, the namespace selection, the context,
  network errors and their propagation are left out. The store is a map of one namespace,
  and a call always succeeds.
- The existing-object argument of `CreateOrUpdateWebConfigSecret`: it is not modelled.
  Merging labels, annotations or owner references on update is not shown and is left out.
- Validation errors of `New` and `GetMountParameters`: they are left out. Three kinds of
  input cannot be built in this model:
  - a selector with both a Secret and a ConfigMap, because `Asset` is a sum type;
  - a ConfigMap private key, because `KeyAsset` excludes ConfigMaps;
  - a reference together with a literal file for the same role. The source has separate
    fields `KeySecret`/`KeyFile`, `Cert`/`CertFile` and `ClientCA`/`ClientCAFile`; each pair
    is one `Asset` here. Which of the two the source uses when both are set is not modelled.
- WebConfigMounts.ConfigMapEntryAt: ConfigMap-backed volume names are built by analogy, with
  the kind `configmap` in place of `secret`. No test shows them, so no lemma states their
  literal form. The mount path stated for a ConfigMap-backed file is
  `<dir>/secret/<name><-key/-cert/-ca>`, the path of a Secret-backed file. That is an
  assumption: no test shows where a ConfigMap is mounted.
- WebConfigMounts.ConfigMapReferenceMount: it rests on the same assumed `/secret/` mount path
  for ConfigMap references as `ConfigMapEntryAt`.
- Fingerprint and store kind: `fp` takes the object name only, so a Secret and a ConfigMap
  with the same name share a fingerprint. The test shows only that the key and the role do
  not matter within one Secret. Ignoring the kind is a modelling choice.
- WebConfigMounts.GetMountParameters: mount paths are plain string concatenation. The path
  cleaning that Go's `path.Join` performs (duplicate or trailing slashes) is left out.
- Kubernetes limits on volume-name length, and the `MountPropagation` and `SubPathExpr`
  fields (always unset in the test), are not modelled.
