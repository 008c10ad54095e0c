/**
 Persistence of the web configuration document: `CreateOrUpdateWebConfigSecret`
 writes the document, under the data key `web-config.yaml`, into the Secret
 whose name was given to `New`. The Secret store of one namespace is a map from
 Secret names to Secrets; the document's bytes are produced by the configuration
 builder, which this model does not include, and are given as a parameter.
 */
module WebConfigSecret {
  import opened Wrappers
  import opened WebConfig
  import opened WebConfigMounts

  datatype Secret = Secret(name: string, data: map<string, seq<byte>>)

  /** The Secrets of one namespace, by name. */
  type SecretStore = map<string, Secret>

  /** The Secret `CreateOrUpdateWebConfigSecret` asks the store to hold. */
  function DesiredSecret(c: Config, document: seq<byte>): (s: Secret)
    ensures s.name == c.secretName && s.data.Keys == {ConfigFile} && s.data[ConfigFile] == document
  {
    Secret(c.secretName, map[ConfigFile := document])
  }

  /** Which of the store's two writes a persisting call made. */
  datatype Action = Created | Updated

  /** Get the Secret of that name, then create it when the get finds nothing and
      update it to the desired one otherwise. Either way the store then holds the
      desired Secret under its name and no other Secret changes. */
  function CreateOrUpdateSecret(store: SecretStore, desired: Secret): (r: (SecretStore, Action))
    ensures r.1 == Created <==> desired.name !in store
    ensures desired.name in r.0 && r.0[desired.name] == desired
    ensures r.0.Keys == store.Keys + {desired.name}
    ensures forall n :: n in store && n != desired.name ==> r.0[n] == store[n]
  {
    if desired.name in store then
      (store[desired.name := desired], Updated)
    else
      (store[desired.name := desired], Created)
  }

  /** The store after `CreateOrUpdateWebConfigSecret`: the Secret named at `New`
      holds the document under `web-config.yaml` and nothing else, and every other
      Secret of the namespace is left as it was. */
  function CreateOrUpdateWebConfigSecret(c: Config, store: SecretStore, document: seq<byte>): (r: SecretStore)
    ensures c.secretName in r && r[c.secretName] == Secret(c.secretName, map["web-config.yaml" := document])
    ensures r.Keys == store.Keys + {c.secretName}
    ensures forall n :: n in store && n != c.secretName ==> r[n] == store[n]
  {
    CreateOrUpdateSecret(store, DesiredSecret(c, document)).0
  }

  /** Reading the Secret back after persisting gives the document under `web-config.yaml`
      and no other data key; every other Secret keeps its value. */
  lemma PersistedDocumentReadBack(c: Config, store: SecretStore, document: seq<byte>)
    ensures var r := CreateOrUpdateWebConfigSecret(c, store, document);
            && c.secretName in r
            && r[c.secretName].name == c.secretName
            && r[c.secretName].data == map["web-config.yaml" := document]
            && (forall n :: n in store && n != c.secretName ==> n in r && r[n] == store[n])
            && (forall n :: n in r ==> n in store || n == c.secretName)
  {
  }

  /** Persisting the same document twice leaves the store as persisting it once,
      so repeated reconciliation passes cause no further change. */
  lemma PersistIdempotent(c: Config, store: SecretStore, document: seq<byte>)
    ensures var once := CreateOrUpdateWebConfigSecret(c, store, document);
            CreateOrUpdateWebConfigSecret(c, once, document) == once
  {
    var once := CreateOrUpdateWebConfigSecret(c, store, document);
    var twice := CreateOrUpdateWebConfigSecret(c, once, document);
    assert twice.Keys == once.Keys;
    forall n | n in once ensures twice[n] == once[n] {
    }
  }

  /** The document mount of a plan reads exactly what persisting stored: its
      volume is the Secret that was written, and its sub-path is the data key
      that holds the document. */
  lemma DocumentMountServesPersistedDocument(c: Config, fp: Fingerprinter, store: SecretStore, document: seq<byte>)
    ensures var p := GetMountParameters(c, fp);
            var r := CreateOrUpdateWebConfigSecret(c, store, document);
            && p.mounts[0].name == p.volumes[0].name
            && p.volumes[0].source.SecretSource?
            && p.volumes[0].source.secretName in r
            && p.mounts[0].subPath in r[p.volumes[0].source.secretName].data
            && r[p.volumes[0].source.secretName].data[p.mounts[0].subPath] == document
  {
  }

  /** Every persisting case of the table: `New("/web_certs_path_prefix", "test-secret", fields)`
      persisted into an empty namespace creates exactly one Secret, "test-secret",
      whose only data key is "web-config.yaml", whatever the fields are. */
  lemma PersistTableCase(fields: WebConfigFileFields, document: seq<byte>)
    ensures var c := New("/web_certs_path_prefix", "test-secret", fields);
            && CreateOrUpdateSecret(map[], DesiredSecret(c, document)).1 == Created
            && CreateOrUpdateWebConfigSecret(c, map[], document)
               == map["test-secret" := Secret("test-secret", map["web-config.yaml" := document])]
  {
    var c := New("/web_certs_path_prefix", "test-secret", fields);
    var r := CreateOrUpdateWebConfigSecret(c, map[], document);
    assert r.Keys == {"test-secret"};
  }
}
