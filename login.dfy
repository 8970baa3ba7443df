/** Registry login on the cluster side (pkg/client/builder/login.go): the docker config secret that the
    agent reads credentials from is created, or its entry for one server is replaced. */
module BuilderLogin {
  import opened Outcomes
  import opened Stores
  import opened Kube
  import BuilderInstall

  const DockerConfigSecret: string := "kim-docker-config"
  const NilMapPanic: string := "assignment to entry in nil map"

  /** The secret created when none exists: type dockerconfigjson, managed-by=kim, one auth entry. */
  function NewLoginSecret(namespace: string, server: string, entry: AuthEntry): Secret {
    Secret(namespace, DockerConfigSecret, Some(ManagedLabels), DockerConfigJsonType,
           map[DockerConfigJsonKey := MarshalConfig(DockerConfigJson(Some(map[server := entry])))])
  }

  /** The docker config stored in a secret: parsed when the key is present, the zero value (no auths
      map) when it is not. */
  function StoredConfig(s: Secret): (r: Result<DockerConfigJson>)
    ensures DockerConfigJsonKey !in s.data ==> r == Ok(DockerConfigJson(None))
    ensures DockerConfigJsonKey in s.data ==> r == UnmarshalConfig(s.data[DockerConfigJsonKey])
  {
    if DockerConfigJsonKey in s.data then UnmarshalConfig(s.data[DockerConfigJsonKey]) else Ok(DockerConfigJson(None))
  }

  /** The secret written back with the given auths: typed dockerconfigjson, config entry replaced, every
      other field and data entry kept. */
  function Rewritten(s: Secret, auths: map<string, AuthEntry>): Secret {
    s.(kind := DockerConfigJsonType, data := s.data[DockerConfigJsonKey := MarshalConfig(DockerConfigJson(Some(auths)))])
  }

  /** The update of an existing secret as the code is written: the entry is stored into the parsed
      auths map, which is nil — a run-time panic — when the stored config has none. */
  function UpsertAsWritten(s: Secret, server: string, entry: AuthEntry): Result<Secret> {
    match StoredConfig(s)
    case Err(e) => Err(e)
    case Ok(c) =>
      if c.auths.None? then Err(Panic(NilMapPanic))
      else Ok(Rewritten(s, c.auths.value[server := entry]))
  }

  /** A secret without the config key — such as the blank object a failed Get yields — panics. */
  lemma UpsertAsWrittenPanics(namespace: string, server: string, entry: AuthEntry)
    ensures UpsertAsWritten(Secret(namespace, DockerConfigSecret, None, SecretType.Opaque, map[]), server, entry) == Err(Panic(NilMapPanic))
  {
  }

  /** The update of an existing secret with a missing auths map started empty. */
  function Upsert(s: Secret, server: string, entry: AuthEntry): (r: Result<Secret>)
    ensures StoredConfig(s).Err? ==> r == Err(StoredConfig(s).error)
    ensures StoredConfig(s).Ok? ==> r.Ok?
  {
    match StoredConfig(s)
    case Err(e) => Err(e)
    case Ok(c) => Ok(Rewritten(s, (if c.auths.None? then map[] else c.auths.value)[server := entry]))
  }

  /** Wherever the code as written does not panic, it computes what Upsert computes. */
  lemma UpsertAgreesWithoutPanic(s: Secret, server: string, entry: AuthEntry)
    requires UpsertAsWritten(s, server, entry) != Err(Panic(NilMapPanic))
    ensures UpsertAsWritten(s, server, entry) == Upsert(s, server, entry)
  {
  }

  /** The rewritten secret is typed dockerconfigjson, keeps name, namespace and labels, and its config
      reads back with `server` mapped to the new entry and every other server's entry unchanged. */
  lemma UpsertSetsEntry(s: Secret, server: string, entry: AuthEntry)
    requires StoredConfig(s).Ok?
    ensures var r := Upsert(s, server, entry).value;
      && r.kind == DockerConfigJsonType && r.name == s.name && r.namespace == s.namespace && r.labels == s.labels
      && StoredConfig(r).Ok? && StoredConfig(r).value.auths.Some?
      && var auths := StoredConfig(r).value.auths.value;
      && server in auths && auths[server] == entry
      && (forall other | other != server && StoredConfig(s).value.auths.Some? ::
            (other in auths <==> other in StoredConfig(s).value.auths.value)
            && (other in auths ==> auths[other] == StoredConfig(s).value.auths.value[other]))
      && (forall key | key != DockerConfigJsonKey :: (key in r.data <==> key in s.data) && (key in r.data ==> r.data[key] == s.data[key]))
  {
  }

  /** The created secret has exactly one auth entry, for `server`. */
  lemma NewLoginSecretSingleEntry(namespace: string, server: string, entry: AuthEntry)
    ensures var s := NewLoginSecret(namespace, server, entry);
      && s.kind == DockerConfigJsonType && s.labels == Some(ManagedLabels) && s.data.Keys == {DockerConfigJsonKey}
      && StoredConfig(s) == Ok(DockerConfigJson(Some(map[server := entry])))
  {
  }

  /** After a successful login the docker config secret exists, is typed dockerconfigjson and its
      config maps `server` to `entry`. */
  ghost predicate HasCredentials(secrets: map<ObjectKey, Secret>, namespace: string, server: string, entry: AuthEntry) {
    var key := ObjectKey(namespace, DockerConfigSecret);
    && key in secrets && secrets[key].kind == DockerConfigJsonType
    && StoredConfig(secrets[key]).Ok? && StoredConfig(secrets[key]).value.auths.Some?
    && server in StoredConfig(secrets[key]).value.auths.value
    && StoredConfig(secrets[key]).value.auths.value[server] == entry
  }

  class Login {
    const password: string
    const passwordStdin: bool
    const username: string

    constructor (password: string, passwordStdin: bool, username: string)
      ensures this.password == password && this.passwordStdin == passwordStdin && this.username == username
    {
      this.password := password;
      this.passwordStdin := passwordStdin;
      this.username := username;
    }

    function Entry(): AuthEntry {
      AuthEntry(username, password)
    }

    /** One attempt of the retried closure. `got` is what the Get returned. A Get error other than
        NotFound panics, as the code does: the blank object it yields has no config to update. */
    method DoAttempt(secrets: Store<ObjectKey, Secret>, namespace: string, server: string)
      returns (err: Option<Error>, ghost got: Result<Secret>)
      requires SecretStore(secrets) && ObjectKey("", "") !in secrets.objects && namespace != ""
      modifies secrets`objects
      ensures SecretStore(secrets) && ObjectKey("", "") !in secrets.objects
      ensures err.Some? ==> secrets.objects == old(secrets.objects)
      ensures got.Ok? ==>
        (ObjectKey(namespace, DockerConfigSecret) in old(secrets.objects)
        && got.value == old(secrets.objects)[ObjectKey(namespace, DockerConfigSecret)])
      ensures got == Err(NotFound) && err.None? ==>
        secrets.objects == old(secrets.objects)[ObjectKey(namespace, DockerConfigSecret) := NewLoginSecret(namespace, server, Entry())]
      ensures got.Ok? && StoredConfig(got.value).Err? ==> err == Some(StoredConfig(got.value).error)
      ensures got.Ok? && err.None? ==>
        secrets.objects == old(secrets.objects)[ObjectKey(namespace, DockerConfigSecret) := Upsert(got.value, server, Entry()).value]
      ensures got.Err? && got.error != NotFound ==> err == Some(Panic(NilMapPanic))
      ensures got == Err(NotFound) ==> ObjectKey(namespace, DockerConfigSecret) !in old(secrets.objects)
    {
      var key := ObjectKey(namespace, DockerConfigSecret);
      var login := secrets.Get(key);
      got := login;
      if login == Err(NotFound) {
        err := secrets.Create(NewLoginSecret(namespace, server, Entry()));
        return;
      }
      if login.Err? {
        // On any other error the client returns a blank object with no data, and the code goes on to
        // store into its nil auths map: a run-time panic, with nothing written.
        return Some(Panic(NilMapPanic)), got;
      }
      var updated := Upsert(login.value, server, Entry());
      if updated.Err? {
        return Some(updated.error), got;
      }
      err := secrets.Update(updated.value);
    }

    /** Do: the read-modify-write of the docker config secret, retried on conflict. */
    method Do(k: Cluster, server: string) returns (err: Option<Error>)
      requires k.Valid()
      modifies k.secrets`objects
      ensures k.Valid()
      ensures err.Some? ==> k.secrets.objects == old(k.secrets.objects)
      ensures ObjectKey(k.namespace, DockerConfigSecret) !in old(k.secrets.objects) && err.None? ==>
        k.secrets.objects == old(k.secrets.objects)[ObjectKey(k.namespace, DockerConfigSecret) := NewLoginSecret(k.namespace, server, Entry())]
      ensures ObjectKey(k.namespace, DockerConfigSecret) in old(k.secrets.objects) && err.None? ==>
        var s := old(k.secrets.objects)[ObjectKey(k.namespace, DockerConfigSecret)];
        Upsert(s, server, Entry()).Ok?
        && k.secrets.objects == old(k.secrets.objects)[ObjectKey(k.namespace, DockerConfigSecret) := Upsert(s, server, Entry()).value]
      ensures ObjectKey(k.namespace, DockerConfigSecret) in old(k.secrets.objects) ==>
        var s := old(k.secrets.objects)[ObjectKey(k.namespace, DockerConfigSecret)];
        StoredConfig(s).Err? ==> err.Some?
      ensures err.None? ==> HasCredentials(k.secrets.objects, k.namespace, server, Entry())
    {
      var secrets := k.secrets;
      ghost var got;
      err, got := DoAttempt(secrets, k.namespace, server);
      var attempts := 1;
      while err == Some(Conflict) && attempts < BuilderInstall.DefaultRetrySteps
        invariant SecretStore(secrets) && ObjectKey("", "") !in secrets.objects
        invariant err.Some? ==> secrets.objects == old(secrets.objects)
        invariant ObjectKey(k.namespace, DockerConfigSecret) !in old(secrets.objects) && err.None? ==>
          secrets.objects == old(secrets.objects)[ObjectKey(k.namespace, DockerConfigSecret) := NewLoginSecret(k.namespace, server, Entry())]
        invariant ObjectKey(k.namespace, DockerConfigSecret) in old(secrets.objects) && err.None? ==>
          var s := old(secrets.objects)[ObjectKey(k.namespace, DockerConfigSecret)];
          Upsert(s, server, Entry()).Ok?
          && secrets.objects == old(secrets.objects)[ObjectKey(k.namespace, DockerConfigSecret) := Upsert(s, server, Entry()).value]
        invariant ObjectKey(k.namespace, DockerConfigSecret) in old(secrets.objects) ==>
          var s := old(secrets.objects)[ObjectKey(k.namespace, DockerConfigSecret)];
          StoredConfig(s).Err? ==> err.Some?
        decreases BuilderInstall.DefaultRetrySteps - attempts
      {
        err, got := DoAttempt(secrets, k.namespace, server);
        attempts := attempts + 1;
      }
      var key := ObjectKey(k.namespace, DockerConfigSecret);
      if err.None? {
        if key in old(secrets.objects) {
          UpsertSetsEntry(old(secrets.objects)[key], server, Entry());
        } else {
          NewLoginSecretSingleEntry(k.namespace, server, Entry());
        }
      }
    }
  }
}
