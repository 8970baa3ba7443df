/** Load-or-generate of kim's TLS identities against the secret store (pkg/client/certs.go). A secret is
    created only when the lookup reports NotFound; an existing secret is decoded and returned, never
    regenerated or overwritten. */
module Certs {
  import opened Outcomes
  import opened Stores
  import opened Kube
  import opened Cert

  /** The secret marshalAndCreateCert writes for a certificate and key. */
  function TlsSecret(namespace: string, name: string, crt: Certificate, key: PrivateKey): Secret {
    var (crtPem, keyPem) := Marshal(crt, key);
    Secret(namespace, name, Some(ManagedLabels), Tls, map[TlsCertKey := Pem(crtPem), TlsPrivateKeyKey := Pem(keyPem)])
  }

  /** A TLS secret as kim creates it: the requested name and namespace, type TLS, the managed-by label,
      and exactly the certificate and key entries. */
  predicate IsKimTlsSecret(s: Secret, namespace: string, name: string) {
    && s.namespace == namespace && s.name == name && s.kind == Tls && s.labels == Some(ManagedLabels)
    && s.data.Keys == {TlsCertKey, TlsPrivateKeyKey}
  }

  /** The certificate and key stored in a TLS secret: the first certificate of its certificate entry and
      the first key of its key entry, which must be able to sign. */
  function Load(s: Secret): (r: Result<(Certificate, PrivateKey)>)
    ensures r.Ok? ==>
      && r.value.1.isSigner
      && CertificateBlock(r.value.0) in PemBlocks(DataOf(s, TlsCertKey))
      && PrivateKeyBlock(r.value.1) in PemBlocks(DataOf(s, TlsPrivateKeyKey))
    ensures TlsPrivateKeyKey !in s.data || TlsCertKey !in s.data ==> r.Err?
  {
    Unmarshal(PemBlocks(DataOf(s, TlsCertKey)), PemBlocks(DataOf(s, TlsPrivateKeyKey)))
  }

  /** A secret written by marshalAndCreateCert has kim's shape and loads back as the pair it was
      written from. */
  lemma TlsSecretLoads(namespace: string, name: string, crt: Certificate, key: PrivateKey)
    requires key.isSigner
    ensures IsKimTlsSecret(TlsSecret(namespace, name, crt, key), namespace, name)
    ensures Load(TlsSecret(namespace, name, crt, key)) == Ok((crt, key))
  {
    MarshalRoundTrip(crt, key);
  }

  /** The certificate entry of a secret written by marshalAndCreateCert holds that one certificate. */
  lemma TlsSecretCertificate(namespace: string, name: string, crt: Certificate, key: PrivateKey)
    ensures Cert.Certs(PemBlocks(DataOf(TlsSecret(namespace, name, crt, key), TlsCertKey))) == [crt]
  {
    var pem := [CertificateBlock(crt)];
    assert pem[1..] == [];
  }

  /** marshalAndCreateCert (certs.go:71-91). */
  method MarshalAndCreateCert(secrets: Store<ObjectKey, Secret>, namespace: string, crt: Certificate,
                              key: PrivateKey, name: string) returns (r: Result<Secret>)
    requires SecretStore(secrets)
    modifies secrets`objects
    ensures SecretStore(secrets)
    ensures r.Ok? ==> (r.value == TlsSecret(namespace, name, crt, key)
      && ObjectKey(namespace, name) !in old(secrets.objects)
      && secrets.objects == old(secrets.objects)[ObjectKey(namespace, name) := r.value])
    ensures r.Err? ==> secrets.objects == old(secrets.objects)
    ensures ObjectKey(namespace, name) in old(secrets.objects) ==> r.Err?
  {
    var s := TlsSecret(namespace, name, crt, key);
    var err := secrets.Create(s);
    if err.Some? {
      return Err(err.value);
    }
    return Ok(s);
  }

  /** createAndStoreCA (certs.go:49-55): a CA named after the secret. */
  method CreateAndStoreCA(secrets: Store<ObjectKey, Secret>, namespace: string, name: string, e: Entropy)
    returns (r: Result<Secret>)
    requires SecretStore(secrets)
    modifies secrets`objects
    ensures SecretStore(secrets)
    ensures r.Ok? ==> (NewCA(name, [], e).Ok?
      && r.value == TlsSecret(namespace, name, NewCA(name, [], e).value.0, NewCA(name, [], e).value.1)
      && ObjectKey(namespace, name) !in old(secrets.objects)
      && secrets.objects == old(secrets.objects)[ObjectKey(namespace, name) := r.value])
    ensures r.Err? ==> secrets.objects == old(secrets.objects)
    ensures NewCA(name, [], e).Err? ==> r == Err(NewCA(name, [], e).error)
  {
    var ca := NewCA(name, [], e);
    if ca.Err? {
      return Err(ca.error);
    }
    r := MarshalAndCreateCert(secrets, namespace, ca.value.0, ca.value.1, name);
  }

  /** createAndStoreCert (certs.go:57-69): a fresh key, a certificate for it of the given kind, and the
      secret holding both. */
  method CreateAndStoreCert(secrets: Store<ObjectKey, Secret>, namespace: string, name: string, cn: string,
                            issuer: Certificate, signer: PrivateKey, kind: CertKind, e: Entropy)
    returns (r: Result<Secret>)
    requires SecretStore(secrets)
    modifies secrets`objects
    ensures SecretStore(secrets)
    ensures r.Ok? ==> (e.key.Ok? && NewSignedCert(kind, e.key.value, issuer, signer, cn, e).Ok?
      && r.value == TlsSecret(namespace, name, NewSignedCert(kind, e.key.value, issuer, signer, cn, e).value, e.key.value)
      && ObjectKey(namespace, name) !in old(secrets.objects)
      && secrets.objects == old(secrets.objects)[ObjectKey(namespace, name) := r.value])
    ensures r.Err? ==> secrets.objects == old(secrets.objects)
  {
    var key := NewPrivateKey(e);
    if key.Err? {
      return Err(key.error);
    }
    var crt := NewSignedCert(kind, key.value, issuer, signer, cn, e);
    if crt.Err? {
      return Err(crt.error);
    }
    r := MarshalAndCreateCert(secrets, namespace, crt.value, key.value, name);
  }

  /** The three LoadOrGen functions differ only in what they generate on NotFound. */
  datatype Identity = CA | Leaf(cn: string, issuer: Certificate, signer: PrivateKey, kind: CertKind)

  /** The certificate and key generated for an identity stored under `name`: a CA named after the
      secret, or a fresh key with a certificate of the requested kind for it, signed by the issuer. */
  function Generate(id: Identity, name: string, e: Entropy): (r: Result<(Certificate, PrivateKey)>)
    ensures id.CA? ==> r == NewCA(name, [], e)
    ensures id.Leaf? && r.Ok? ==>
      && e.key.Ok? && r.value.1 == e.key.value
      && r.value.0.publicKey == e.key.value.id && r.value.0.signedBy == id.signer.id
      && r.value.0.issuer == id.issuer.template.subject && !r.value.0.template.isCA
    ensures id.Leaf? && id.kind.ServerCert? && r.Ok? ==> var t := r.value.0.template;
      && t.extKeyUsage == [ServerAuth] && t.subject == Subject(id.cn, id.kind.orgs)
      && t.dnsNames == id.kind.domains && t.ips == id.kind.ips
    ensures id.Leaf? && id.kind.ClientCert? && r.Ok? ==> var t := r.value.0.template;
      t.extKeyUsage == [ClientAuth] && t.subject == ClientSubject(id.cn)
    ensures id.Leaf? && e.key.Err? ==> r == Err(e.key.error)
  {
    match id
    case CA => NewCA(name, [], e)
    case Leaf(cn, issuer, signer, kind) =>
      match e.key
      case Err(err) => Err(err)
      case Ok(key) =>
        match NewSignedCert(kind, key, issuer, signer, cn, e)
        case Err(err) => Err(err)
        case Ok(crt) => Ok((crt, key))
  }

  /** LoadOrGenCA, LoadOrGenClientCert, LoadOrGenServerCert (certs.go:16-47). `got` is what the lookup
      returned. */
  method LoadOrGen(secrets: Store<ObjectKey, Secret>, namespace: string, name: string, id: Identity, e: Entropy)
    returns (r: Result<(Certificate, PrivateKey)>, ghost got: Result<Secret>)
    requires SecretStore(secrets)
    modifies secrets`objects
    ensures SecretStore(secrets)
    // Only a NotFound lookup can lead to a write, and then of exactly one kim TLS secret at that key.
    ensures got != Err(NotFound) ==> secrets.objects == old(secrets.objects)
    ensures secrets.objects == old(secrets.objects)
      || (ObjectKey(namespace, name) !in old(secrets.objects) && ObjectKey(namespace, name) in secrets.objects
          && IsKimTlsSecret(secrets.objects[ObjectKey(namespace, name)], namespace, name)
          && secrets.objects == old(secrets.objects)[ObjectKey(namespace, name) := secrets.objects[ObjectKey(namespace, name)]])
    ensures ObjectKey(namespace, name) in old(secrets.objects) ==> secrets.objects == old(secrets.objects)
    // A new secret holds the pair the identity asks for.
    ensures ObjectKey(namespace, name) !in old(secrets.objects) && ObjectKey(namespace, name) in secrets.objects ==>
      Generate(id, name, e).Ok? && secrets.objects[ObjectKey(namespace, name)]
        == TlsSecret(namespace, name, Generate(id, name, e).value.0, Generate(id, name, e).value.1)
    // An existing secret is decoded; any other lookup error is returned unchanged.
    ensures got.Ok? ==> (ObjectKey(namespace, name) in old(secrets.objects)
      && got.value == old(secrets.objects)[ObjectKey(namespace, name)] && r == Load(got.value))
    ensures got.Err? && got.error != NotFound ==> r == Err(got.error)
    // Without a new secret there is no result: no fall-back to reading.
    ensures got == Err(NotFound) && secrets.objects == old(secrets.objects) ==> r.Err?
    // A generated pair is the one stored.
    ensures got == Err(NotFound) && r.Ok? ==> (ObjectKey(namespace, name) in secrets.objects
      && r == Load(secrets.objects[ObjectKey(namespace, name)]))
    // A generated pair is the one the identity asks for, and the CA is named after its secret.
    ensures got == Err(NotFound) && r.Ok? ==> Generate(id, name, e).Ok? && r == Load(TlsSecret(namespace, name, Generate(id, name, e).value.0, Generate(id, name, e).value.1))
    ensures got == Err(NotFound) && r.Ok? && id.CA? ==> r.value.0.template.subject.commonName == name
  {
    var k := ObjectKey(namespace, name);
    var found := secrets.Get(k);
    got := found;
    var secret: Result<Secret>;
    if found == Err(NotFound) {
      if id.CA? {
        secret := CreateAndStoreCA(secrets, namespace, name, e);
      } else {
        secret := CreateAndStoreCert(secrets, namespace, name, id.cn, id.issuer, id.signer, id.kind, e);
      }
      if secret.Ok? {
        var crt, key := if id.CA? then NewCA(name, [], e).value.0 else NewSignedCert(id.kind, e.key.value, id.issuer, id.signer, id.cn, e).value,
                        if id.CA? then NewCA(name, [], e).value.1 else e.key.value;
        assert secret.value == TlsSecret(namespace, name, crt, key);
        assert IsKimTlsSecret(secret.value, namespace, name);
      }
    } else {
      secret := found;
    }
    if secret.Err? {
      return Err(secret.error), got;
    }
    r := Load(secret.value);
  }

  /** Two LoadOrGen calls for the same secret create at most one secret between them, and the second
      returns what the first one stored. */
  method LoadOrGenTwice(secrets: Store<ObjectKey, Secret>, namespace: string, name: string, id: Identity,
                        e1: Entropy, e2: Entropy)
    returns (r1: Result<(Certificate, PrivateKey)>, r2: Result<(Certificate, PrivateKey)>)
    requires SecretStore(secrets)
    modifies secrets`objects
    ensures SecretStore(secrets)
    ensures secrets.objects.Keys <= old(secrets.objects.Keys) + {ObjectKey(namespace, name)}
    ensures forall k | k in old(secrets.objects) :: k in secrets.objects && secrets.objects[k] == old(secrets.objects)[k]
    ensures r1.Ok? && r2.Ok? ==> r1 == r2
  {
    ghost var got1, got2;
    var k := ObjectKey(namespace, name);
    r1, got1 := LoadOrGen(secrets, namespace, name, id, e1);
    ghost var mid := secrets.objects;
    r2, got2 := LoadOrGen(secrets, namespace, name, id, e2);
    if r1.Ok? && r2.Ok? {
      assert k in mid && r1 == Load(mid[k]) by {
        if got1.Ok? {
          assert mid == old(secrets.objects);
        }
      }
      assert got2.Ok?;
    }
  }
}
