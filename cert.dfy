/** Certificate generation (pkg/cert/cert.go). Keys and signatures are opaque: a key is an identity and
    a flag saying whether it can sign, and a signed certificate records its template, its issuer, the
    public key it certifies and the key that signed it. What the code chooses — subject, organisation,
    key usages, SANs, validity, serial — is modelled field by field. The answers the environment gives
    to one call (a fresh key, a random serial, the clock, whether signing fails) are a parameter. */
module Cert {
  import opened Outcomes
  import Text

  /** A private key; its public half is named by the same identity. */
  datatype PrivateKey = PrivateKey(id: nat, isSigner: bool)

  datatype ExtKeyUsage = ClientAuth | ServerAuth
  datatype KeyUsage = KeyEncipherment | DigitalSignature | CertSign

  datatype Subject = Subject(commonName: string, organization: seq<string>)

  /** The fields of an x509 certificate template the code fills in. Times are seconds. */
  datatype Template = Template(subject: Subject, isCA: bool, extKeyUsage: seq<ExtKeyUsage>,
                               keyUsage: set<KeyUsage>, dnsNames: seq<string>, ips: seq<string>,
                               notBefore: int, notAfter: int, serial: int)

  datatype Certificate = Certificate(template: Template, issuer: Subject, publicKey: nat, signedBy: nat)

  /** math.MaxInt64, the exclusive bound handed to rand.Int for serial numbers. */
  const MaxInt64: int := 0x7FFF_FFFF_FFFF_FFFF
  const Day: int := 24 * 3600
  const LeafValidity: int := 365 * Day
  /** client-go's self-signed CA validity, ten years of 365 days. */
  const CaValidity: int := 10 * 365 * Day

  /** What rand.Int(rand.Reader, MaxInt64) can return. */
  type Serial = x: int | 0 <= x < MaxInt64

  /** The environment's answers during one generation call. */
  datatype Entropy = Entropy(key: Result<PrivateKey>, serial: Result<Serial>, now: int, signing: Option<Error>)

  /** x509.CreateCertificate followed by x509.ParseCertificate: the template's fields are carried over;
      the signature is not modelled beyond who signed what. */
  function Sign(t: Template, issuer: Subject, publicKey: nat, signer: PrivateKey, failure: Option<Error>): (r: Result<Certificate>)
    ensures r.Ok? <==> failure.None?
    ensures r.Ok? ==> r.value.template == t && r.value.issuer == issuer && r.value.signedBy == signer.id
                      && r.value.publicKey == publicKey
  {
    if failure.Some? then Err(failure.value) else Ok(Certificate(t, issuer, publicKey, signer.id))
  }

  /** NewPrivateKey (cert.go:22-24). */
  function NewPrivateKey(e: Entropy): Result<PrivateKey> {
    e.key
  }

  /** The organisation list of a CA: the given one, or [cn] when none is given. */
  function CaOrganization(cn: string, org: seq<string>): (r: seq<string>)
    ensures |org| > 0 ==> r == org
    ensures |org| == 0 ==> r == [cn]
  {
    if |org| == 0 then [cn] else org
  }

  /** NewCA: a fresh key and a self-signed CA certificate for it (client-go's NewSelfSignedCACert). */
  function NewCA(cn: string, org: seq<string>, e: Entropy): (r: Result<(Certificate, PrivateKey)>)
    ensures e.key.Err? ==> r == Err(e.key.error)
    ensures r.Ok? ==> e.key.Ok? && r.value.1 == e.key.value
    ensures r.Ok? ==> var t := r.value.0.template;
      && t.subject == Subject(cn, CaOrganization(cn, org)) && t.isCA
      && t.keyUsage == {KeyEncipherment, DigitalSignature, CertSign}
      && r.value.0.issuer == t.subject && r.value.0.signedBy == r.value.1.id
      && r.value.0.publicKey == r.value.1.id
  {
    match NewPrivateKey(e)
    case Err(err) => Err(err)
    case Ok(key) =>
      var subject := Subject(cn, CaOrganization(cn, org));
      var t := Template(subject, true, [], {KeyEncipherment, DigitalSignature, CertSign}, [], [],
                        e.now, e.now + CaValidity, 0);
      match Sign(t, subject, key.id, key, e.signing)
      case Err(err) => Err(err)
      case Ok(crt) => Ok((crt, key))
  }

  /** The separator between the common name and the organisations in a client certificate's name. */
  const OrgSeparator: string := ",o="

  /** The subject of a client certificate named `cn`: "name,o=org1,o=org2" names CN "name" with
      organisations ["org1", "org2"]; a name without ",o=" is the common name alone. */
  function ClientSubject(cn: string): (s: Subject)
    ensures !Text.Contains(cn, OrgSeparator) ==> s == Subject(cn, [])
    ensures Text.Contains(cn, OrgSeparator) ==>
      [s.commonName] + s.organization == Text.Split(cn, OrgSeparator) && |s.organization| >= 1
  {
    var parts := Text.Split(cn, OrgSeparator);
    Text.SplitSingle(cn, OrgSeparator);
    if |parts| > 1 then Subject(parts[0], parts[1..]) else Subject(cn, [])
  }

  /** Joining the common name and the organisations back with ",o=" gives the requested name. */
  lemma ClientSubjectRoundTrip(cn: string)
    ensures var s := ClientSubject(cn); Text.Join([s.commonName] + s.organization, OrgSeparator) == cn
  {
    Text.JoinSplit(cn, OrgSeparator);
    Text.SplitSingle(cn, OrgSeparator);
  }

  /** The template of a leaf certificate: both leaf kinds share key usage, validity and the issuer's
      NotBefore. */
  function LeafTemplate(subject: Subject, usage: ExtKeyUsage, dnsNames: seq<string>, ips: seq<string>,
                        issuer: Certificate, now: int, serial: Serial): Template
  {
    Template(subject, false, [usage], {KeyEncipherment, DigitalSignature}, dnsNames, ips,
             issuer.template.notBefore, now + LeafValidity, serial)
  }

  /** The two certificate generators passed around as NewCertFunc values: the client one, and the
      one NewSignedCertFunc closes over organisations, DNS names and IPs. */
  datatype CertKind = ClientCert | ServerCert(orgs: seq<string>, domains: seq<string>, ips: seq<string>)

  /** NewSignedClientCert and the function NewSignedCertFunc returns. */
  function NewSignedCert(kind: CertKind, signee: PrivateKey, issuer: Certificate, signer: PrivateKey, cn: string,
                         e: Entropy): (r: Result<Certificate>)
    ensures e.serial.Err? ==> r == Err(e.serial.error)
    ensures r.Ok? ==> e.serial.Ok? && e.signing.None?
    ensures r.Ok? ==> var t := r.value.template;
      && 0 <= t.serial < MaxInt64 && t.serial == e.serial.value
      && t.notBefore == issuer.template.notBefore && t.notAfter == e.now + LeafValidity
      && t.keyUsage == {KeyEncipherment, DigitalSignature} && !t.isCA
      && r.value.publicKey == signee.id && r.value.signedBy == signer.id
      && r.value.issuer == issuer.template.subject
    ensures r.Ok? && kind.ClientCert? ==> var t := r.value.template;
      t.extKeyUsage == [ClientAuth] && t.subject == ClientSubject(cn) && t.dnsNames == [] && t.ips == []
    ensures r.Ok? && kind.ServerCert? ==> var t := r.value.template;
      && t.extKeyUsage == [ServerAuth] && t.subject == Subject(cn, kind.orgs)
      && t.dnsNames == kind.domains && t.ips == kind.ips
  {
    match e.serial
    case Err(err) => Err(err)
    case Ok(serial) =>
      var t := match kind
        case ClientCert => LeafTemplate(ClientSubject(cn), ClientAuth, [], [], issuer, e.now, serial)
        case ServerCert(orgs, domains, ips) => LeafTemplate(Subject(cn, orgs), ServerAuth, domains, ips, issuer, e.now, serial);
      Sign(t, issuer.template.subject, signee.id, signer, e.signing)
  }

  /** A PEM block, by what it decodes to; PEM text is a sequence of blocks. */
  datatype PemBlock = CertificateBlock(cert: Certificate) | PrivateKeyBlock(key: PrivateKey) | OtherBlock

  /** Marshal: the certificate as one CERTIFICATE block, the key as one private key block. */
  function Marshal(crt: Certificate, key: PrivateKey): (seq<PemBlock>, seq<PemBlock>) {
    ([CertificateBlock(crt)], [PrivateKeyBlock(key)])
  }

  /** keyutil.ParsePrivateKeyPEM: the key of the first private key block, the blocks before it being
      of other kinds. */
  function FirstKey(pem: seq<PemBlock>): (r: Option<PrivateKey>)
    ensures r.Some? ==> exists i | 0 <= i < |pem| ::
      pem[i] == PrivateKeyBlock(r.value) && forall j | 0 <= j < i :: !pem[j].PrivateKeyBlock?
    ensures r.None? ==> forall i | 0 <= i < |pem| :: !pem[i].PrivateKeyBlock?
    decreases |pem|
  {
    if |pem| == 0 then None
    else if pem[0].PrivateKeyBlock? then Some(pem[0].key)
    else
      var rest := FirstKey(pem[1..]);
      if rest.None? then None
      else
        ghost var i :| 0 <= i < |pem[1..]| && pem[1..][i] == PrivateKeyBlock(rest.value)
          && forall j | 0 <= j < i :: !pem[1..][j].PrivateKeyBlock?;
        assert pem[i + 1] == PrivateKeyBlock(rest.value) && forall j | 0 <= j < i + 1 :: !pem[j].PrivateKeyBlock?;
        rest
  }

  /** cert.ParseCertsPEM: the certificates of every CERTIFICATE block, in order. */
  function Certs(pem: seq<PemBlock>): (r: seq<Certificate>)
    ensures |r| <= |pem|
    ensures forall c | c in r :: CertificateBlock(c) in pem
    decreases |pem|
  {
    if |pem| == 0 then []
    else if pem[0].CertificateBlock? then [pem[0].cert] + Certs(pem[1..])
    else Certs(pem[1..])
  }

  /** The number of CERTIFICATE blocks among the first n blocks of a PEM text. */
  function CertBlocksBefore(pem: seq<PemBlock>, n: nat): nat
    requires n <= |pem|
  {
    if n == 0 then 0 else CertBlocksBefore(pem, n - 1) + (if pem[n - 1].CertificateBlock? then 1 else 0)
  }

  lemma {:induction false} CertBlocksShift(pem: seq<PemBlock>, n: nat)
    requires 1 <= n <= |pem|
    ensures CertBlocksBefore(pem, n) == (if pem[0].CertificateBlock? then 1 else 0) + CertBlocksBefore(pem[1..], n - 1)
  {
    if n > 1 {
      CertBlocksShift(pem, n - 1);
    }
  }

  /** Certs loses no certificate and keeps their order: it holds one certificate per CERTIFICATE block,
      and the block with k certificate blocks before it gives the k-th certificate. */
  lemma {:induction false} CertsInOrder(pem: seq<PemBlock>)
    ensures |Certs(pem)| == CertBlocksBefore(pem, |pem|)
    ensures forall i | 0 <= i < |pem| && pem[i].CertificateBlock? ::
      CertBlocksBefore(pem, i) < |Certs(pem)| && Certs(pem)[CertBlocksBefore(pem, i)] == pem[i].cert
  {
    if |pem| > 0 {
      var rest := pem[1..];
      CertsInOrder(rest);
      CertBlocksShift(pem, |pem|);
      forall i | 0 <= i < |pem| && pem[i].CertificateBlock?
        ensures CertBlocksBefore(pem, i) < |Certs(pem)| && Certs(pem)[CertBlocksBefore(pem, i)] == pem[i].cert
      {
        if i > 0 {
          CertBlocksShift(pem, i);
          assert pem[i] == rest[i - 1];
        }
      }
    }
  }

  /** Unmarshal (cert.go:118-135). */
  function Unmarshal(certPem: seq<PemBlock>, keyPem: seq<PemBlock>): (r: Result<(Certificate, PrivateKey)>)
    ensures r.Ok? <==> FirstKey(keyPem).Some? && FirstKey(keyPem).value.isSigner && |Certs(certPem)| > 0
    ensures FirstKey(keyPem).Some? && !FirstKey(keyPem).value.isSigner ==> r == Err(Message("key is not a crypto.Signer"))
    ensures r.Ok? ==> r.value == (Certs(certPem)[0], FirstKey(keyPem).value)
  {
    match FirstKey(keyPem)
    case None => Err(Message("data does not contain a valid RSA or EC private key"))
    case Some(key) =>
      if !key.isSigner then Err(Message("key is not a crypto.Signer"))
      else
        var certs := Certs(certPem);
        if |certs| == 0 then Err(Message("data does not contain any valid RSA or ECDSA certificates"))
        else Ok((certs[0], key))
  }

  /** Of a PEM text holding several certificates, Unmarshal returns the first one. */
  lemma UnmarshalFirstCertificate(first: Certificate, rest: seq<PemBlock>, key: PrivateKey)
    requires key.isSigner
    ensures Unmarshal([CertificateBlock(first)] + rest, [PrivateKeyBlock(key)]) == Ok((first, key))
  {
    var pem := [CertificateBlock(first)] + rest;
    assert pem[1..] == rest;
  }

  /** What Marshal writes, Unmarshal reads back, for any key that can sign. */
  lemma MarshalRoundTrip(crt: Certificate, key: PrivateKey)
    ensures var (c, k) := Marshal(crt, key);
      Unmarshal(c, k) == if key.isSigner then Ok((crt, key)) else Err(Message("key is not a crypto.Signer"))
  {
    if key.isSigner {
      UnmarshalFirstCertificate(crt, [], key);
    }
  }
}
