// What a generation pass stores: the data made from generated credentials and
// resolved references, and the step that stores it
// (pkg/kube/controllers/quarkssecret/quarkssecret_reconciler.go).
module Products {
  import opened Types
  import opened Api
  import opened References
  import DockerConfig
  import Mutate

  type Secrets = map<Key, StoredSecret>

  // ---- The generator ----------------------------------------------------------

  // Certificate and key of the authority that signs.
  datatype Authority = Authority(certificate: string, key: string)

  datatype GenerationRequest = GenerationRequest(
    commonName: string, alternativeNames: seq<string>, isCA: bool, ca: Authority)

  datatype Credential =
    | MadePassword(text: string)
    | MadeKeys(privateKey: string, publicKey: string, fingerprint: string)
    | MadeCertificate(certificate: string, key: string, request: GenerationRequest)
    | MadeSigningRequest(body: string, key: string, request: GenerationRequest)

  // What it makes cannot be told in advance; `made` keeps all of it.
  class Generator {
    var made: seq<Credential>
    var calls: nat
    // Whether the n-th call that can fail does.
    const fails: nat -> bool

    constructor (fails: nat -> bool)
      ensures made == [] && this.fails == fails
    {
      made, calls, this.fails := [], 0, fails;
    }

    method GeneratePassword() returns (text: string)
      modifies this
      ensures made == old(made) + [MadePassword(text)] && calls == old(calls)
    {
      text := *;
      made := made + [MadePassword(text)];
    }

    // RSA and SSH keys.
    method GenerateKeys() returns (r: Outcome<Credential>)
      modifies this
      ensures r.Success? ==> r.value.MadeKeys? && made == old(made) + [r.value]
      ensures r.Failure? ==> made == old(made) && r.error.Plain?
      ensures r.Failure? <==> fails(old(calls))
    {
      var keys: (string, string, string) := *;
      calls := calls + 1;
      if fails(calls - 1) {
        return Failure(Plain("no key"));
      }
      r := Success(MadeKeys(keys.0, keys.1, keys.2));
      made := made + [r.value];
    }

    method GenerateCertificate(request: GenerationRequest) returns (r: Outcome<Credential>)
      modifies this
      ensures r.Success? ==> r.value.MadeCertificate? && r.value.request == request && made == old(made) + [r.value]
      ensures r.Failure? ==> made == old(made) && r.error.Plain?
      ensures r.Failure? <==> fails(old(calls))
    {
      var pair: (string, string) := *;
      calls := calls + 1;
      if fails(calls - 1) {
        return Failure(Plain("no certificate"));
      }
      r := Success(MadeCertificate(pair.0, pair.1, request));
      made := made + [r.value];
    }

    method GenerateCertificateSigningRequest(request: GenerationRequest) returns (r: Outcome<Credential>)
      modifies this
      ensures r.Success? ==> r.value.MadeSigningRequest? && r.value.request == request && made == old(made) + [r.value]
      ensures r.Failure? ==> made == old(made) && r.error.Plain?
      ensures r.Failure? <==> fails(old(calls))
    {
      var pair: (string, string) := *;
      calls := calls + 1;
      if fails(calls - 1) {
        return Failure(Plain("no signing request"));
      }
      r := Success(MadeSigningRequest(pair.0, pair.1, request));
      made := made + [r.value];
    }
  }

  const ANNOTATION_CERT_SECRET_NAME := "quarks.cloudfoundry.org/cert-secret-name"
  const ANNOTATION_QSEC_NAME := "quarks.cloudfoundry.org/quarks-secret-name"
  const ANNOTATION_QSEC_NAMESPACE := "quarks.cloudfoundry.org/quarks-secret-namespace"
  const ANNOTATION_MONITORED_ID := "quarks.cloudfoundry.org/monitored-id"

  ghost predicate NeverFails(fails: nat -> bool) {
    forall n :: !fails(n)
  }

  // ---- What a pass stores -------------------------------------------------------

  // `render` is the template engine and `keySecretName` the naming of the
  // secrets that hold the keys of signing requests.
  datatype Config = Config(
    meltdownDuration: nat, meltdownRequeueAfter: nat, monitoredID: string,
    render: (StringMap, StringMap) -> StringMap,
    keySecretName: Key -> string)

  function Destination(config: Config, id: Key, spec: Spec): Key {
    Key(id.namespace, if ClusterSigned(spec) then config.keySecretName(id) else spec.secretName)
  }

  // The text behind an optional reference; none reads as empty.
  function Referenced(secrets: Secrets, namespace: string, r: SecretReference): string
    requires AllMet(secrets, namespace, OptionalNeed(r))
  {
    if r.name == "" then "" else assert EntryNeed(r) in OptionalNeed(r); ValueOf(secrets, namespace, r)
  }

  // One text, given or else generated as the n-th credential.
  predicate GivenOrMade(text: string, given: string, made: seq<Credential>, n: nat) {
    if given != "" then text == given else n < |made| && made[n] == MadePassword(text)
  }

  function Count(given: string): nat {
    if given == "" then 1 else 0
  }

  // Username and password of a docker registry.
  ghost predicate AreCredentials(secrets: Secrets, namespace: string, image: ImageCredentialsRequest,
                                 made: seq<Credential>, username: string, password: string)
  {
    && AllMet(secrets, namespace, OptionalNeed(image.username)) && AllMet(secrets, namespace, OptionalNeed(image.password))
    && var u, p := Referenced(secrets, namespace, image.username), Referenced(secrets, namespace, image.password);
       |made| == Count(u) + Count(p) && GivenOrMade(username, u, made, 0) && GivenOrMade(password, p, made, Count(u))
  }

  function FormatBool(b: bool): string {
    if b then "true" else "false"
  }

  // The names of every service, after those of the spec.
  function ServiceNames(s: Service): seq<string> {
    [s.name, s.name + "." + s.namespace, "*." + s.name, "*." + s.name + "." + s.namespace,
     s.clusterIP, s.loadBalancerIP, s.externalName] + s.externalIPs
  }

  predicate ServicesExist(services: map<Key, Service>, namespace: string, refs: seq<string>) {
    forall ref :: ref in refs ==> Key(namespace, ref) in services
  }

  function AlternativeNames(services: map<Key, Service>, namespace: string, names: seq<string>, refs: seq<string>):
    seq<string>
    requires ServicesExist(services, namespace, refs)
  {
    if refs == [] then names
    else
      var most, last := refs[..|refs| - 1], refs[|refs| - 1];
      AlternativeNames(services, namespace, names, most) + ServiceNames(services[Key(namespace, last)])
  }

  // The first cluster address that is not empty.
  function ServiceIP(services: map<Key, Service>, namespace: string, refs: seq<string>): string
    requires ServicesExist(services, namespace, refs)
  {
    if refs == [] then ""
    else
      var most, last := refs[..|refs| - 1], refs[|refs| - 1];
      var ip := ServiceIP(services, namespace, most);
      if ip == "" then services[Key(namespace, last)].clusterIP else ip
  }

  function DataEntry(secrets: Secrets, key: Key, entry: string): string {
    if key in secrets && entry in secrets[key].data then secrets[key].data[entry] else ""
  }

  function AuthorityOf(secrets: Secrets, namespace: string, c: CertificateRequest): Authority {
    if c.caRef.name == "" then Authority("", "")
    else Authority(DataEntry(secrets, Key(namespace, c.caRef.name), c.caRef.key),
                   DataEntry(secrets, Key(namespace, c.caKeyRef.name), c.caKeyRef.key))
  }

  // What the certificate generator is asked for.
  function RequestFor(secrets: Secrets, services: map<Key, Service>, namespace: string, spec: Spec): GenerationRequest
    requires ServicesExist(services, namespace, spec.request.certificate.serviceRef)
  {
    var c := spec.request.certificate;
    var names := AlternativeNames(services, namespace, c.alternativeNames, c.serviceRef);
    if ClusterSigned(spec) then
      GenerationRequest(if c.activateEKSWorkaroundForSAN then ServiceIP(services, namespace, c.serviceRef) else c.commonName,
                        names, false, Authority("", ""))
    else GenerationRequest(c.commonName, names, c.isCA, AuthorityOf(secrets, namespace, c))
  }

  // The data that a pass makes of the credentials it generated.
  ghost predicate IsProduct(config: Config, secrets: Secrets, services: map<Key, Service>, namespace: string, spec: Spec,
                            made: seq<Credential>, data: StringMap)
  {
    match spec.secretType
    case Password => |made| == 1 && made[0].MadePassword? && data == map["password" := made[0].text]
    case RSAKey =>
      |made| == 1 && made[0].MadeKeys?
      && data == map["private_key" := made[0].privateKey, "public_key" := made[0].publicKey]
    case SSHKey =>
      |made| == 1 && made[0].MadeKeys?
      && data == map["private_key" := made[0].privateKey, "public_key" := made[0].publicKey,
                     "public_key_fingerprint" := made[0].fingerprint]
    case BasicAuth =>
      var given := spec.request.basicAuthUsername;
      |made| == Count(given) + 1
      && exists username, password ::
           GivenOrMade(username, given, made, 0) && GivenOrMade(password, "", made, Count(given))
           && data == map["username" := username, "password" := password]
    case DockerConfigJSON =>
      var image := spec.request.image;
      exists username, password ::
        AreCredentials(secrets, namespace, image, made, username, password)
        && data == map[".dockerconfigjson" := DockerConfig.Print(image.registry, username, password, image.email)]
    case TemplatedConfig =>
      var request := spec.request.templated;
      made == [] && (forall name :: name in request.values ==> Met(secrets, namespace, EntryNeed(request.values[name])))
      && data == config.render(request.templates, ResolvedValues(secrets, namespace, request.values))
    case Certificate =>
      ServicesExist(services, namespace, spec.request.certificate.serviceRef) && |made| == 1
      && if ClusterSigned(spec)
         then made[0].MadeSigningRequest? && made[0].request == RequestFor(secrets, services, namespace, spec)
              && data == map["private_key" := made[0].key, "is_ca" := FormatBool(spec.request.certificate.isCA)]
         else made[0].MadeCertificate? && made[0].request == RequestFor(secrets, services, namespace, spec)
              && data == map["certificate" := made[0].certificate, "private_key" := made[0].key,
                             "is_ca" := FormatBool(spec.request.certificate.isCA)] + CaEntry(made[0].request.ca)
    case TLS =>
      ServicesExist(services, namespace, spec.request.certificate.serviceRef) && |made| == 1
      && made[0].MadeCertificate? && made[0].request == RequestFor(secrets, services, namespace, spec)
      && data == map["tls.crt" := made[0].certificate, "tls.key" := made[0].key] + CaEntry(made[0].request.ca)
    case _ => false
  }

  function CaEntry(ca: Authority): StringMap {
    if ca.certificate == "" then map[] else map["ca" := ca.certificate]
  }

  // ---- Creating a secret ------------------------------------------------------------

  // Somebody else made a secret under the name of the spec.
  predicate UserSecret(secrets: Secrets, id: Key, spec: Spec) {
    var key := Key(id.namespace, spec.secretName);
    key in secrets && !IsGeneratedKind(secrets[key].labels)
  }

  function StoredUnder(secrets: Secrets, key: Key, wanted: Mutate.Wanted<string>): Secrets {
    secrets[key := Mutate.Result(if key in secrets then Some(secrets[key]) else None, wanted)]
  }

  predicate Ordinary(e: GoError) {
    !IsCaNotReady(e) && !IsSecNotReady(e)
  }

  method SkipCreation(client: ApiServer, id: Key, spec: Spec) returns (r: Outcome<bool>)
    modifies client`calls
    ensures r.Success? ==> (r.value <==> UserSecret(client.secrets, id, spec))
    ensures client.faults(old(client.calls)) == Fine ==> r.Success?
    ensures client.calls == old(client.calls) + 1
  {
    var existing := client.GetSecret(Key(id.namespace, spec.secretName));
    if existing.Err? {
      return if existing.error == NotFound then Success(false) else Failure(Wrapped("could not get secret", Plain("")));
    }
    r := Success(!IsGeneratedKind(existing.value.labels));
  }

  // How storing some data ends: stored, left to the user, or failed with or
  // without effect.
  ghost predicate StoringEnded(r: Outcome<()>, config: Config, id: Key, spec: Spec, data: StringMap, before: Secrets,
                               after: Secrets)
  {
    var stored := StoredUnder(before, Destination(config, id, spec), Mutate.WantedFor(spec, data));
    && (after == stored || after == before)
    && (r.Success? ==> after == stored || UserSecret(before, id, spec))
    && (r.Failure? ==> Ordinary(r.error))
  }

  // A read error is only logged, and creation goes on.
  method CreateSecrets(client: ApiServer, config: Config, id: Key, spec: Spec, data: StringMap) returns (r: Outcome<()>)
    modifies client`calls, client`secrets, client`secretWrites
    ensures StoringEnded(r, config, id, spec, data, old(client.secrets), client.secrets)
    ensures UserSecret(old(client.secrets), id, spec) && client.faults(old(client.calls)) == Fine ==>
              r.Success? && client.secrets == old(client.secrets)
    ensures CallsWork(client.faults, old(client.calls)) ==> r.Success?
    ensures client.calls >= old(client.calls)
  {
    var skip := SkipCreation(client, id, spec);
    if skip == Success(true) {
      return Success(());
    }
    var op := client.CreateOrUpdate(Destination(config, id, spec), Mutate.WantedFor(spec, data));
    r := if op.Ok? then Success(()) else Failure(Wrapped("could not create or update secret", Plain("")));
  }

  // ---- The types of secrets -----------------------------------------------------------

  // The class of errors that a type answers with a short requeue.
  predicate NotReady(spec: Spec, e: GoError) {
    match spec.secretType
    case Certificate => IsCaNotReady(e)
    case TLS => IsCaNotReady(e)
    case DockerConfigJSON => IsSecNotReady(e)
    case TemplatedConfig => IsSecNotReady(e)
    case _ => false
  }

  // How the creation of a secret ends. What it stores is a product of the
  // credentials it generated; without all that the request refers to it stores
  // nothing, and it is "not ready" only when a secret is missing. When all calls
  // work it succeeds exactly when the request is possible.
  ghost predicate CreationEnded(r: Outcome<()>, config: Config, id: Key, spec: Spec, services: map<Key, Service>,
                                made: seq<Credential>, data: StringMap, before: Secrets, after: Secrets, works: bool)
  {
    && (r.Success? || after != before ==>
          IsProduct(config, before, services, id.namespace, spec, made, data)
          && AllMet(before, id.namespace, Needs(spec)))
    && (after == before || after == StoredUnder(before, Destination(config, id, spec), Mutate.WantedFor(spec, data)))
    && (r.Success? ==> after == StoredUnder(before, Destination(config, id, spec), Mutate.WantedFor(spec, data))
                       || UserSecret(before, id, spec))
    && (r.Failure? && NotReady(spec, r.error) ==> OneMissing(before, id.namespace, Needs(spec)))
    && (works && Waiting(services, before, id.namespace, spec) ==> r.Failure? && NotReady(spec, r.error))
    && (works && UserSecret(before, id, spec) ==> after == before)
    && (works ==> (r.Success? <==> Possible(services, before, id.namespace, spec)))
  }

  // Everything the request asks for is there and allowed.
  predicate Possible(services: map<Key, Service>, secrets: Secrets, namespace: string, spec: Spec) {
    var c := spec.request.certificate;
    && AllMet(secrets, namespace, Needs(spec))
    && match spec.secretType
       case TemplatedConfig => spec.request.templated.engine == HELM_TEMPLATE
       case Certificate =>
         && ServicesExist(services, namespace, c.serviceRef) && !c.signerType.UnknownSigner?
         && (ClusterSigned(spec) && c.activateEKSWorkaroundForSAN ==> ServiceIP(services, namespace, c.serviceRef) != "")
       case TLS => ServicesExist(services, namespace, c.serviceRef) && c.signerType in {NoSigner, LocalSigner}
       case UnknownType(_) => false
       case SecretCopy => false
       case _ => true
  }

  // Missing secrets are all that keeps the request from being resolved.
  predicate Waiting(services: map<Key, Service>, secrets: Secrets, namespace: string, spec: Spec) {
    && (spec.secretType in {Certificate, TLS} ==> ServicesExist(services, namespace, spec.request.certificate.serviceRef))
    && OnlyMissing(secrets, namespace, Needs(spec))
  }
}
