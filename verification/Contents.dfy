// What a finished generation pass has stored, entry by entry, and that the state
// machine takes the same entries for generated.
module Contents {
  import opened Types
  import opened Api
  import opened References
  import opened Products
  import DockerConfig
  import Mutate
  import Operator

  // ---- Where -------------------------------------------------------------------

  // The key of a request to the cluster has a secret of its own; everything else goes
  // to the secret that the spec names.
  lemma DestinationExactly(config: Config, id: Key, spec: Spec)
    ensures Destination(config, id, spec) ==
            if (spec.secretType == Certificate || spec.secretType == TLS)
               && spec.request.certificate.signerType == ClusterSigner
            then Key(id.namespace, config.keySecretName(id)) else Key(id.namespace, spec.secretName)
    ensures match Operator.Destination(id, spec)
            case Plain(key) => Destination(config, id, spec) == key
            case KeySecret(owner) => Destination(config, id, spec) == Key(id.namespace, config.keySecretName(owner))
  {
  }

  // One secret is written: its new entries over the old ones, with the labels and
  // annotations of the spec and the generated kind.
  lemma StoredExactly(secrets: Secrets, key: Key, spec: Spec, data: StringMap)
    ensures var after := StoredUnder(secrets, key, Mutate.WantedFor(spec, data));
            var plain := spec.secretType == BasicAuth || spec.secretType == DockerConfigJSON;
            var labels: StringMap := if plain then map[] else spec.secretLabels;
            && key in after && after - {key} == secrets - {key}
            && after[key].labels == labels["quarks.cloudfoundry.org/secret-kind" := "generated"]
            && after[key].annotations == (if plain then map[] else spec.secretAnnotations)
            && after[key].data == if key in secrets then secrets[key].data + data else data
  {
    Mutate.GeneratedFieldByField(spec, if key in secrets then Some(secrets[key]) else None, data);
  }

  // Left to a user is a secret under the name of the spec without the generated kind.
  lemma UserSecretExactly(secrets: Secrets, id: Key, spec: Spec)
    ensures var key, kind := Key(id.namespace, spec.secretName), "quarks.cloudfoundry.org/secret-kind";
            UserSecret(secrets, id, spec) <==>
            key in secrets && (kind in secrets[key].labels ==> secrets[key].labels[kind] != "generated")
  {
  }

  // ---- What ------------------------------------------------------------------------

  lemma PasswordContents(config: Config, secrets: Secrets, services: map<Key, Service>, namespace: string, spec: Spec,
                         made: seq<Credential>, data: StringMap)
    requires spec.secretType == Password && IsProduct(config, secrets, services, namespace, spec, made, data)
    ensures exists password :: made == [MadePassword(password)] && data == map["password" := password]
  {
    assert made == [MadePassword(made[0].text)];
  }

  lemma KeyContents(config: Config, secrets: Secrets, services: map<Key, Service>, namespace: string, spec: Spec,
                    made: seq<Credential>, data: StringMap)
    requires spec.secretType == RSAKey || spec.secretType == SSHKey
    requires IsProduct(config, secrets, services, namespace, spec, made, data)
    ensures |made| == 1 && made[0].MadeKeys?
    ensures data.Keys == if spec.secretType == RSAKey then {"private_key", "public_key"}
                         else {"private_key", "public_key", "public_key_fingerprint"}
    ensures data["private_key"] == made[0].privateKey && data["public_key"] == made[0].publicKey
    ensures spec.secretType == SSHKey ==> data["public_key_fingerprint"] == made[0].fingerprint
  {
  }

  // The username is made first, unless it is given.
  lemma BasicAuthContents(config: Config, secrets: Secrets, services: map<Key, Service>, namespace: string, spec: Spec,
                          made: seq<Credential>, data: StringMap)
    requires spec.secretType == BasicAuth && IsProduct(config, secrets, services, namespace, spec, made, data)
    ensures data.Keys == {"username", "password"}
    ensures var given := spec.request.basicAuthUsername;
            if given != "" then data["username"] == given && made == [MadePassword(data["password"])]
            else made == [MadePassword(data["username"]), MadePassword(data["password"])]
  {
  }

  // The text of a reference, empty if there is none.
  function TextBehind(secrets: Secrets, namespace: string, ref: SecretReference): string {
    var key := Key(namespace, ref.name);
    if ref.name != "" && key in secrets && ref.key in secrets[key].data then secrets[key].data[ref.key] else ""
  }

  lemma ReferencedText(secrets: Secrets, namespace: string, ref: SecretReference)
    requires AllMet(secrets, namespace, OptionalNeed(ref))
    ensures Referenced(secrets, namespace, ref) == TextBehind(secrets, namespace, ref)
    ensures ref.name != "" ==> Key(namespace, ref.name) in secrets && ref.key in secrets[Key(namespace, ref.name)].data
  {
    assert ref.name != "" ==> EntryNeed(ref) in OptionalNeed(ref);
  }

  lemma CredentialsExactly(secrets: Secrets, namespace: string, image: ImageCredentialsRequest, made: seq<Credential>,
                           username: string, password: string)
    requires AreCredentials(secrets, namespace, image, made, username, password)
    ensures var u, p := TextBehind(secrets, namespace, image.username), TextBehind(secrets, namespace, image.password);
            && (u != "" ==> username == u) && (p != "" ==> password == p)
            && made == (if u == "" then [MadePassword(username)] else [])
                       + (if p == "" then [MadePassword(password)] else [])
  {
    ReferencedText(secrets, namespace, image.username);
    ReferencedText(secrets, namespace, image.password);
  }

  // The printed document, with the referenced credentials and generated ones for
  // those that are empty.
  lemma DockerContents(config: Config, secrets: Secrets, services: map<Key, Service>, namespace: string, spec: Spec,
                       made: seq<Credential>, data: StringMap)
    requires spec.secretType == DockerConfigJSON && IsProduct(config, secrets, services, namespace, spec, made, data)
    ensures var image := spec.request.image;
            var u, p := TextBehind(secrets, namespace, image.username), TextBehind(secrets, namespace, image.password);
            exists username, password ::
              && (u != "" ==> username == u) && (p != "" ==> password == p)
              && made == (if u == "" then [MadePassword(username)] else [])
                         + (if p == "" then [MadePassword(password)] else [])
              && data == map[".dockerconfigjson" := DockerConfig.Print(image.registry, username, password, image.email)]
  {
    var image := spec.request.image;
    var username, password :|
      AreCredentials(secrets, namespace, image, made, username, password)
      && data == map[".dockerconfigjson" := DockerConfig.Print(image.registry, username, password, image.email)];
    CredentialsExactly(secrets, namespace, image, made, username, password);
  }

  // Every value reads the entry that its own reference names.
  lemma TemplatedContents(config: Config, secrets: Secrets, services: map<Key, Service>, namespace: string, spec: Spec,
                          made: seq<Credential>, data: StringMap)
    requires spec.secretType == TemplatedConfig && IsProduct(config, secrets, services, namespace, spec, made, data)
    ensures made == []
    ensures var request := spec.request.templated;
            exists values: StringMap ::
              && data == config.render(request.templates, values) && values.Keys == request.values.Keys
              && forall name :: name in values ==>
                   var ref := request.values[name];
                   && Key(namespace, ref.name) in secrets && ref.key in secrets[Key(namespace, ref.name)].data
                   && values[name] == secrets[Key(namespace, ref.name)].data[ref.key]
  {
    var request := spec.request.templated;
    forall name | name in request.values
      ensures var ref := request.values[name];
              Key(namespace, ref.name) in secrets && ref.key in secrets[Key(namespace, ref.name)].data
    {
      assert Met(secrets, namespace, EntryNeed(request.values[name]));
    }
    var values := ResolvedValues(secrets, namespace, request.values);
    assert data == config.render(request.templates, values);
  }

  // A locally signed certificate with its key, whether it can sign others, and the
  // certificate, never the key, of the authority that signed it.
  lemma CertificateContents(config: Config, secrets: Secrets, services: map<Key, Service>, namespace: string, spec: Spec,
                            made: seq<Credential>, data: StringMap)
    requires spec.secretType == Certificate && spec.request.certificate.signerType != ClusterSigner
    requires IsProduct(config, secrets, services, namespace, spec, made, data)
    ensures |made| == 1 && made[0].MadeCertificate?
    ensures data.Keys == {"certificate", "private_key", "is_ca"}
                         + (if made[0].request.ca.certificate != "" then {"ca"} else {})
    ensures data["certificate"] == made[0].certificate && data["private_key"] == made[0].key
    ensures data["is_ca"] == if spec.request.certificate.isCA then "true" else "false"
    ensures "ca" in data ==> data["ca"] == made[0].request.ca.certificate
  {
  }

  lemma TLSContents(config: Config, secrets: Secrets, services: map<Key, Service>, namespace: string, spec: Spec,
                    made: seq<Credential>, data: StringMap)
    requires spec.secretType == TLS && IsProduct(config, secrets, services, namespace, spec, made, data)
    ensures |made| == 1 && made[0].MadeCertificate?
    ensures data.Keys == {"tls.crt", "tls.key"} + (if made[0].request.ca.certificate != "" then {"ca"} else {})
    ensures data["tls.crt"] == made[0].certificate && data["tls.key"] == made[0].key
    ensures "ca" in data ==> data["ca"] == made[0].request.ca.certificate
  {
  }

  // The key secret of a request to the cluster.
  lemma KeySecretContents(config: Config, secrets: Secrets, services: map<Key, Service>, namespace: string, spec: Spec,
                          made: seq<Credential>, data: StringMap)
    requires spec.secretType == Certificate && spec.request.certificate.signerType == ClusterSigner
    requires IsProduct(config, secrets, services, namespace, spec, made, data)
    ensures |made| == 1 && made[0].MadeSigningRequest?
    ensures data == map["private_key" := made[0].key,
                        "is_ca" := if spec.request.certificate.isCA then "true" else "false"]
  {
  }

  // ---- What a certificate is asked for ------------------------------------------------

  lemma RequestExactly(secrets: Secrets, services: map<Key, Service>, namespace: string, spec: Spec)
    requires spec.secretType == Certificate || spec.secretType == TLS
    requires ServicesExist(services, namespace, spec.request.certificate.serviceRef)
    ensures var c := spec.request.certificate;
            var r := RequestFor(secrets, services, namespace, spec);
            var cluster := c.signerType == ClusterSigner;
            && r.commonName == (if cluster && c.activateEKSWorkaroundForSAN
                                then ServiceIP(services, namespace, c.serviceRef) else c.commonName)
            && r.alternativeNames == AlternativeNames(services, namespace, c.alternativeNames, c.serviceRef)
            && (r.isCA <==> c.isCA && !cluster)
            && (if cluster || c.caRef.name == "" then r.ca == Authority("", "")
                else r.ca.certificate == TextBehind(secrets, namespace, c.caRef)
                     && (c.caKeyRef.name != "" ==> r.ca.key == TextBehind(secrets, namespace, c.caKeyRef)))
  {
  }

  // Each service adds its four names, its two addresses, its external name and its
  // external addresses after those of the services before it.
  lemma NamesOfAService(services: map<Key, Service>, namespace: string, names: seq<string>, refs: seq<string>, ref: string)
    requires ServicesExist(services, namespace, refs) && Key(namespace, ref) in services
    ensures AlternativeNames(services, namespace, names, []) == names
    ensures var s := services[Key(namespace, ref)];
            AlternativeNames(services, namespace, names, refs + [ref]) ==
            AlternativeNames(services, namespace, names, refs)
            + [s.name, s.name + "." + s.namespace, "*." + s.name, "*." + s.name + "." + s.namespace,
               s.clusterIP, s.loadBalancerIP, s.externalName] + s.externalIPs
  {
    assert (refs + [ref])[..|refs|] == refs;
    var s := services[Key(namespace, ref)];
    var before := AlternativeNames(services, namespace, names, refs);
    assert before + ServiceNames(s) ==
           before + [s.name, s.name + "." + s.namespace, "*." + s.name, "*." + s.name + "." + s.namespace,
                     s.clusterIP, s.loadBalancerIP, s.externalName] + s.externalIPs;
  }

  // The first cluster address that is not empty.
  lemma {:induction false} AddressOfTheServices(services: map<Key, Service>, namespace: string, refs: seq<string>)
    requires ServicesExist(services, namespace, refs)
    ensures var ip := ServiceIP(services, namespace, refs);
            if ip == "" then forall ref :: ref in refs ==> services[Key(namespace, ref)].clusterIP == ""
            else exists i: nat :: i < |refs| && services[Key(namespace, refs[i])].clusterIP == ip
                                  && forall j :: 0 <= j < i ==> services[Key(namespace, refs[j])].clusterIP == ""
  {
    if refs != [] {
      var most := refs[..|refs| - 1];
      AddressOfTheServices(services, namespace, most);
      assert refs == most + [refs[|refs| - 1]];
      if ServiceIP(services, namespace, most) != "" {
        var i: nat :| i < |most| && services[Key(namespace, most[i])].clusterIP == ServiceIP(services, namespace, most)
                      && forall j :: 0 <= j < i ==> services[Key(namespace, most[j])].clusterIP == "";
        assert refs[i] == most[i] && forall j :: 0 <= j < i ==> refs[j] == most[j];
      } else if ServiceIP(services, namespace, refs) != "" {
        assert forall j :: 0 <= j < |most| ==> refs[j] in most;
      }
    }
  }

  // ---- Whether -----------------------------------------------------------------------

  predicate HasSecret(secrets: Secrets, namespace: string, name: string) {
    Key(namespace, name) in secrets
  }

  predicate HasEntryBehind(secrets: Secrets, namespace: string, ref: SecretReference) {
    Key(namespace, ref.name) in secrets && ref.key in secrets[Key(namespace, ref.name)].data
  }

  // All that a request refers to is there: for a template every reference, for a
  // registry document and for an authority those that have a name.
  lemma NeedsMetExactly(secrets: Secrets, namespace: string, spec: Spec)
    ensures AllMet(secrets, namespace, Needs(spec)) <==>
            match spec.secretType
            case DockerConfigJSON =>
              var image := spec.request.image;
              && (image.username.name != "" ==> HasEntryBehind(secrets, namespace, image.username))
              && (image.password.name != "" ==> HasEntryBehind(secrets, namespace, image.password))
            case TemplatedConfig =>
              var values := spec.request.templated.values;
              forall name :: name in values ==> HasEntryBehind(secrets, namespace, values[name])
            case Certificate => AuthorityThere(secrets, namespace, spec.request.certificate)
            case TLS => AuthorityThere(secrets, namespace, spec.request.certificate)
            case _ => true
  {
    match spec.secretType {
      case DockerConfigJSON =>
        var image := spec.request.image;
        assert image.username.name != "" ==> EntryNeed(image.username) in Needs(spec);
        assert image.password.name != "" ==> EntryNeed(image.password) in Needs(spec);
      case TemplatedConfig =>
        var values := spec.request.templated.values;
        assert forall name :: name in values ==> EntryNeed(values[name]) in Needs(spec);
      case Certificate => AuthorityNeedsMet(secrets, namespace, spec.request.certificate);
      case TLS => AuthorityNeedsMet(secrets, namespace, spec.request.certificate);
      case _ =>
    }
  }

  // A local signer needs both secrets of its authority, with or without the entries.
  predicate AuthorityThere(secrets: Secrets, namespace: string, c: CertificateRequest) {
    (c.signerType == NoSigner || c.signerType == LocalSigner) && c.caRef.name != "" ==>
      HasSecret(secrets, namespace, c.caRef.name) && HasSecret(secrets, namespace, c.caKeyRef.name)
  }

  lemma AuthorityNeedsMet(secrets: Secrets, namespace: string, c: CertificateRequest)
    ensures c.caRef.name != "" ==>
              (AllMet(secrets, namespace, AuthorityNeeds(c)) <==>
               HasSecret(secrets, namespace, c.caRef.name) && HasSecret(secrets, namespace, c.caKeyRef.name))
  {
    assert c.caRef.name != "" ==>
             Need(c.caRef.name, None) in AuthorityNeeds(c) && Need(c.caKeyRef.name, None) in AuthorityNeeds(c);
  }

  // A request is impossible for these reasons only.
  lemma PossibleExactly(services: map<Key, Service>, secrets: Secrets, namespace: string, spec: Spec)
    ensures var c := spec.request.certificate;
            var certificate := spec.secretType == Certificate || spec.secretType == TLS;
            var cluster := c.signerType == ClusterSigner;
            !Possible(services, secrets, namespace, spec) <==>
            || !AllMet(secrets, namespace, Needs(spec))
            || spec.secretType == SecretCopy
            || spec.secretType.UnknownType?
            || (spec.secretType == TemplatedConfig && spec.request.templated.engine != "helm")
            || (certificate && exists ref :: ref in c.serviceRef && Key(namespace, ref) !in services)
            || (certificate && c.signerType.UnknownSigner?)
            || (spec.secretType == TLS && cluster)
            || (spec.secretType == Certificate && cluster && c.activateEKSWorkaroundForSAN
                && forall ref :: ref in c.serviceRef ==>
                     Key(namespace, ref) in services && services[Key(namespace, ref)].clusterIP == "")
  {
    var c := spec.request.certificate;
    if ServicesExist(services, namespace, c.serviceRef) {
      AddressOfTheServices(services, namespace, c.serviceRef);
    }
  }

  // Missing authorities count for certificates, other missing secrets for templates
  // and registry documents, through any wrapping.
  lemma NotReadyExactly(spec: Spec, messages: seq<string>, text: string)
    ensures NotReady(spec, WrapAll(messages, CaNotReady(text))) <==>
            spec.secretType == Certificate || spec.secretType == TLS
    ensures NotReady(spec, WrapAll(messages, SecNotReady(text))) <==>
            spec.secretType == DockerConfigJSON || spec.secretType == TemplatedConfig
    ensures !NotReady(spec, WrapAll(messages, Plain(text)))
  {
    WrappingKeepsTheCause(messages, CaNotReady(text));
    WrappingKeepsTheCause(messages, SecNotReady(text));
    WrappingKeepsTheCause(messages, Plain(text));
  }

  // ---- The state machine agrees --------------------------------------------------------

  // Every entry that the state machine takes for generated is one that the pass makes,
  // and every other one is given or says how it was signed; a template makes none.
  lemma GeneratedEntriesMatch(config: Config, secrets: Secrets, services: map<Key, Service>, namespace: string,
                              spec: Spec, made: seq<Credential>, data: StringMap)
    requires IsProduct(config, secrets, services, namespace, spec, made, data)
    ensures spec.secretType == TemplatedConfig || Operator.GeneratedEntries(spec) <= data.Keys
    ensures data.Keys - Operator.GeneratedEntries(spec) <=
            match spec.secretType
            case BasicAuth => if spec.request.basicAuthUsername != "" then {"username"} else {}
            case Certificate => {"is_ca", "ca"}
            case TLS => {"ca"}
            case DockerConfigJSON =>
              if spec.request.image.username.name != "" && spec.request.image.password.name != ""
              then {".dockerconfigjson"} else {}
            case TemplatedConfig => data.Keys
            case _ => {}
    ensures spec.secretType == TemplatedConfig ==> Operator.GeneratedEntries(spec) == {}
  {
    match spec.secretType {
      case Password => PasswordContents(config, secrets, services, namespace, spec, made, data);
      case DockerConfigJSON => DockerContents(config, secrets, services, namespace, spec, made, data);
      case _ =>
    }
  }

  // A pass goes on to make something exactly for the types and signers that can be
  // possible.
  lemma ProducibleExactly(spec: Spec)
    ensures Operator.Producible(spec) <==>
            exists services, secrets :: Possible(services, secrets, "", WithHelm(spec))
  {
    if Operator.Producible(spec) {
      MadePossible(spec);
    }
  }

  // Everything a spec can refer to, in one namespace.
  function AllServices(refs: seq<string>): map<Key, Service> {
    map ref | ref in refs :: Key("", ref) := Service(ref, "", "10.0.0.1", "", "", [])
  }

  function AllSecrets(needs: set<Need>): Secrets {
    var entries := map need | need in needs && need.entry.Some? :: need.entry.value := "";
    map need | need in needs :: Key("", need.secretName) := Secret(map[], map[], entries)
  }

  lemma MadePossible(spec: Spec)
    requires Operator.Producible(spec)
    ensures Possible(AllServices(spec.request.certificate.serviceRef), AllSecrets(Needs(WithHelm(spec))), "", WithHelm(spec))
  {
    var refs := spec.request.certificate.serviceRef;
    var services := AllServices(refs);
    forall need | need in Needs(WithHelm(spec)) ensures Met(AllSecrets(Needs(WithHelm(spec))), "", need) {
      assert Key("", need.secretName) in AllSecrets(Needs(WithHelm(spec)));
    }
    assert ServicesExist(services, "", refs);
    AddressOfTheServices(services, "", refs);
    assert refs != [] ==> services[Key("", refs[0])].clusterIP != "" && refs[0] in refs;
  }

  function WithHelm(spec: Spec): Spec {
    spec.(request := spec.request.(templated := spec.request.templated.(engine := "helm")))
  }

  // A pass can find a secret missing if and only if its request refers to one.
  lemma HasReferencesExactly(spec: Spec)
    ensures Operator.HasReferences(spec) <==> exists need :: need in Needs(spec)
    ensures Operator.HasReferences(spec) <==>
            exists secrets: Secrets, namespace :: OneMissing(secrets, namespace, Needs(spec))
  {
    var image, values := spec.request.image, spec.request.templated.values;
    if spec.secretType == TemplatedConfig && values != map[] {
      var name :| name in values;
      assert EntryNeed(values[name]) in Needs(spec);
    }
    if spec.secretType == DockerConfigJSON {
      assert image.username.name != "" ==> EntryNeed(image.username) in Needs(spec);
      assert image.password.name != "" ==> EntryNeed(image.password) in Needs(spec);
    }
    if spec.secretType == Certificate || spec.secretType == TLS {
      var c := spec.request.certificate;
      assert Operator.HasReferences(spec) ==> Need(c.caRef.name, None) in Needs(spec);
    }
    if need :| need in Needs(spec) {
      assert SecretMissing(map[], "", need);
      assert OneMissing(map[], "", Needs(spec));
    }
  }
}
