// Certificates, signed locally or by the cluster
// (pkg/kube/controllers/quarkssecret/certificates.go).
module Certificates {
  import opened Types
  import opened Api
  import opened References
  import opened Products
  import Mutate

  // Every service reference adds its names; the first address found is kept.
  method ReadServices(client: ApiServer, namespace: string, c: CertificateRequest)
    returns (r: Outcome<()>, names: seq<string>, serviceIP: string)
    modifies client`calls
    ensures r.Success? ==>
              ServicesExist(client.services, namespace, c.serviceRef)
              && names == AlternativeNames(client.services, namespace, c.alternativeNames, c.serviceRef)
              && serviceIP == ServiceIP(client.services, namespace, c.serviceRef)
    ensures r.Failure? ==> Ordinary(r.error)
    ensures CallsWork(client.faults, old(client.calls)) && ServicesExist(client.services, namespace, c.serviceRef) ==>
              r.Success?
    ensures client.calls >= old(client.calls)
  {
    names, serviceIP := c.alternativeNames, "";
    for i := 0 to |c.serviceRef|
      invariant client.calls >= old(client.calls)
      invariant ServicesExist(client.services, namespace, c.serviceRef[..i])
      invariant names == AlternativeNames(client.services, namespace, c.alternativeNames, c.serviceRef[..i])
      invariant serviceIP == ServiceIP(client.services, namespace, c.serviceRef[..i])
    {
      assert c.serviceRef[..i + 1][..i] == c.serviceRef[..i];
      var service := client.GetService(Key(namespace, c.serviceRef[i]));
      if service.Err? {
        return Failure(Wrapped("failed to get service reference", Plain(""))), names, serviceIP;
      }
      if serviceIP == "" {
        serviceIP := service.value.clusterIP;
      }
      names := names + ServiceNames(service.value);
    }
    assert c.serviceRef[..|c.serviceRef|] == c.serviceRef;
    r := Success(());
  }

  // A secret of the certificate authority; its entries may be absent.
  method ReadCaSecret(client: ApiServer, namespace: string, name: string) returns (r: Outcome<StoredSecret>)
    modifies client`calls
    ensures r.Success? ==> Key(namespace, name) in client.secrets && r.value == client.secrets[Key(namespace, name)]
    ensures r.Failure? && IsCaNotReady(r.error) ==> Key(namespace, name) !in client.secrets
    ensures client.faults(old(client.calls)) == Fine && r.Failure? ==>
              Key(namespace, name) !in client.secrets && IsCaNotReady(r.error)
    ensures client.calls == old(client.calls) + 1
  {
    var secret := client.GetSecret(Key(namespace, name));
    if secret.Err? {
      return Failure(if secret.error == NotFound then CaNotReady("CA secret not found")
                     else Wrapped("getting CA secret", Plain("")));
    }
    r := Success(secret.value);
  }

  method ReadAuthority(client: ApiServer, namespace: string, c: CertificateRequest) returns (r: Outcome<Authority>)
    modifies client`calls
    ensures Classified(r, IsCaNotReady, client.secrets, namespace, AuthorityNeeds(c),
                       CallsWork(client.faults, old(client.calls)))
    ensures r.Success? ==> r.value == AuthorityOf(client.secrets, namespace, c)
    ensures CallsWork(client.faults, old(client.calls)) ==>
              AllMet(client.secrets, namespace, AuthorityNeeds(c)) ==> r.Success?
    ensures client.calls >= old(client.calls)
  {
    if c.caRef.name == "" {
      return Success(Authority("", ""));
    }
    assert Need(c.caRef.name, None) in AuthorityNeeds(c) && Need(c.caKeyRef.name, None) in AuthorityNeeds(c);
    var caSecret := ReadCaSecret(client, namespace, c.caRef.name);
    if caSecret.Failure? {
      return Failure(caSecret.error);
    }
    var ca := if c.caRef.key in caSecret.value.data then caSecret.value.data[c.caRef.key] else "";
    if c.caKeyRef.name != c.caRef.name {
      caSecret := ReadCaSecret(client, namespace, c.caKeyRef.name);
      if caSecret.Failure? {
        return Failure(caSecret.error);
      }
    }
    var key := if c.caKeyRef.key in caSecret.value.data then caSecret.value.data[c.caKeyRef.key] else "";
    r := Success(Authority(ca, key));
  }

  method GenerateCertificateGenerationRequest(client: ApiServer, namespace: string, c: CertificateRequest,
                                              signer: SignerType, names: seq<string>)
    returns (r: Outcome<GenerationRequest>)
    modifies client`calls
    ensures r.Success? ==>
              r.value == if signer == ClusterSigner then GenerationRequest(c.commonName, names, false, Authority("", ""))
                         else GenerationRequest(c.commonName, names, c.isCA, AuthorityOf(client.secrets, namespace, c))
    ensures r.Success? ==> signer in {LocalSigner, ClusterSigner}
    ensures Classified(r, IsCaNotReady, client.secrets, namespace, if signer == LocalSigner then AuthorityNeeds(c) else {},
                       CallsWork(client.faults, old(client.calls)))
    ensures CallsWork(client.faults, old(client.calls)) && signer in {LocalSigner, ClusterSigner} ==>
              AllMet(client.secrets, namespace, if signer == LocalSigner then AuthorityNeeds(c) else {}) ==> r.Success?
    ensures client.calls >= old(client.calls)
  {
    match signer
    case ClusterSigner => r := Success(GenerationRequest(c.commonName, names, false, Authority("", "")));
    case LocalSigner =>
      var ca := ReadAuthority(client, namespace, c);
      r := if ca.Success? then Success(GenerationRequest(c.commonName, names, c.isCA, ca.value)) else Failure(ca.error);
    case _ => r := Failure(Plain("unrecognized signer type"));
  }

  function RequestObject(config: Config, id: Key, qsec: QuarksSecret, body: string): SigningRequest {
    SigningRequest(body, qsec.spec.request.certificate.usages,
                   qsec.annotations[ANNOTATION_CERT_SECRET_NAME := qsec.spec.secretName]
                   [ANNOTATION_QSEC_NAMESPACE := id.namespace][ANNOTATION_QSEC_NAME := id.name]
                   [ANNOTATION_MONITORED_ID := config.monitoredID],
                   [], "")
  }

  // An existing request is immutable and left alone.
  method CreateCertificateSigningRequest(client: ApiServer, config: Config, id: Key, qsec: QuarksSecret, body: string)
    returns (r: Outcome<()>)
    modifies client`calls, client`requests
    ensures client.requests == old(client.requests)
            || (id !in old(client.requests)
                && client.requests == old(client.requests)[id := RequestObject(config, id, qsec, body)])
    ensures r.Success? ==> id in client.requests
    ensures r.Failure? ==> Ordinary(r.error)
    ensures CallsWork(client.faults, old(client.calls)) ==> r.Success?
    ensures client.calls >= old(client.calls)
  {
    var existing := client.GetRequest(id);
    if existing.Ok? {
      return Success(());
    }
    if existing.error != NotFound {
      return Failure(Wrapped("could not get certificatesigningrequest", Plain("")));
    }
    var created := client.CreateRequest(id, RequestObject(config, id, qsec, body));
    r := if created.Ok? then Success(()) else Failure(Wrapped("could not create certificatesigningrequest", Plain("")));
  }

  // A request is created only once its key is stored, or left to a user secret.
  ghost predicate RequestEnded(config: Config, id: Key, qsec: QuarksSecret, made: seq<Credential>, data: StringMap,
                               before: Secrets, after: Secrets, requests: map<Key, SigningRequest>,
                               requestsAfter: map<Key, SigningRequest>)
  {
    || requestsAfter == requests
    || (id !in requests && ClusterSigned(qsec.spec) && |made| == 1 && made[0].MadeSigningRequest?
        && requestsAfter == requests[id := RequestObject(config, id, qsec, made[0].body)]
        && (after == StoredUnder(before, Destination(config, id, qsec.spec), Mutate.WantedFor(qsec.spec, data))
            || UserSecret(before, id, qsec.spec)))
  }

  // The key of the request comes first, then the request.
  method CreateClusterSigned(client: ApiServer, gen: Generator, config: Config, id: Key, qsec: QuarksSecret,
                             request: GenerationRequest)
    returns (r: Outcome<()>, ghost data: StringMap)
    requires qsec.spec.secretType == Certificate && ClusterSigned(qsec.spec)
    requires Possible(client.services, client.secrets, id.namespace, qsec.spec)
    requires request == RequestFor(client.secrets, client.services, id.namespace, qsec.spec)
    modifies client`calls, client`secrets, client`secretWrites, client`requests, gen
    ensures old(gen.made) <= gen.made
    ensures CreationEnded(r, config, id, qsec.spec, client.services, gen.made[|old(gen.made)|..], data,
                          old(client.secrets), client.secrets,
                          CallsWork(client.faults, old(client.calls)) && NeverFails(gen.fails))
    ensures client.calls >= old(client.calls)
    ensures RequestEnded(config, id, qsec, gen.made[|old(gen.made)|..], data, old(client.secrets), client.secrets,
                         old(client.requests), client.requests)
    ensures r.Success? ==> id in client.requests
  {
    data := map[];
    var made := gen.GenerateCertificateSigningRequest(request);
    if made.Failure? {
      return Failure(made.error), data;
    }
    assert gen.made[|old(gen.made)|..] == [made.value];
    var stringData := map["private_key" := made.value.key, "is_ca" := FormatBool(qsec.spec.request.certificate.isCA)];
    data := stringData;
    r := CreateSecrets(client, config, id, qsec.spec, stringData);
    if r.Success? {
      r := CreateCertificateSigningRequest(client, config, id, qsec, made.value.body);
    }
  }

  method CreateLocallySigned(client: ApiServer, gen: Generator, config: Config, id: Key, spec: Spec,
                             request: GenerationRequest)
    returns (r: Outcome<()>, ghost data: StringMap)
    requires spec.secretType in {Certificate, TLS} && !ClusterSigned(spec)
    requires Possible(client.services, client.secrets, id.namespace, spec)
    requires request == RequestFor(client.secrets, client.services, id.namespace, spec)
    modifies client`calls, client`secrets, client`secretWrites, gen
    ensures old(gen.made) <= gen.made
    ensures CreationEnded(r, config, id, spec, client.services, gen.made[|old(gen.made)|..], data,
                          old(client.secrets), client.secrets,
                          CallsWork(client.faults, old(client.calls)) && NeverFails(gen.fails))
    ensures client.calls >= old(client.calls)
  {
    data := map[];
    var made := gen.GenerateCertificate(request);
    if made.Failure? {
      return Failure(made.error), data;
    }
    assert gen.made[|old(gen.made)|..] == [made.value];
    var stringData := if spec.secretType == TLS
                      then map["tls.crt" := made.value.certificate, "tls.key" := made.value.key]
                      else map["certificate" := made.value.certificate, "private_key" := made.value.key,
                               "is_ca" := FormatBool(spec.request.certificate.isCA)];
    stringData := stringData + CaEntry(request.ca);
    data := stringData;
    r := CreateSecrets(client, config, id, spec, stringData);
  }

  // Everything a certificate needs before it can be generated.
  method PrepareRequest(client: ApiServer, namespace: string, spec: Spec) returns (r: Outcome<GenerationRequest>)
    requires spec.secretType in {Certificate, TLS}
    modifies client`calls
    ensures r.Success? ==> Possible(client.services, client.secrets, namespace, spec)
                           && r.value == RequestFor(client.secrets, client.services, namespace, spec)
    ensures CallsWork(client.faults, old(client.calls)) ==>
              (r.Success? <==> Possible(client.services, client.secrets, namespace, spec))
    ensures r.Failure? && NotReady(spec, r.error) ==> OneMissing(client.secrets, namespace, Needs(spec))
    ensures CallsWork(client.faults, old(client.calls)) && Waiting(client.services, client.secrets, namespace, spec) ==>
              r.Failure? && NotReady(spec, r.error)
    ensures client.calls >= old(client.calls)
  {
    var c := spec.request.certificate;
    var read, names, serviceIP := ReadServices(client, namespace, c);
    if read.Failure? {
      return Failure(read.error);
    }
    var signer := if c.signerType == NoSigner then LocalSigner else c.signerType;
    r := GenerateCertificateGenerationRequest(client, namespace, c, signer, names);
    if r.Failure? {
      return Failure(Wrapped("generating certificate generation request", r.error));
    }
    if signer == ClusterSigner {
      if spec.secretType == TLS {
        return Failure(Plain("can't generate tls Type with cluster SignerType"));
      }
      if c.activateEKSWorkaroundForSAN {
        if serviceIP == "" {
          return Failure(Plain("can't activate EKS workaround"));
        }
        r := Success(r.value.(commonName := serviceIP));
      }
    }
  }

  method CreateCertificateSecret(client: ApiServer, gen: Generator, config: Config, id: Key, qsec: QuarksSecret)
    returns (r: Outcome<()>, ghost data: StringMap)
    requires qsec.spec.secretType in {Certificate, TLS}
    modifies client`calls, client`secrets, client`secretWrites, client`requests, gen
    ensures old(gen.made) <= gen.made
    ensures CreationEnded(r, config, id, qsec.spec, client.services, gen.made[|old(gen.made)|..], data,
                          old(client.secrets), client.secrets,
                          CallsWork(client.faults, old(client.calls)) && NeverFails(gen.fails))
    ensures client.calls >= old(client.calls)
    ensures RequestEnded(config, id, qsec, gen.made[|old(gen.made)|..], data, old(client.secrets), client.secrets,
                         old(client.requests), client.requests)
    ensures r.Success? && ClusterSigned(qsec.spec) ==> id in client.requests
  {
    data := map[];
    var request := PrepareRequest(client, id.namespace, qsec.spec);
    if request.Failure? {
      return Failure(request.error), data;
    }
    if ClusterSigned(qsec.spec) {
      r, data := CreateClusterSigned(client, gen, config, id, qsec, request.value);
    } else {
      r, data := CreateLocallySigned(client, gen, config, id, qsec.spec, request.value);
    }
  }
}
