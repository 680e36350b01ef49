// From the spec of a quarks secret to its certificate: what the generation pass
// writes is what the CSR controller looks for, and what the two of them and the
// cluster leave in the end.
module SigningJourney {
  import opened Types
  import opened Api
  import opened Products
  import References
  import Certificates
  import Generation
  import Signing
  import Mutate

  // A new request leads the CSR controller back to the quarks secret, to the secret
  // that its spec names, and to the secret that holds its key.
  lemma RequestLeadsBack(config: Config, id: Key, qsec: QuarksSecret, body: string)
    ensures var r := Certificates.RequestObject(config, id, qsec, body);
            && Signing.Annotated(r)
            && Signing.Target(r) == Key(id.namespace, qsec.spec.secretName) && Signing.Owner(r) == id
            && r.body == body && r.usages == qsec.spec.request.certificate.usages
            && r.certificate == "" && r.conditions == []
            && (ClusterSigned(qsec.spec) ==> Signing.KeySecret(config, id, r) == Destination(config, id, qsec.spec))
            && "quarks.cloudfoundry.org/monitored-id" in r.annotations
            && r.annotations["quarks.cloudfoundry.org/monitored-id"] == config.monitoredID
  {
  }

  // The spec asks for a certificate of the cluster, and nothing stands in its way:
  // it is possible, the name is free or the operator's own, the key has a secret of
  // its own, and there is no request yet.
  ghost predicate Unhindered(client: ApiServer, gen: Generator, config: Config, id: Key, now: nat)
    reads client, gen
  {
    && CallsWork(client.faults, client.calls) && NeverFails(gen.fails) && id in client.qsecs && id !in client.requests
    && var qsec := client.qsecs[id];
       var c := qsec.spec.request.certificate;
       var target := Key(id.namespace, qsec.spec.secretName);
       && qsec.spec.secretType == Certificate && c.signerType == ClusterSigner
       && !InMeltdown(config.meltdownDuration, qsec.status.lastReconcile, now)
       && Possible(client.services, client.secrets, id.namespace, qsec.spec)
       && (target in client.secrets ==>
             HasEntry(client.secrets[target].labels, "quarks.cloudfoundry.org/secret-kind", "generated"))
       && config.keySecretName(id) != qsec.spec.secretName
  }

  // The generation pass: one key and request are made, the key is stored, and the
  // request waits for approval.
  method Generates(client: ApiServer, gen: Generator, config: Config, id: Key, now: nat)
    returns (ghost made: Credential)
    requires Unhindered(client, gen, config, id, now)
    modifies client`calls, client`secrets, client`secretWrites, client`requests, client`qsecs, client`statusWrites, gen
    ensures CallsWork(client.faults, client.calls) && client.calls >= old(client.calls)
    ensures gen.made == old(gen.made) + [made] && made.MadeSigningRequest?
    ensures var qsec := old(client.qsecs)[id];
            && client.requests ==
               old(client.requests)[id := Certificates.RequestObject(config, id, qsec, made.body)]
            && client.qsecs == old(client.qsecs)[id := qsec.(status := Status(Some(now), Some(true), Some(false)))]
            && var keySecret := Key(id.namespace, config.keySecretName(id));
               && keySecret in client.secrets && client.secrets - {keySecret} == old(client.secrets) - {keySecret}
               && "private_key" in client.secrets[keySecret].data && "is_ca" in client.secrets[keySecret].data
               && client.secrets[keySecret].data["private_key"] == made.key
               && client.secrets[keySecret].data["is_ca"] ==
                  if qsec.spec.request.certificate.isCA then "true" else "false"
  {
    ghost var n := |gen.made|;
    var r;
    ghost var data;
    r, data := Generation.Reconcile(client, gen, config, id, now);
    made := gen.made[n];
    assert gen.made[n..] == [made];
  }

  // The CSR controller approves the request.
  method Approves(client: ApiServer, config: Config, id: Key, listed: Answer<seq<Signing.ListedSecret>>)
    requires CallsWork(client.faults, client.calls) && id in client.requests
    requires client.requests[id].certificate == "" && client.requests[id].conditions == []
    modifies client`calls, client`secrets, client`secretWrites, client`requests
    ensures CallsWork(client.faults, client.calls) && client.secrets == old(client.secrets)
    ensures client.requests == old(client.requests)[id := old(client.requests)[id].(conditions := ["Approved"])]
  {
    var r;
    ghost var rootCA;
    r, rootCA := Signing.Reconcile(client, config, id, listed);
    assert old(client.requests)[id].conditions + ["Approved"] == ["Approved"];
  }

  // The CSR controller hands the issued certificate over.
  method HandsOver(client: ApiServer, config: Config, id: Key, ghost qsec: QuarksSecret,
                   ghost request: SigningRequest, listed: Answer<seq<Signing.ListedSecret>>, ghost rootCA: string)
    requires CallsWork(client.faults, client.calls) && id in client.qsecs && id in client.requests
    requires client.requests[id] == request && request.certificate != ""
    requires request == Certificates.RequestObject(config, id, qsec, request.body)
                        .(conditions := ["Approved"], certificate := request.certificate)
    requires Key(id.namespace, config.keySecretName(id)) in client.secrets
    requires config.keySecretName(id) != qsec.spec.secretName
    requires "private_key" in client.secrets[Key(id.namespace, config.keySecretName(id))].data
    requires "is_ca" in client.secrets[Key(id.namespace, config.keySecretName(id))].data
    requires Signing.IsRootCA(listed, rootCA)
    modifies client`calls, client`secrets, client`secretWrites, client`requests
    ensures client.requests == old(client.requests) - {id}
    ensures var target, keySecret := Key(id.namespace, qsec.spec.secretName), Key(id.namespace, config.keySecretName(id));
            && target in client.secrets && keySecret !in client.secrets
            && client.secrets[target].data ==
               map["ca" := rootCA, "certificate" := request.certificate,
                   "private_key" := old(client.secrets)[keySecret].data["private_key"],
                   "is_ca" := old(client.secrets)[keySecret].data["is_ca"]]
            && client.secrets - {target} == old(client.secrets) - {target, keySecret}
  {
    RequestLeadsBack(config, id, qsec, request.body);
    var r;
    ghost var ca;
    r, ca := Signing.Reconcile(client, config, id, listed);
  }

  // All four steps. In the end the secret that the spec names holds the cluster's
  // certificate for the request that was made, with the key that was made for it;
  // key secret and request are gone, and the quarks secret is acknowledged.
  method IssueCertificate(client: ApiServer, gen: Generator, config: Config, id: Key, now: nat, certificate: string,
                          listed: Answer<seq<Signing.ListedSecret>>, ghost rootCA: string)
    returns (ghost made: Credential, ghost seen: SigningRequest)
    requires Unhindered(client, gen, config, id, now) && certificate != "" && Signing.IsRootCA(listed, rootCA)
    modifies client`calls, client`secrets, client`secretWrites, client`requests, client`qsecs, client`statusWrites, gen
    ensures gen.made == old(gen.made) + [made] && made.MadeSigningRequest?
    // What the cluster saw when it issued the certificate.
    ensures seen.body == made.body && "Approved" in seen.conditions
            && seen.usages == old(client.qsecs)[id].spec.request.certificate.usages
    ensures var qsec := old(client.qsecs)[id];
            var target, keySecret := Key(id.namespace, qsec.spec.secretName), Key(id.namespace, config.keySecretName(id));
            && target in client.secrets && keySecret !in client.secrets
            && client.secrets[target].data ==
               map["ca" := rootCA, "certificate" := certificate, "private_key" := made.key,
                   "is_ca" := if qsec.spec.request.certificate.isCA then "true" else "false"]
            && client.secrets - {target} == old(client.secrets) - {target, keySecret}
            && client.requests == old(client.requests)
            && client.qsecs == old(client.qsecs)[id := qsec.(status := Status(Some(now), Some(true), Some(false)))]
  {
    ghost var qsec, before := client.qsecs[id], client.secrets;
    ghost var target, keySecret := Key(id.namespace, qsec.spec.secretName), Key(id.namespace, config.keySecretName(id));
    made := Generates(client, gen, config, id, now);
    assert client.secrets - {target, keySecret} == before - {target, keySecret} by {
      assert (client.secrets - {keySecret}) - {target} == client.secrets - {target, keySecret};
      assert (before - {keySecret}) - {target} == before - {target, keySecret};
    }
    Approves(client, config, id, listed);
    seen := client.requests[id];
    client.Issue(id, certificate);
    HandsOver(client, config, id, qsec, client.requests[id], listed, rootCA);
    assert client.requests == old(client.requests);
  }
}
