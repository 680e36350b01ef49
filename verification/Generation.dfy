// The generation controller's pass as it runs against the API server
// (pkg/kube/controllers/quarkssecret/quarkssecret_reconciler.go), whose calls
// can fail at any point.
module Generation {
  import opened Types
  import opened Api
  import opened References
  import opened Products
  import Mutate
  import Certificates
  import Credentials

  datatype ReconcileResult = Finished | RequeueAfter(seconds: nat) | Failed(error: GoError)

  // An instant in whole seconds; a failed status write is only logged.
  method UpdateStatus(client: ApiServer, id: Key, qsec: QuarksSecret, now: nat)
    requires id in client.qsecs && qsec == client.qsecs[id]
    modifies client`calls, client`qsecs, client`statusWrites
    ensures client.qsecs == old(client.qsecs)
            || client.qsecs == WithAcknowledgement(old(client.qsecs), id, now)
    ensures CallsWork(client.faults, old(client.calls)) ==>
              client.qsecs == WithAcknowledgement(old(client.qsecs), id, now)
    ensures client.calls >= old(client.calls)
  {
    var _ := client.UpdateStatus(id, Acknowledged(qsec.status, now));
  }

  function WithAcknowledgement(qsecs: map<Key, QuarksSecret>, id: Key, now: nat): map<Key, QuarksSecret>
    requires id in qsecs
  {
    qsecs[id := qsecs[id].(status := Acknowledged(qsecs[id].status, now))]
  }

  // The acknowledgement sets all three parts of the status, and nothing else.
  lemma AcknowledgementFieldByField(qsecs: map<Key, QuarksSecret>, id: Key, now: nat)
    requires id in qsecs
    ensures WithAcknowledgement(qsecs, id, now) ==
            qsecs[id := QuarksSecret(qsecs[id].annotations, qsecs[id].spec, Status(Some(now), Some(true), Some(false)))]
  {
  }

  // A pass does nothing from its last acknowledgement on until the duration is over.
  lemma MeltdownExactly(duration: nat, last: nat, now: nat)
    ensures !InMeltdown(duration, None, now)
    ensures now >= last ==> (InMeltdown(duration, Some(last), now) <==> now - last < duration)
    ensures now < last ==> !InMeltdown(duration, Some(last), now)
  {
  }

  // The creation of the secret, by type. An unknown type is an error.
  method CreateByType(client: ApiServer, gen: Generator, config: Config, id: Key, qsec: QuarksSecret)
    returns (r: Outcome<()>, ghost data: StringMap)
    requires qsec.spec.secretType != SecretCopy
    modifies client`calls, client`secrets, client`secretWrites, client`requests, gen
    ensures old(gen.made) <= gen.made
    ensures CreationEnded(r, config, id, qsec.spec, client.services, gen.made[|old(gen.made)|..], data,
                          old(client.secrets), client.secrets,
                          CallsWork(client.faults, old(client.calls)) && NeverFails(gen.fails))
    ensures client.calls >= old(client.calls)
    ensures Certificates.RequestEnded(config, id, qsec, gen.made[|old(gen.made)|..], data, old(client.secrets),
                                      client.secrets, old(client.requests), client.requests)
    ensures r.Success? && ClusterSigned(qsec.spec) ==> id in client.requests
  {
    var spec := qsec.spec;
    data := map[];
    match spec.secretType
    case Password => r, data := Credentials.CreatePasswordSecret(client, gen, config, id, spec);
    case RSAKey => r, data := Credentials.CreateKeySecret(client, gen, config, id, spec);
    case SSHKey => r, data := Credentials.CreateKeySecret(client, gen, config, id, spec);
    case Certificate => r, data := Certificates.CreateCertificateSecret(client, gen, config, id, qsec);
    case TLS => r, data := Certificates.CreateCertificateSecret(client, gen, config, id, qsec);
    case BasicAuth => r, data := Credentials.CreateBasicAuthSecret(client, gen, config, id, spec);
    case TemplatedConfig =>
      assert gen.made[|gen.made|..] == [];
      r, data := Credentials.CreateTemplatedConfigSecret(client, gen, config, id, spec);
    case DockerConfigJSON => r, data := Credentials.CreateDockerConfigJSON(client, gen, config, id, spec);
    case UnknownType(_) => r := Failure(Plain("invalid type"));
  }

  // The pass, after the quarks secret was read and found out of meltdown.
  method ReconcileExisting(client: ApiServer, gen: Generator, config: Config, id: Key, qsec: QuarksSecret, now: nat)
    returns (r: ReconcileResult, ghost data: StringMap)
    requires id in client.qsecs && qsec == client.qsecs[id]
    modifies client`calls, client`secrets, client`secretWrites, client`requests, client`qsecs, client`statusWrites, gen
    ensures old(gen.made) <= gen.made
    ensures PassEnded(r, config, id, qsec, now, client.services, gen.made[|old(gen.made)|..], data,
                      old(client.secrets), client.secrets, old(client.requests), client.requests,
                      old(client.qsecs), client.qsecs, CallsWork(client.faults, old(client.calls)) && NeverFails(gen.fails))
    ensures client.calls >= old(client.calls)
  {
    data := map[];
    if qsec.spec.secretType == SecretCopy {
      return Finished, data;
    }
    var created;
    created, data := CreateByType(client, gen, config, id, qsec);
    if created.Failure? {
      return if NotReady(qsec.spec, created.error) then RequeueAfter(5)
             else Failed(Wrapped("generating secret", created.error)), data;
    }
    UpdateStatus(client, id, qsec, now);
    r := Finished;
  }

  // How a pass ends. Without all that the request refers to it changes nothing
  // and does not finish; it asks for the short requeue only when a secret is
  // missing, and surely when missing secrets are all that is wrong and the
  // calls work; when they do it finishes exactly when the request is possible;
  // and only a finished pass touches the status.
  ghost predicate PassEnded(r: ReconcileResult, config: Config, id: Key, qsec: QuarksSecret, now: nat,
                            services: map<Key, Service>, made: seq<Credential>, data: StringMap,
                            before: Secrets, after: Secrets,
                            requests: map<Key, SigningRequest>, requestsAfter: map<Key, SigningRequest>,
                            qsecs: map<Key, QuarksSecret>, qsecsAfter: map<Key, QuarksSecret>, works: bool)
    requires id in qsecs
  {
    var spec := qsec.spec;
    && (after == before
        || (after == StoredUnder(before, Destination(config, id, spec), Mutate.WantedFor(spec, data))
            && IsProduct(config, before, services, id.namespace, spec, made, data)))
    && Certificates.RequestEnded(config, id, qsec, made, data, before, after, requests, requestsAfter)
    && (!AllMet(before, id.namespace, Needs(spec)) ==>
          after == before && requestsAfter == requests && qsecsAfter == qsecs && r != Finished)
    && (r == RequeueAfter(5) ==> OneMissing(before, id.namespace, Needs(spec)))
    && (works && Waiting(services, before, id.namespace, spec) ==> r == RequeueAfter(5))
    && (works && UserSecret(before, id, spec) ==> after == before)
    && (works && spec.secretType != SecretCopy ==>
          (r == Finished <==> Possible(services, before, id.namespace, spec)))
    && (r == Finished && ClusterSigned(spec) ==> id in requestsAfter)
    && (spec.secretType == SecretCopy ==> r == Finished && qsecsAfter == qsecs && requestsAfter == requests)
    && (qsecsAfter == qsecs || (r == Finished && qsecsAfter == WithAcknowledgement(qsecs, id, now)))
    && (r == Finished && spec.secretType != SecretCopy ==>
          && IsProduct(config, before, services, id.namespace, spec, made, data)
          && (after == StoredUnder(before, Destination(config, id, spec), Mutate.WantedFor(spec, data))
              || UserSecret(before, id, spec))
          && (works ==> qsecsAfter == WithAcknowledgement(qsecs, id, now)))
  }

  method Reconcile(client: ApiServer, gen: Generator, config: Config, id: Key, now: nat)
    returns (r: ReconcileResult, ghost data: StringMap)
    modifies client`calls, client`secrets, client`secretWrites, client`requests, client`qsecs, client`statusWrites, gen
    ensures old(gen.made) <= gen.made
    ensures client.calls >= old(client.calls)
    ensures id !in old(client.qsecs)
            || client.faults(old(client.calls)) != Fine
            || InMeltdown(config.meltdownDuration, old(client.qsecs)[id].status.lastReconcile, now) ==>
              client.secrets == old(client.secrets) && client.requests == old(client.requests)
              && client.qsecs == old(client.qsecs) && gen.made == old(gen.made)
    ensures client.faults(old(client.calls)) == Fine ==>
              if id !in old(client.qsecs) then r == Finished
              else
                var qsec := old(client.qsecs)[id];
                if InMeltdown(config.meltdownDuration, qsec.status.lastReconcile, now)
                then r == RequeueAfter(config.meltdownRequeueAfter)
                else PassEnded(r, config, id, qsec, now, client.services, gen.made[|old(gen.made)|..], data,
                               old(client.secrets), client.secrets, old(client.requests), client.requests,
                               old(client.qsecs), client.qsecs,
                               CallsWork(client.faults, old(client.calls)) && NeverFails(gen.fails))
  {
    data := map[];
    var got := client.GetQuarksSecret(id);
    if got.Err? {
      return if got.error == NotFound then Finished else Failed(Wrapped("error reading quarksSecret", Plain(""))), data;
    }
    if InMeltdown(config.meltdownDuration, got.value.status.lastReconcile, now) {
      return RequeueAfter(config.meltdownRequeueAfter), data;
    }
    r, data := ReconcileExisting(client, gen, config, id, got.value, now);
  }
}