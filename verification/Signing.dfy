// The CSR controller's pass as it runs against the API server
// (pkg/kube/controllers/quarkssecret/certificatesigningrequest_reconciler.go),
// whose calls can fail at any point.
module Signing {
  import opened Types
  import opened Api
  import opened Products
  import Mutate

  const APPROVED := "Approved"

  datatype SigningResult = Finished | Requeued | Failed

  // ---- Approval -------------------------------------------------------------

  method IsApproved(conditions: seq<string>) returns (approved: bool)
    ensures approved <==> APPROVED in conditions
  {
    for i := 0 to |conditions|
      invariant APPROVED !in conditions[..i]
    {
      if conditions[i] == APPROVED {
        return true;
      }
    }
    return false;
  }

  // An approved request is left alone, and no other condition is lost.
  method ApproveRequest(client: ApiServer, id: Key) returns (r: Answer<()>)
    modifies client`calls, client`requests
    ensures client.requests == old(client.requests)
            || (id in old(client.requests) && APPROVED !in old(client.requests)[id].conditions
                && client.requests == old(client.requests)[id :=
                     old(client.requests)[id].(conditions := old(client.requests)[id].conditions + [APPROVED])])
    ensures r.Ok? ==> id in client.requests && APPROVED in client.requests[id].conditions
    ensures old(client.calls) <= client.calls
    ensures CallsWork(client.faults, old(client.calls)) && id in old(client.requests) ==> r.Ok?
  {
    var csr := client.GetRequest(id);
    if csr.Err? {
      return Err(csr.error);
    }
    var approved := IsApproved(csr.value.conditions);
    if approved {
      return Ok(());
    }
    r := client.UpdateApproval(id, csr.value.conditions + [APPROVED]);
  }

  // ---- The cluster's root certificate -----------------------------------------

  datatype ListedSecret = ListedSecret(isServiceAccountToken: bool, data: StringMap)

  // Only the first service account token counts, with or without the entry.
  method GetClusterRootCA(listed: seq<ListedSecret>) returns (r: Option<string>)
    ensures r.Some? ==> exists i :: 0 <= i < |listed| && FirstToken(listed, i)
                                    && "ca.crt" in listed[i].data && listed[i].data["ca.crt"] == r.value
    ensures r.None? ==> forall i :: 0 <= i < |listed| && FirstToken(listed, i) ==> "ca.crt" !in listed[i].data
  {
    for i := 0 to |listed|
      invariant forall j :: 0 <= j < i ==> !listed[j].isServiceAccountToken
    {
      if listed[i].isServiceAccountToken {
        assert FirstToken(listed, i);
        return if "ca.crt" in listed[i].data then Some(listed[i].data["ca.crt"]) else None;
      }
    }
    return None;
  }

  predicate FirstToken(listed: seq<ListedSecret>, i: nat)
    requires i < |listed|
  {
    listed[i].isServiceAccountToken && forall j :: 0 <= j < i ==> !listed[j].isServiceAccountToken
  }

  // The certificate of the first service account token in the list.
  ghost predicate IsRootCA(listed: Answer<seq<ListedSecret>>, rootCA: string) {
    listed.Ok? &&
    exists i: nat ::
      && i < |listed.value| && listed.value[i].isServiceAccountToken
      && (forall j :: 0 <= j < i ==> !listed.value[j].isServiceAccountToken)
      && "ca.crt" in listed.value[i].data && rootCA == listed.value[i].data["ca.crt"]
  }

  // The cluster's root certificate can be found.
  predicate HasRootCA(listed: seq<ListedSecret>) {
    exists i :: 0 <= i < |listed| && FirstToken(listed, i) && "ca.crt" in listed[i].data
  }

  // ---- The certificate secret ---------------------------------------------------

  function CertificateStored(secrets: Secrets, target: Key, data: StringMap): Secrets {
    secrets[target := Mutate.CertificateSecret(if target in secrets then Some(secrets[target]) else None, data)]
  }

  function Entry(data: StringMap, key: string): string {
    if key in data then data[key] else ""
  }

  function CertificateData(rootCA: string, certificate: string, key: StringMap): StringMap {
    map["ca" := rootCA, "certificate" := certificate, "private_key" := Entry(key, "private_key"),
        "is_ca" := Entry(key, "is_ca")]
  }

  // CreateOrUpdate with a closure that sets the data.
  method CreateSecret(client: ApiServer, target: Key, data: StringMap) returns (r: Answer<()>)
    modifies client`calls, client`secrets, client`secretWrites
    ensures r.Ok? ==> client.secrets == CertificateStored(old(client.secrets), target, data)
    ensures client.secrets == old(client.secrets)
            || client.secrets == CertificateStored(old(client.secrets), target, data)
    ensures client.calls > old(client.calls)
    ensures CallsWork(client.faults, old(client.calls)) ==> r.Ok?
  {
    var existing := client.GetSecret(target);
    if existing.Err? {
      if existing.error != NotFound {
        return Err(existing.error);
      }
      r := client.CreateSecret(target, Mutate.CertificateSecret(None, data));
    } else if existing.value.data == data {
      r := Ok(());
    } else {
      r := client.UpdateSecret(target, existing.value.(data := data));
    }
  }

  // ---- The pass -------------------------------------------------------------------

  predicate Annotated(request: SigningRequest) {
    && ANNOTATION_CERT_SECRET_NAME in request.annotations && ANNOTATION_QSEC_NAMESPACE in request.annotations
    && ANNOTATION_QSEC_NAME in request.annotations
  }

  function Target(request: SigningRequest): Key
    requires Annotated(request)
  {
    Key(request.annotations[ANNOTATION_QSEC_NAMESPACE], request.annotations[ANNOTATION_CERT_SECRET_NAME])
  }

  function Owner(request: SigningRequest): Key
    requires Annotated(request)
  {
    Key(request.annotations[ANNOTATION_QSEC_NAMESPACE], request.annotations[ANNOTATION_QSEC_NAME])
  }

  function KeySecret(config: Config, id: Key, request: SigningRequest): Key
    requires Annotated(request)
  {
    Key(request.annotations[ANNOTATION_QSEC_NAMESPACE], config.keySecretName(id))
  }

  // How far the hand-over of a key got: nothing, the certificate secret with its
  // key, then without the key secret, then without the request. Each state is
  // only reached through the one before.
  ghost predicate HandedOver(config: Config, id: Key, request: SigningRequest, rootCA: string, before: Secrets,
                             after: Secrets, requests: map<Key, SigningRequest>,
                             requestsAfter: map<Key, SigningRequest>)
    requires Annotated(request)
  {
    var target, keySecret := Target(request), KeySecret(config, id, request);
    || (after == before && requestsAfter == requests)
    || (keySecret in before &&
        var stored := CertificateStored(before, target,
                                        CertificateData(rootCA, request.certificate, before[keySecret].data));
        || (after == stored && requestsAfter == requests)
        || (after == stored - {keySecret} && (requestsAfter == requests || requestsAfter == requests - {id})))
  }

  // The key of the request, wherever it is now.
  predicate HoldsKey(config: Config, id: Key, request: SigningRequest, secrets: Secrets, key: string)
    requires Annotated(request)
  {
    var target, keySecret := Target(request), KeySecret(config, id, request);
    || (keySecret in secrets && Entry(secrets[keySecret].data, "private_key") == key)
    || (target in secrets && Entry(secrets[target].data, "private_key") == key)
  }

  // In none of these states the key is lost.
  lemma HandOverKeepsKey(config: Config, id: Key, request: SigningRequest, rootCA: string, before: Secrets,
                         after: Secrets, requests: map<Key, SigningRequest>, requestsAfter: map<Key, SigningRequest>)
    requires Annotated(request) && Target(request) != KeySecret(config, id, request)
    requires HandedOver(config, id, request, rootCA, before, after, requests, requestsAfter)
    requires KeySecret(config, id, request) in before
    ensures HoldsKey(config, id, request, after,
                     Entry(before[KeySecret(config, id, request)].data, "private_key"))
    ensures id in requests && id !in requestsAfter ==>
              Target(request) in after && after[Target(request)].data["certificate"] == request.certificate
  {
  }

  // A finished hand-over, entry by entry: the certificate secret of the request holds
  // the root certificate, the issued one, and what the key secret held; the key
  // secret and the request are gone, and nothing else changed.
  lemma HandOverEntryByEntry(config: Config, id: Key, request: SigningRequest, rootCA: string, before: Secrets,
                             after: Secrets, requests: map<Key, SigningRequest>,
                             requestsAfter: map<Key, SigningRequest>)
    requires Annotated(request) && Target(request) != KeySecret(config, id, request)
    requires HandedOver(config, id, request, rootCA, before, after, requests, requestsAfter)
    requires id in requests && id !in requestsAfter
    ensures "quarks.cloudfoundry.org/quarks-secret-namespace" in request.annotations
            && "quarks.cloudfoundry.org/cert-secret-name" in request.annotations
    ensures var namespace := request.annotations["quarks.cloudfoundry.org/quarks-secret-namespace"];
            var target := Key(namespace, request.annotations["quarks.cloudfoundry.org/cert-secret-name"]);
            var keySecret := Key(namespace, config.keySecretName(id));
            && keySecret in before && target in after && keySecret !in after
            && requestsAfter == requests - {id}
            && after[target].data.Keys == {"ca", "certificate", "private_key", "is_ca"}
            && after[target].data["ca"] == rootCA && after[target].data["certificate"] == request.certificate
            && ("private_key" in before[keySecret].data ==>
                  after[target].data["private_key"] == before[keySecret].data["private_key"])
            && ("is_ca" in before[keySecret].data ==>
                  after[target].data["is_ca"] == before[keySecret].data["is_ca"])
            && (forall k :: k != target && k != keySecret ==>
                  (k in after <==> k in before) && (k in before ==> after[k] == before[k]))
            && (if target in before
                then after[target].labels == before[target].labels && after[target].annotations == before[target].annotations
                else after[target].labels == map["quarks.cloudfoundry.org/secret-kind" := "generated"]
                     && after[target].annotations == map[])
  {
  }

  // Once the certificate is there. A request whose key secret is gone, as after
  // a failure between the two deletions, is queued again.
  method ReconcileIssued(client: ApiServer, config: Config, id: Key, request: SigningRequest,
                         listed: Answer<seq<ListedSecret>>)
    returns (r: SigningResult, ghost rootCA: string)
    requires Annotated(request)
    modifies client`calls, client`secrets, client`secretWrites, client`requests
    ensures HandedOver(config, id, request, rootCA, old(client.secrets), client.secrets, old(client.requests),
                       client.requests)
    ensures client.secrets != old(client.secrets) ==> IsRootCA(listed, rootCA)
    // Without the quarks secret, which would own what is stored, nothing is.
    ensures Owner(request) !in client.qsecs ==>
              client.secrets == old(client.secrets) && client.requests == old(client.requests) && r != Finished
    ensures KeySecret(config, id, request) !in old(client.secrets) ==>
              client.secrets == old(client.secrets) && client.requests == old(client.requests)
              && (client.faults(old(client.calls)) == Fine ==> r == Requeued)
    ensures r == Requeued ==> KeySecret(config, id, request) !in old(client.secrets)
    ensures r == Finished ==> KeySecret(config, id, request) in old(client.secrets)
    ensures old(client.calls) <= client.calls
    // When all calls work the hand-over is completed, if the root certificate is there.
    ensures CallsWork(client.faults, old(client.calls)) && id in old(client.requests)
            && Target(request) != KeySecret(config, id, request)
            && KeySecret(config, id, request) in old(client.secrets) && Owner(request) in client.qsecs ==>
              r == Finished && (id !in client.requests <==> listed.Ok? && HasRootCA(listed.value))
    ensures id in old(client.requests) && id !in client.requests ==>
              client.secrets == CertificateStored(old(client.secrets), Target(request),
                                  CertificateData(rootCA, request.certificate,
                                    old(client.secrets)[KeySecret(config, id, request)].data))
                                - {KeySecret(config, id, request)}
  {
    rootCA := "";
    var target, keySecret := Target(request), KeySecret(config, id, request);
    var key := client.GetSecret(keySecret);
    if key.Err? {
      return if key.error == NotFound then Requeued else Failed, rootCA;
    }
    var owner := client.GetQuarksSecret(Owner(request));
    if owner.Err? {
      return Failed, rootCA;
    }
    // Without the root certificate the pass only logs, and ends.
    var ca := None;
    if listed.Ok? {
      ca := GetClusterRootCA(listed.value);
    }
    if ca.None? {
      return Finished, rootCA;
    }
    rootCA := ca.value;
    var created := CreateSecret(client, target, CertificateData(ca.value, request.certificate, key.value.data));
    if created.Err? {
      return Failed, rootCA;
    }
    var keyDeleted := client.DeleteSecret(keySecret);
    if keyDeleted.Err? {
      return Failed, rootCA;
    }
    var requestDeleted := client.DeleteRequest(id);
    r := if requestDeleted.Ok? then Finished else Failed;
  }

  // A request without certificate is approved; one without its annotations is
  // left alone.
  method Reconcile(client: ApiServer, config: Config, id: Key, listed: Answer<seq<ListedSecret>>)
    returns (r: SigningResult, ghost rootCA: string)
    modifies client`calls, client`secrets, client`secretWrites, client`requests
    ensures id !in old(client.requests) ==>
              client.secrets == old(client.secrets) && client.requests == old(client.requests)
              && (client.faults(old(client.calls)) == Fine ==> r == Finished)
    ensures id in old(client.requests) ==>
              var request := old(client.requests)[id];
              if request.certificate == "" then
                client.secrets == old(client.secrets)
                && (client.requests == old(client.requests)
                    || client.requests ==
                         old(client.requests)[id := request.(conditions := request.conditions + [APPROVED])])
              else if !Annotated(request) then
                client.secrets == old(client.secrets) && client.requests == old(client.requests)
                && (client.faults(old(client.calls)) == Fine ==> r == Finished)
              else
                HandedOver(config, id, request, rootCA, old(client.secrets), client.secrets, old(client.requests),
                           client.requests)
                && (client.secrets != old(client.secrets) ==> IsRootCA(listed, rootCA))
                && (Owner(request) !in client.qsecs ==>
                      client.secrets == old(client.secrets) && client.requests == old(client.requests) && r != Finished)
    ensures id in old(client.requests) && old(client.requests)[id].certificate != ""
            && Annotated(old(client.requests)[id])
            && KeySecret(config, id, old(client.requests)[id]) !in old(client.secrets) ==>
              r != Finished && client.secrets == old(client.secrets) && client.requests == old(client.requests)
    ensures old(client.calls) <= client.calls
    // When all calls work.
    ensures CallsWork(client.faults, old(client.calls)) && id in old(client.requests) ==>
              var request := old(client.requests)[id];
              && (request.certificate == "" ==> r == Finished && APPROVED in client.requests[id].conditions)
              && (request.certificate != "" && Annotated(request) ==>
                    && (KeySecret(config, id, request) !in old(client.secrets) ==> r == Requeued)
                    && (KeySecret(config, id, request) in old(client.secrets) && Owner(request) in client.qsecs
                        && Target(request) != KeySecret(config, id, request) ==>
                          r == Finished && (id !in client.requests <==> listed.Ok? && HasRootCA(listed.value))))
  {
    rootCA := "";
    var csr := client.GetRequest(id);
    if csr.Err? {
      return if csr.error == NotFound then Finished else Failed, rootCA;
    }
    if csr.value.certificate != "" {
      if !Annotated(csr.value) {
        return Finished, rootCA;
      }
      r, rootCA := ReconcileIssued(client, config, id, csr.value, listed);
    } else {
      var approved := ApproveRequest(client, id);
      r := if approved.Ok? then Finished else Failed;
    }
  }

  // After a failure between the two deletions: for as long as no generation stores
  // a new key secret, any number of passes, failing or not, changes nothing, and
  // each one that can read has the request queued again.
  method ReconcileWithoutKey(client: ApiServer, config: Config, id: Key, listed: seq<Answer<seq<ListedSecret>>>)
    returns (results: seq<SigningResult>)
    requires id in client.requests && client.requests[id].certificate != "" && Annotated(client.requests[id])
    requires KeySecret(config, id, client.requests[id]) !in client.secrets
    modifies client`calls, client`secrets, client`secretWrites, client`requests
    ensures client.secrets == old(client.secrets) && client.requests == old(client.requests)
    ensures |results| == |listed|
    ensures forall i :: 0 <= i < |results| ==> results[i] != Finished
    ensures CallsWork(client.faults, old(client.calls)) ==> forall i :: 0 <= i < |results| ==> results[i] == Requeued
  {
    results := [];
    for i := 0 to |listed|
      invariant client.secrets == old(client.secrets) && client.requests == old(client.requests)
      invariant old(client.calls) <= client.calls && |results| == i
      invariant forall j :: 0 <= j < i ==> results[j] != Finished
      invariant CallsWork(client.faults, old(client.calls)) ==> forall j :: 0 <= j < i ==> results[j] == Requeued
    {
      var r: SigningResult;
      ghost var rootCA;
      r, rootCA := Reconcile(client, config, id, listed[i]);
      results := results + [r];
    }
  }
}
