// The API server as one reconciler sees it while nobody else writes. Any call
// can fail, with or without effect.
module Api {
  import opened Types
  import Mutate

  // A call works, is refused, or takes effect while its answer gets lost.
  datatype Fault = Fine | Refused | AnswerLost

  // Every call from the n-th on works.
  ghost predicate CallsWork(faults: nat -> Fault, n: nat) {
    forall k :: n <= k ==> faults(k) == Fine
  }

  datatype Error = NotFound | CallFailed

  datatype Answer<+T> = Ok(value: T) | Err(error: Error)

  type StoredSecret = Secret<string>

  datatype Operation = Unchanged | Created | Updated

  datatype Service = Service(
    name: string, namespace: string, clusterIP: string, loadBalancerIP: string, externalName: string,
    externalIPs: seq<string>)

  // A certificate signing request, stored under the quarks secret it is for.
  // The certificate is empty until the cluster issues it.
  datatype SigningRequest = SigningRequest(
    body: string, usages: seq<string>, annotations: StringMap, conditions: seq<string>, certificate: string)

  class ApiServer {
    var secrets: map<Key, StoredSecret>
    var qsecs: map<Key, QuarksSecret>
    var requests: map<Key, SigningRequest>
    const services: map<Key, Service>
    var calls: nat
    var secretWrites: nat
    // The quarks secrets whose status was stored, in order.
    var statusWrites: seq<Key>
    // What happens to the n-th call.
    const faults: nat -> Fault

    constructor (secrets: map<Key, StoredSecret>, qsecs: map<Key, QuarksSecret>, requests: map<Key, SigningRequest>,
                 services: map<Key, Service>, faults: nat -> Fault)
      ensures this.secrets == secrets && this.qsecs == qsecs && this.requests == requests
      ensures this.services == services && this.faults == faults
      ensures calls == 0 && secretWrites == 0 && statusWrites == []
    {
      this.secrets, this.qsecs, this.requests := secrets, qsecs, requests;
      this.services, this.faults := services, faults;
      calls, secretWrites, statusWrites := 0, 0, [];
    }

    method GetSecret(key: Key) returns (r: Answer<StoredSecret>)
      modifies this`calls
      ensures calls == old(calls) + 1
      ensures r == if faults(old(calls)) != Fine then Err(CallFailed)
                   else if key in secrets then Ok(secrets[key]) else Err(NotFound)
    {
      var fault := faults(calls);
      calls := calls + 1;
      if fault != Fine {
        return Err(CallFailed);
      }
      r := if key in secrets then Ok(secrets[key]) else Err(NotFound);
    }

    method GetQuarksSecret(key: Key) returns (r: Answer<QuarksSecret>)
      modifies this`calls
      ensures calls == old(calls) + 1
      ensures r == if faults(old(calls)) != Fine then Err(CallFailed)
                   else if key in qsecs then Ok(qsecs[key]) else Err(NotFound)
    {
      var fault := faults(calls);
      calls := calls + 1;
      if fault != Fine {
        return Err(CallFailed);
      }
      r := if key in qsecs then Ok(qsecs[key]) else Err(NotFound);
    }

    method GetService(key: Key) returns (r: Answer<Service>)
      modifies this`calls
      ensures calls == old(calls) + 1
      ensures r == if faults(old(calls)) != Fine then Err(CallFailed)
                   else if key in services then Ok(services[key]) else Err(NotFound)
    {
      var fault := faults(calls);
      calls := calls + 1;
      if fault != Fine {
        return Err(CallFailed);
      }
      r := if key in services then Ok(services[key]) else Err(NotFound);
    }

    method GetRequest(key: Key) returns (r: Answer<SigningRequest>)
      modifies this`calls
      ensures calls == old(calls) + 1
      ensures r == if faults(old(calls)) != Fine then Err(CallFailed)
                   else if key in requests then Ok(requests[key]) else Err(NotFound)
    {
      var fault := faults(calls);
      calls := calls + 1;
      if fault != Fine {
        return Err(CallFailed);
      }
      r := if key in requests then Ok(requests[key]) else Err(NotFound);
    }

    method CreateRequest(key: Key, request: SigningRequest) returns (r: Answer<()>)
      requires key !in requests
      modifies this`calls, this`requests
      ensures calls == old(calls) + 1
      ensures requests == if faults(old(calls)) != Refused then old(requests)[key := request] else old(requests)
      ensures r.Ok? <==> faults(old(calls)) == Fine
    {
      var fault := faults(calls);
      calls := calls + 1;
      if fault != Refused {
        requests := requests[key := request];
      }
      r := if fault == Fine then Ok(()) else Err(CallFailed);
    }

    // The approval is stored if nobody changed the request since it was read; a
    // version conflict counts as refused.
    method UpdateApproval(key: Key, conditions: seq<string>) returns (r: Answer<()>)
      requires key in requests
      modifies this`calls, this`requests
      ensures calls == old(calls) + 1
      ensures requests == if faults(old(calls)) != Refused
                          then old(requests)[key := old(requests)[key].(conditions := conditions)] else old(requests)
      ensures r.Ok? <==> faults(old(calls)) == Fine
    {
      var fault := faults(calls);
      calls := calls + 1;
      if fault != Refused {
        requests := requests[key := requests[key].(conditions := conditions)];
      }
      r := if fault == Fine then Ok(()) else Err(CallFailed);
    }

    // The cluster's signer, which is not a call of the operator.
    method Issue(key: Key, certificate: string)
      requires key in requests && certificate != ""
      modifies this`requests
      ensures requests == old(requests)[key := old(requests)[key].(certificate := certificate)]
    {
      requests := requests[key := requests[key].(certificate := certificate)];
    }

    method DeleteRequest(key: Key) returns (r: Answer<()>)
      modifies this`calls, this`requests
      ensures calls == old(calls) + 1
      ensures requests == if faults(old(calls)) != Refused then old(requests) - {key} else old(requests)
      ensures r.Ok? <==> faults(old(calls)) == Fine && key in old(requests)
    {
      var fault := faults(calls);
      calls := calls + 1;
      r := if fault != Fine then Err(CallFailed) else if key in requests then Ok(()) else Err(NotFound);
      if fault != Refused {
        requests := requests - {key};
      }
    }

    method DeleteSecret(key: Key) returns (r: Answer<()>)
      modifies this`calls, this`secrets, this`secretWrites
      ensures calls == old(calls) + 1
      ensures secrets == if faults(old(calls)) != Refused then old(secrets) - {key} else old(secrets)
      ensures r.Ok? <==> faults(old(calls)) == Fine && key in old(secrets)
    {
      var fault := faults(calls);
      calls := calls + 1;
      r := if fault != Fine then Err(CallFailed) else if key in secrets then Ok(()) else Err(NotFound);
      if fault != Refused && key in secrets {
        secrets, secretWrites := secrets - {key}, secretWrites + 1;
      }
    }

    // An update without a version: the whole object is replaced.
    method UpdateSecret(key: Key, s: StoredSecret) returns (r: Answer<()>)
      modifies this`calls, this`secrets, this`secretWrites
      ensures calls == old(calls) + 1
      ensures secrets == if faults(old(calls)) != Refused && key in old(secrets)
                         then old(secrets)[key := s] else old(secrets)
      ensures secretWrites == old(secretWrites) + (if faults(old(calls)) != Refused && key in secrets then 1 else 0)
      ensures r.Ok? <==> faults(old(calls)) == Fine && key in old(secrets)
    {
      var fault := faults(calls);
      calls := calls + 1;
      if fault != Refused && key in secrets {
        secrets, secretWrites := secrets[key := s], secretWrites + 1;
        r := if fault == Fine then Ok(()) else Err(CallFailed);
      } else {
        r := Err(if fault == Fine then NotFound else CallFailed);
      }
    }

    method CreateSecret(key: Key, s: StoredSecret) returns (r: Answer<()>)
      requires key !in secrets
      modifies this`calls, this`secrets, this`secretWrites
      ensures calls == old(calls) + 1
      ensures secrets == if faults(old(calls)) != Refused then old(secrets)[key := s] else old(secrets)
      ensures secretWrites == old(secretWrites) + (if faults(old(calls)) != Refused then 1 else 0)
      ensures r.Ok? <==> faults(old(calls)) == Fine
    {
      var fault := faults(calls);
      calls := calls + 1;
      if fault != Refused {
        secrets, secretWrites := secrets[key := s], secretWrites + 1;
      }
      r := if fault == Fine then Ok(()) else Err(CallFailed);
    }

    // Only the status is stored. A version conflict counts as refused.
    method UpdateStatus(key: Key, status: Status) returns (r: Answer<()>)
      requires key in qsecs
      modifies this`calls, this`qsecs, this`statusWrites
      ensures calls == old(calls) + 1
      ensures if faults(old(calls)) != Refused
              then qsecs == old(qsecs)[key := old(qsecs)[key].(status := status)]
                   && statusWrites == old(statusWrites) + [key]
              else qsecs == old(qsecs) && statusWrites == old(statusWrites)
      ensures r.Ok? <==> faults(old(calls)) == Fine
    {
      var fault := faults(calls);
      calls := calls + 1;
      if fault != Refused {
        qsecs := qsecs[key := qsecs[key].(status := status)];
        statusWrites := statusWrites + [key];
      }
      r := if fault == Fine then Ok(()) else Err(CallFailed);
    }

    function Stored(key: Key): Option<StoredSecret>
      reads this`secrets
    {
      if key in secrets then Some(secrets[key]) else None
    }

    // controllerutil.CreateOrUpdate with SecretMutateFn: a write is sent exactly
    // when the merge changes what is stored.
    method CreateOrUpdate(key: Key, wanted: Mutate.Wanted<string>) returns (r: Answer<Operation>)
      modifies this`calls, this`secrets, this`secretWrites
      ensures var result := old(secrets)[key := Mutate.Result(old(Stored(key)), wanted)];
              && (r.Ok? ==> secrets == result)
              && (r.Err? ==> secrets == old(secrets) || secrets == result)
      ensures r.Ok? ==> r.value == if key !in old(secrets) then Created
                                   else if secrets == old(secrets) then Unchanged else Updated
      ensures secretWrites == old(secretWrites) + (if secrets == old(secrets) then 0 else 1)
      ensures CallsWork(faults, old(calls)) ==> r.Ok?
      ensures calls > old(calls)
    {
      var obj := new Mutate.SecretObject(wanted);
      var existing := GetSecret(key);
      if existing.Err? {
        if existing.error != NotFound {
          return Err(existing.error);
        }
        obj.Mutate(wanted);
        var sent := CreateSecret(key, obj.Stored());
        r := if sent.Ok? then Ok(Created) else Err(sent.error);
      } else {
        obj.Load(existing.value);
        obj.Mutate(wanted);
        Mutate.StringDataTakesEffect(existing.value.data, obj.stringData, wanted.stringData);
        if obj.labels == existing.value.labels && obj.annotations == existing.value.annotations
           && obj.data == existing.value.data && obj.stringData == map[] {
          return Ok(Unchanged);
        }
        var sent := UpdateSecret(key, obj.Stored());
        r := if sent.Ok? then Ok(Updated) else Err(sent.error);
      }
    }

    // Doing it again sends nothing and changes nothing.
    method CreateOrUpdateTwice(key: Key, wanted: Mutate.Wanted<string>) returns (second: Answer<Operation>)
      requires CallsWork(faults, calls)
      modifies this`calls, this`secrets, this`secretWrites
      ensures second == Ok(Unchanged)
      ensures secrets == old(secrets)[key := Mutate.Result(old(Stored(key)), wanted)]
      ensures secretWrites <= old(secretWrites) + 1
    {
      var _ := CreateOrUpdate(key, wanted);
      Mutate.MergeIsIdempotent(old(Stored(key)), wanted);
      second := CreateOrUpdate(key, wanted);
    }
  }
}
