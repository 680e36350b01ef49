// The copy controller's pass as it runs against the API server
// (pkg/kube/controllers/quarkssecret/copy_reconciler.go), whose calls can fail
// at any point.
module CopyReconciler {
  import opened Types
  import opened Api
  import opened CopyPass
  import Mutate

  method GetSourceSecret(client: ApiServer, source: Key, qsec: QuarksSecret) returns (r: Answer<StoredSecret>)
    modifies client`calls
    ensures r.Ok? ==> Key(source.namespace, qsec.spec.secretName) in client.secrets
                      && r == Ok(client.secrets[Key(source.namespace, qsec.spec.secretName)])
    ensures client.faults(old(client.calls)) == Fine && Key(source.namespace, qsec.spec.secretName) in client.secrets ==>
              r.Ok?
    ensures client.calls == old(client.calls) + 1
  {
    r := client.GetSecret(Key(source.namespace, qsec.spec.secretName));
  }

  // Whether the target takes copies of this source, and the quarks secret it
  // takes them under.
  method ValidateTargetNamespace(client: ApiServer, source: Key, copy: Key)
    returns (r: Answer<bool>, owner: Option<QuarksSecret>)
    modifies client`calls
    ensures r.Ok? ==>
              var target := Classify(client.secrets, client.qsecs, source, copy);
              && (r.value <==> target != NotOptedIn)
              && (r.value ==> (owner.Some? <==> target == UnderQuarksSecret))
    ensures CallsWork(client.faults, old(client.calls)) ==> r.Ok?
    ensures client.calls > old(client.calls)
  {
    owner := None;
    var targetQuarksSecret := client.GetQuarksSecret(Key(copy.namespace, source.name));
    if targetQuarksSecret.Err? && targetQuarksSecret.error != NotFound {
      return Err(targetQuarksSecret.error), None;
    }
    var targetSecret := client.GetSecret(copy);
    if targetSecret.Err? && targetSecret.error != NotFound {
      return Err(targetSecret.error), None;
    }
    var notFoundQuarksSecret, notFoundSecret := targetQuarksSecret.Err?, targetSecret.Err?;
    if notFoundSecret && notFoundQuarksSecret {
      return Ok(false), None;
    }
    if !notFoundSecret && !notFoundQuarksSecret {
      notFoundSecret := true;
    }
    if notFoundSecret {
      if !targetQuarksSecret.value.spec.secretType.SecretCopy? {
        return Ok(false), None;
      }
      r := Ok(ValidateAnnotation(targetQuarksSecret.value.annotations, NamespacedName(source)));
      owner := Some(targetQuarksSecret.value);
    } else {
      r := Ok(ValidateAnnotation(targetSecret.value.annotations, NamespacedName(source)));
    }
  }

  // A missing annotation reads as the empty string, which names no object.
  predicate ValidateAnnotation(annotations: StringMap, copyOf: string)
    requires copyOf != ""
    ensures ValidateAnnotation(annotations, copyOf) <==> HasEntry(annotations, ANNOTATION_COPY_OF, copyOf)
  {
    (if ANNOTATION_COPY_OF in annotations then annotations[ANNOTATION_COPY_OF] else "") == copyOf
  }

  // The whole object is replaced, and it has to exist.
  method UpdateCopySecret(client: ApiServer, key: Key, wanted: Mutate.Wanted<string>) returns (r: Answer<()>)
    requires key in client.secrets
    modifies client`calls, client`secrets, client`secretWrites
    ensures var result := old(client.secrets)[key := Replacement(wanted)];
            && (r.Ok? ==> client.secrets == result)
            && (client.secrets == old(client.secrets) || client.secrets == result)
    ensures CallsWork(client.faults, old(client.calls)) ==> r.Ok?
    ensures client.calls > old(client.calls)
  {
    r := client.UpdateSecret(key, Replacement(wanted));
  }

  method CreateUpdateCopySecret(client: ApiServer, key: Key, wanted: Mutate.Wanted<string>) returns (r: Answer<()>)
    modifies client`calls, client`secrets, client`secretWrites
    ensures var result := old(client.secrets)[key := Mutate.Result(old(client.Stored(key)), wanted)];
            && (r.Ok? ==> client.secrets == result)
            && (client.secrets == old(client.secrets) || client.secrets == result)
    ensures CallsWork(client.faults, old(client.calls)) ==> r.Ok?
    ensures client.calls > old(client.calls)
  {
    var op := client.CreateOrUpdate(key, wanted);
    r := if op.Ok? then Ok(()) else Err(op.error);
  }

  // One entry: it is handled, or the pass fails there with the entry either
  // untouched or (the answer got lost) handled.
  method HandleEntry(client: ApiServer, source: Key, qsec: QuarksSecret, copy: Key) returns (r: Answer<()>)
    modifies client`calls, client`secrets, client`secretWrites
    ensures var result := HandleCopy(old(client.secrets), client.qsecs, source, qsec.spec.secretName, copy);
            && (r.Ok? ==> client.secrets == result && Key(source.namespace, qsec.spec.secretName) in old(client.secrets))
            && (client.secrets == old(client.secrets) || client.secrets == result)
    ensures CallsWork(client.faults, old(client.calls)) ==>
              Key(source.namespace, qsec.spec.secretName) in old(client.secrets) ==> r.Ok?
    ensures client.calls > old(client.calls)
  {
    var sourceSecret := GetSourceSecret(client, source, qsec);
    if sourceSecret.Err? {
      return Err(sourceSecret.error);
    }
    var ok, owner := ValidateTargetNamespace(client, source, copy);
    if ok.Err? {
      return Err(ok.error);
    }
    if !ok.value {
      return Ok(());
    }
    var wanted := CopyOf(source, sourceSecret.value);
    if owner == None {
      r := UpdateCopySecret(client, copy, wanted);
    } else {
      r := CreateUpdateCopySecret(client, copy, wanted);
    }
  }

  // The entries before `handled` are done and the later ones untouched; entry
  // `handled` itself may be done when its answer got lost.
  ghost predicate DoneUpTo(before: Secrets, after: Secrets, qsecs: QuarksSecrets, source: Key, spec: Spec, handled: nat)
    requires handled <= |spec.copies|
  {
    || after == HandleAll(before, qsecs, source, spec.secretName, spec.copies[..handled])
    || (handled < |spec.copies| && after == HandleAll(before, qsecs, source, spec.secretName, spec.copies[..handled + 1]))
  }

  method HandleQuarksSecretCopies(client: ApiServer, source: Key, qsec: QuarksSecret)
    returns (r: Answer<()>, ghost handled: nat)
    modifies client`calls, client`secrets, client`secretWrites
    ensures handled <= |qsec.spec.copies|
    ensures DoneUpTo(old(client.secrets), client.secrets, client.qsecs, source, qsec.spec, handled)
    ensures r.Ok? ==> client.secrets ==
                      HandleAll(old(client.secrets), client.qsecs, source, qsec.spec.secretName, qsec.spec.copies)
    ensures Key(source.namespace, qsec.spec.secretName) !in old(client.secrets) ==>
              (r.Ok? <==> qsec.spec.copies == []) && client.secrets == old(client.secrets)
    ensures CallsWork(client.faults, old(client.calls)) ==>
              Key(source.namespace, qsec.spec.secretName) in old(client.secrets) ==> r.Ok?
    ensures client.calls >= old(client.calls)
  {
    var copies, secretName := qsec.spec.copies, qsec.spec.secretName;
    ghost var before := client.secrets;
    r := Ok(());
    handled := 0;
    for i := 0 to |copies|
      invariant handled == i && r.Ok? && client.calls >= old(client.calls)
      invariant client.secrets == HandleAll(before, client.qsecs, source, secretName, copies[..i])
      invariant i > 0 ==> Key(source.namespace, secretName) in before
      invariant Key(source.namespace, secretName) in before <==> Key(source.namespace, secretName) in client.secrets
    {
      assert copies[..i + 1][..i] == copies[..i];
      r := HandleEntry(client, source, qsec, copies[i]);
      if r.Err? {
        return;
      }
      handled := i + 1;
    }
    assert copies[..|copies|] == copies;
  }

  // A failed write of the flag is only logged.
  method UpdateCopyStatus(client: ApiServer, key: Key, qsec: QuarksSecret, copied: bool) returns (updated: QuarksSecret)
    requires key in client.qsecs
    modifies client`calls, client`qsecs, client`statusWrites
    ensures updated == qsec.(status := qsec.status.(copied := Some(copied)))
    ensures client.calls == old(client.calls) + 1
    ensures if client.faults(old(client.calls)) == Refused then client.qsecs == old(client.qsecs)
            else client.qsecs == old(client.qsecs)[key := old(client.qsecs)[key].(status := updated.status)]
    ensures client.statusWrites ==
            old(client.statusWrites) + (if client.faults(old(client.calls)) == Refused then [] else [key])
  {
    updated := qsec.(status := qsec.status.(copied := Some(copied)));
    var _ := client.UpdateStatus(key, updated.status);
  }

  function WithFlag(qsecs: QuarksSecrets, key: Key, copied: Option<bool>): QuarksSecrets
    requires key in qsecs
  {
    qsecs[key := qsecs[key].(status := qsecs[key].status.(copied := copied))]
  }

  // How a pass over an existing quarks secret ends. Of the status it touches
  // only the flag: a failed pass never sets it, and a pass that succeeds has
  // handled every entry.
  ghost predicate PassEnded(before: Secrets, after: Secrets, qsecs: QuarksSecrets, source: Key, r: Answer<()>,
                            handled: nat, copied: Option<bool>)
    requires source in qsecs
  {
    var spec := qsecs[source].spec;
    && handled <= |spec.copies|
    && DoneUpTo(before, after, qsecs, source, spec, handled)
    && (r.Ok? ==> after == HandleAll(before, qsecs, source, spec.secretName, spec.copies))
    && (r.Err? ==> copied in {qsecs[source].status.copied, Some(false)})
  }

  // The pass, after the quarks secret was read.
  method ReconcileExisting(client: ApiServer, request: Key, qsec: QuarksSecret)
    returns (r: Answer<()>, ghost handled: nat)
    requires request in client.qsecs && qsec == client.qsecs[request]
    modifies client`calls, client`secrets, client`secretWrites, client`qsecs, client`statusWrites
    ensures request in client.qsecs
            && client.qsecs == WithFlag(old(client.qsecs), request, client.qsecs[request].status.copied)
    ensures PassEnded(old(client.secrets), client.secrets, old(client.qsecs), request, r, handled,
                      client.qsecs[request].status.copied)
    ensures client.faults(old(client.calls)) != Refused && r.Err? ==> client.qsecs[request].status.copied == Some(false)
    ensures CallsWork(client.faults, old(client.calls)) && SourceExists(old(client.secrets), old(client.qsecs), request) ==>
              r.Ok? && client.qsecs[request].status.copied == Some(true)
    ensures CallsWork(client.faults, old(client.calls)) ==>
              client.statusWrites == old(client.statusWrites) + (if r.Ok? then [request, request] else [request])
  {
    var cleared := UpdateCopyStatus(client, request, qsec, false);
    r, handled := HandleQuarksSecretCopies(client, request, cleared);
    StatusIsIgnored(old(client.secrets), client.secrets, old(client.qsecs), client.qsecs, request, qsec.spec, handled);
    if r.Ok? {
      var _ := UpdateCopyStatus(client, request, cleared, true);
    }
  }

  method Reconcile(client: ApiServer, request: Key) returns (r: Answer<()>, ghost handled: nat)
    modifies client`calls, client`secrets, client`secretWrites, client`qsecs, client`statusWrites
    ensures request !in old(client.qsecs) ==>
              client.secrets == old(client.secrets) && client.qsecs == old(client.qsecs)
              && (r.Ok? <==> client.faults(old(client.calls)) == Fine)
    ensures request in old(client.qsecs) ==>
              request in client.qsecs
              && client.qsecs == WithFlag(old(client.qsecs), request, client.qsecs[request].status.copied)
              && PassEnded(old(client.secrets), client.secrets, old(client.qsecs), request, r, handled,
                           client.qsecs[request].status.copied)
    // Of all quarks secrets the pass touches no other field.
    ensures request in old(client.qsecs) ==>
              var q := old(client.qsecs)[request];
              client.qsecs == old(client.qsecs)[request := QuarksSecret(q.annotations, q.spec,
                Status(q.status.lastReconcile, q.status.generated, client.qsecs[request].status.copied))]
    // When the pass could clear the flag, failing leaves it clear.
    ensures request in old(client.qsecs) && client.faults(old(client.calls)) == Fine
            && client.faults(old(client.calls) + 1) != Refused && r.Err? ==>
              client.qsecs[request].status.copied == Some(false)
    ensures request in old(client.qsecs) && CallsWork(client.faults, old(client.calls))
            && SourceExists(old(client.secrets), old(client.qsecs), request) ==>
              r.Ok? && client.qsecs[request].status.copied == Some(true)
    // The flag is written twice, cleared first, whatever it was.
    ensures request in old(client.qsecs) && CallsWork(client.faults, old(client.calls)) ==>
              client.statusWrites == old(client.statusWrites) + (if r.Ok? then [request, request] else [request])
  {
    var got := client.GetQuarksSecret(request);
    if got.Ok? {
      r, handled := ReconcileExisting(client, request, got.value);
    } else {
      if request in client.qsecs {
        assert client.qsecs == WithFlag(client.qsecs, request, client.qsecs[request].status.copied);
      }
      r, handled := if got.error == NotFound then Ok(()) else Err(got.error), 0;
    }
  }

  predicate SourceExists(secrets: Secrets, qsecs: QuarksSecrets, source: Key)
    requires source in qsecs
  {
    qsecs[source].spec.copies == [] || Key(source.namespace, qsecs[source].spec.secretName) in secrets
  }

  lemma StatusIsIgnored(before: Secrets, after: Secrets, a: QuarksSecrets, b: QuarksSecrets, source: Key, spec: Spec,
                        handled: nat)
    requires SameButStatus(a, b) && handled <= |spec.copies|
    ensures DoneUpTo(before, after, a, source, spec, handled) <==> DoneUpTo(before, after, b, source, spec, handled)
    ensures HandleAll(before, a, source, spec.secretName, spec.copies) ==
            HandleAll(before, b, source, spec.secretName, spec.copies)
  {
    StatusDoesNotMatter(before, a, b, source, spec.secretName, spec.copies);
    StatusDoesNotMatter(before, a, b, source, spec.secretName, spec.copies[..handled]);
    if handled < |spec.copies| {
      StatusDoesNotMatter(before, a, b, source, spec.secretName, spec.copies[..handled + 1]);
    }
  }

  // Wherever the first pass failed, a second one that succeeds leaves the
  // secrets as one clean pass would have; after a success it changes none.
  method ReconcileAgain(client: ApiServer, request: Key) returns (first: Answer<()>, second: Answer<()>)
    requires request in client.qsecs
    modifies client`calls, client`secrets, client`secretWrites, client`qsecs, client`statusWrites
    ensures second.Ok? && SourceExists(old(client.secrets), old(client.qsecs), request) ==>
              client.secrets == HandleAll(old(client.secrets), old(client.qsecs), request,
                                          old(client.qsecs)[request].spec.secretName, old(client.qsecs)[request].spec.copies)
  {
    ghost var handled, again;
    first, handled := Reconcile(client, request);
    ghost var spec, afterFirst, middle := old(client.qsecs)[request].spec, client.secrets, client.qsecs;
    second, again := Reconcile(client, request);
    if second.Ok? && spec.copies != [] && Key(request.namespace, spec.secretName) in old(client.secrets) {
      RerunCompletes(old(client.secrets), old(client.qsecs), request, spec.secretName, spec.copies, handled);
      if handled < |spec.copies| {
        RerunCompletes(old(client.secrets), old(client.qsecs), request, spec.secretName, spec.copies, handled + 1);
      }
      StatusDoesNotMatter(afterFirst, old(client.qsecs), middle, request, spec.secretName, spec.copies);
    }
  }
}
