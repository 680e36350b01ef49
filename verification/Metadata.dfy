// The metadata controller's pass as it runs against the API server
// (pkg/kube/controllers/quarkssecret/quarkssecret_secretmeta_reconciler.go),
// whose calls can fail at any point.
module Metadata {
  import opened Types
  import opened Api
  import CopyReconciler

  // Syncing keeps data and kind, and a second sync finds the same value.
  lemma SyncIsStable(spec: Spec, secret: StoredSecret)
    ensures var s := Synced(spec, secret);
            && s.data == secret.data && (IsGeneratedKind(s.labels) <==>
                 if LABEL_KIND in secret.labels then IsGeneratedKind(secret.labels) else IsGeneratedKind(spec.secretLabels))
            && Synced(spec, s) == s
            // It is in sync to the code exactly when neither map is empty.
            && (InSync(spec, s) <==> s.labels != map[] && spec.secretAnnotations != map[])
  {
    var s := Synced(spec, secret);
    assert Synced(spec, s).labels == s.labels;
  }

  // Annotations and labels are those of the spec, and the kind label stays as stored.
  lemma SyncedFieldByField<D>(spec: Spec, secret: Secret<D>, k: string)
    ensures var s := Synced(spec, secret);
            var kind := "quarks.cloudfoundry.org/secret-kind";
            && s.data == secret.data && s.annotations == spec.secretAnnotations
            && (k != kind ==> (k in s.labels <==> k in spec.secretLabels)
                              && (k in spec.secretLabels ==> s.labels[k] == spec.secretLabels[k]))
            && (kind in secret.labels ==> kind in s.labels && s.labels[kind] == secret.labels[kind])
            && (kind !in secret.labels ==> s.labels == spec.secretLabels)
  {
  }

  // The pass finds nothing to do if and only if the secret has the labels and
  // annotations that a sync gives it, and neither of them is empty.
  lemma InSyncExactly<D>(spec: Spec, secret: Secret<D>)
    ensures InSync(spec, secret) <==>
            && Synced(spec, secret) == secret && secret.labels != map[] && secret.annotations != map[]
  {
  }

  // The flag is cleared only after the secret was written, and it is the only
  // part of any status that is touched.
  method Reconcile(client: ApiServer, id: Key) returns (r: Answer<()>)
    modifies client`calls, client`secrets, client`secretWrites, client`qsecs, client`statusWrites
    ensures id !in old(client.qsecs) ==>
              client.secrets == old(client.secrets) && client.qsecs == old(client.qsecs)
              && (r.Ok? <==> client.faults(old(client.calls)) == Fine)
    ensures id in old(client.qsecs) ==>
              var spec := old(client.qsecs)[id].spec;
              var key := Key(id.namespace, spec.secretName);
              var synced := if key in old(client.secrets)
                            then old(client.secrets)[key := Synced(spec, old(client.secrets)[key])]
                            else old(client.secrets);
              && client.secrets in {old(client.secrets), synced}
              && (client.qsecs == old(client.qsecs)
                  || (client.secrets == synced && key in old(client.secrets) && !InSync(spec, old(client.secrets)[key])
                      && client.qsecs == CopyReconciler.WithFlag(old(client.qsecs), id, Some(false))))
              // Success leaves the secret in sync, and the copies to be made again.
              && (r.Ok? && key in old(client.secrets) && client.faults(old(client.calls)) == Fine ==>
                    client.secrets == synced
                    && (!InSync(spec, old(client.secrets)[key]) ==> client.qsecs[id].status.copied == Some(false)))
              && (key !in old(client.secrets) ==> r.Err?)
              // Of all quarks secrets the pass touches no other field.
              && (client.qsecs == old(client.qsecs)
                  || client.qsecs == old(client.qsecs)[id := QuarksSecret(
                       old(client.qsecs)[id].annotations, spec,
                       Status(old(client.qsecs)[id].status.lastReconcile, old(client.qsecs)[id].status.generated,
                              Some(false)))])
              && (CallsWork(client.faults, old(client.calls)) && key in old(client.secrets) ==> r.Ok?)
  {
    var got := client.GetQuarksSecret(id);
    if got.Err? {
      return if got.error == NotFound then Ok(()) else Err(got.error);
    }
    var qsec := got.value;
    var secret := CopyReconciler.GetSourceSecret(client, id, qsec);
    if secret.Err? {
      return Err(secret.error);
    }
    var newSecretAnnotations, newSecretLabels := qsec.spec.secretAnnotations, qsec.spec.secretLabels;
    if LABEL_KIND in secret.value.labels {
      newSecretLabels := newSecretLabels[LABEL_KIND := secret.value.labels[LABEL_KIND]];
    }
    if !DeepEqualToRead(newSecretLabels, secret.value.labels)
       || !DeepEqualToRead(newSecretAnnotations, secret.value.annotations) {
      r := client.UpdateSecret(Key(id.namespace, qsec.spec.secretName),
                               secret.value.(labels := newSecretLabels, annotations := newSecretAnnotations));
      if r.Err? {
        return;
      }
      r := client.UpdateStatus(id, qsec.status.(copied := Some(false)));
    } else {
      r := Ok(());
    }
  }
}
