// Merging a wanted secret into a stored one: SecretMutateFn
// (pkg/kube/util/mutate/mutate.go) under controllerutil.CreateOrUpdate.
module Mutate {
  import opened Types

  // What a reconciler wants stored. Data counts only when the secret is created.
  datatype Wanted<D> = Wanted(
    labels: StringMap, annotations: StringMap, data: map<string, D>, stringData: map<string, D>)

  // A generation pass wants its kind label, and no data but string data. Basic-auth
  // and docker secrets do not take the labels and annotations of the spec.
  function WantedFor<D>(spec: Spec, stringData: map<string, D>): Wanted<D> {
    var plain := spec.secretType in {BasicAuth, DockerConfigJSON};
    var labels: StringMap := if plain then map[] else spec.secretLabels;
    Wanted(labels[LABEL_KIND := GENERATED_SECRET_KIND], if plain then map[] else spec.secretAnnotations,
           map[], stringData)
  }

  // What the API server ends up with. An update keeps the stored data, except
  // for the entries of stringData.
  function Merged<D>(stored: Secret<D>, wanted: Wanted<D>): Secret<D> {
    Secret(wanted.labels, wanted.annotations, stored.data + wanted.stringData)
  }

  function Created<D>(wanted: Wanted<D>): Secret<D> {
    Secret(wanted.labels, wanted.annotations, wanted.data + wanted.stringData)
  }

  function Result<D>(stored: Option<Secret<D>>, wanted: Wanted<D>): Secret<D> {
    match stored
    case None => Created(wanted)
    case Some(s) => Merged(s, wanted)
  }

  // The closure of the CSR controller instead replaces the whole data; its labels
  // are only set on creation.
  function CertificateSecret<D>(stored: Option<Secret<D>>, data: map<string, D>): Secret<D> {
    match stored
    case None => Secret(map[LABEL_KIND := GENERATED_SECRET_KIND], map[], data)
    case Some(s) => s.(data := data)
  }

  // A secret as the reconciler holds it in memory.
  class SecretObject<D(==)> {
    var labels: StringMap
    var annotations: StringMap
    var data: map<string, D>
    var stringData: map<string, D>

    constructor (wanted: Wanted<D>)
      ensures labels == wanted.labels && annotations == wanted.annotations
      ensures data == wanted.data && stringData == wanted.stringData
    {
      labels, annotations := wanted.labels, wanted.annotations;
      data, stringData := wanted.data, wanted.stringData;
    }

    // The value that a write of this object stores.
    function Stored(): Secret<D>
      reads this
    {
      Secret(labels, annotations, data + stringData)
    }

    // Get replaces the whole object; StringData is empty on read.
    method Load(s: Secret<D>)
      modifies this
      ensures labels == s.labels && annotations == s.annotations
      ensures data == s.data && stringData == map[]
    {
      labels, annotations, data, stringData := s.labels, s.annotations, s.data, map[];
    }

    // The closure SecretMutateFn returns; `updated` is the copy it captured.
    // The entries come in any order and the first different one ends the loop.
    method Mutate(updated: Wanted<D>)
      modifies this
      ensures labels == updated.labels && annotations == updated.annotations
      ensures data == old(data)
      ensures stringData ==
              if exists k :: k in updated.stringData && !(k in data && data[k] == updated.stringData[k])
              then updated.stringData else old(stringData)
    {
      labels := updated.labels;
      annotations := updated.annotations;
      var left := updated.stringData.Keys;
      while left != {}
        invariant labels == updated.labels && annotations == updated.annotations
        invariant data == old(data) && stringData == old(stringData)
        invariant left <= updated.stringData.Keys
        invariant forall k :: k in updated.stringData && k !in left ==>
                    k in data && data[k] == updated.stringData[k]
        decreases left
      {
        var key :| key in left;
        if key in data && data[key] == updated.stringData[key] {
          left := left - {key};
        } else {
          stringData := updated.stringData;
          break;
        }
      }
    }
  }

  // Setting StringData only on a difference loses nothing, and when it is set
  // the stored data does change.
  lemma StringDataTakesEffect<D>(data: map<string, D>, chosen: map<string, D>, wanted: map<string, D>)
    requires chosen == if exists k :: k in wanted && !(k in data && data[k] == wanted[k]) then wanted else map[]
    ensures data + chosen == data + wanted
    ensures chosen == map[] <==> data + wanted == data
  {
    if k :| k in wanted && !(k in data && data[k] == wanted[k]) {
      assert (data + wanted)[k] == wanted[k];
      assert chosen != map[];
    } else {
      assert data + wanted == data;
      assert data + chosen == data;
    }
  }

  // Merging twice is merging once, whatever was stored before.
  lemma MergeIsIdempotent<D>(stored: Option<Secret<D>>, wanted: Wanted<D>)
    ensures Result(Some(Result(stored, wanted)), wanted) == Result(stored, wanted)
  {
    var once := Result(stored, wanted);
    var base := if stored.Some? then stored.value.data else wanted.data;
    assert (base + wanted.stringData) + wanted.stringData == base + wanted.stringData;
  }

  // Data without StringData never reaches a stored secret: the merge carries
  // it only when the secret is created.
  lemma DataOnlyOnCreation<D>(stored: Option<Secret<D>>, wanted: Wanted<D>)
    requires wanted.stringData == map[]
    ensures Result(stored, wanted) ==
            Secret(wanted.labels, wanted.annotations,
                   if stored.Some? then stored.value.data else wanted.data)
  {
    if stored.Some? {
      assert stored.value.data + wanted.stringData == stored.value.data;
    } else {
      assert wanted.data + wanted.stringData == wanted.data;
    }
  }

  // ---- Field by field ---------------------------------------------------------

  // Labels and annotations are the wanted ones. Wanted text replaces an entry, any
  // other entry keeps its stored value, or on creation the wanted data.
  lemma MergeFieldByField<D>(stored: Option<Secret<D>>, wanted: Wanted<D>)
    ensures var s := Result(stored, wanted);
            var base := if stored.Some? then stored.value.data else wanted.data;
            && s.labels == wanted.labels && s.annotations == wanted.annotations
            && s.data.Keys == base.Keys + wanted.stringData.Keys
            && (forall k :: k in wanted.stringData ==> s.data[k] == wanted.stringData[k])
            && (forall k :: k in base && k !in wanted.stringData ==> s.data[k] == base[k])
  {
  }

  // What a generation pass leaves, whatever was stored.
  lemma GeneratedFieldByField<D>(spec: Spec, stored: Option<Secret<D>>, stringData: map<string, D>)
    ensures var s := Result(stored, WantedFor(spec, stringData));
            var labels: StringMap := if spec.secretType == BasicAuth || spec.secretType == DockerConfigJSON then map[]
                                     else spec.secretLabels;
            && s.labels == labels["quarks.cloudfoundry.org/secret-kind" := "generated"]
            && s.annotations == (if spec.secretType == BasicAuth || spec.secretType == DockerConfigJSON then map[]
                                 else spec.secretAnnotations)
            && s.data == if stored.Some? then stored.value.data + stringData else stringData
  {
    assert map[] + stringData == stringData;
  }

  // What a CSR pass leaves: all entries are new ones, labels and annotations of a
  // stored secret stay.
  lemma CertificateFieldByField<D>(stored: Option<Secret<D>>, data: map<string, D>)
    ensures var s := CertificateSecret(stored, data);
            && s.data == data
            && s.labels == (if stored.Some? then stored.value.labels
                            else map["quarks.cloudfoundry.org/secret-kind" := "generated"])
            && s.annotations == (if stored.Some? then stored.value.annotations else map[])
  {
  }
}
