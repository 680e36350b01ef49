// Quarks secrets as Go holds them in memory, with their maps, slices and
// pointers on the heap: the deep copy that a cached read returns
// (pkg/kube/apis/quarkssecret/v1alpha1/zz_generated.deepcopy.go), and the
// in-place edits of a generation pass.
module DeepCopy {
  import opened Types
  import opened Api
  import opened Products

  // A Go map.
  class Dict<V> {
    var entries: map<string, V>

    constructor (entries: map<string, V>)
      ensures this.entries == entries
    {
      this.entries := entries;
    }
  }

  // What a Go pointer points to.
  class Cell<V> {
    var value: V

    constructor (value: V)
      ensures this.value == value
    {
      this.value := value;
    }
  }

  // The fields without references.
  datatype PlainFields = PlainFields(
    secretType: SecretType, basicAuthUsername: string, commonName: string, isCA: bool, caRef: SecretReference,
    caKeyRef: SecretReference, signerType: SignerType, activateEKSWorkaroundForSAN: bool,
    image: ImageCredentialsRequest, engine: string, secretName: string)

  // An object with its embedded structs; null is nil. The alternative names are
  // the first `count` strings of their array, which append can have made
  // longer. Nothing appends to the other slices.
  class QuarksSecretObject {
    var plain: PlainFields
    var names: array?<string>
    var count: nat
    var usages: array?<string>
    var serviceRef: array?<string>
    var templates: Dict?<string>
    var values: Dict?<SecretReference>
    var copies: array?<Key>
    var secretLabels: Dict?<string>
    var secretAnnotations: Dict?<string>
    var lastReconcile: Cell?<nat>
    var generated: Cell?<bool>
    var copied: Cell?<bool>
    var labels: Dict?<string>
    var annotations: Dict?<string>
    var ownLabels: Dict?<string>

    // A copy of o with references of its own. The copied flag stays shared.
    constructor (o: QuarksSecretObject, names: array?<string>, usages: array?<string>, serviceRef: array?<string>,
                 templates: Dict?<string>, values: Dict?<SecretReference>, copies: array?<Key>,
                 secretLabels: Dict?<string>, secretAnnotations: Dict?<string>,
                 lastReconcile: Cell?<nat>, generated: Cell?<bool>,
                 labels: Dict?<string>, annotations: Dict?<string>, ownLabels: Dict?<string>)
      ensures plain == o.plain && count == o.count && copied == o.copied
      ensures this.names == names && this.usages == usages && this.serviceRef == serviceRef
      ensures this.templates == templates && this.values == values && this.copies == copies
      ensures this.secretLabels == secretLabels && this.secretAnnotations == secretAnnotations
      ensures this.lastReconcile == lastReconcile && this.generated == generated
      ensures this.labels == labels && this.annotations == annotations && this.ownLabels == ownLabels
    {
      plain, count, copied := o.plain, o.count, o.copied;
      this.names, this.usages, this.serviceRef := names, usages, serviceRef;
      this.templates, this.values, this.copies := templates, values, copies;
      this.secretLabels, this.secretAnnotations := secretLabels, secretAnnotations;
      this.lastReconcile, this.generated := lastReconcile, generated;
      this.labels, this.annotations, this.ownLabels := labels, annotations, ownLabels;
    }

    ghost predicate Valid()
      reads this
    {
      && (if names == null then count == 0 else count <= names.Length)
      && (names != null ==> names != serviceRef)
    }

    ghost function Names(): seq<string>
      requires Valid()
      reads this, names
    {
      if names == null then [] else names[..count]
    }

    ghost function ServiceRefs(): seq<string>
      reads this, serviceRef
    {
      if serviceRef == null then [] else serviceRef[..]
    }
  }

  // ---- Copies: of the same value, and newly allocated -------------------------

  twostate predicate ArrayCopied<T>(a: array?<T>, new r: array?<T>)
    reads a, r
  {
    (r == null <==> a == null) && (r != null ==> fresh(r) && r[..] == a[..])
  }

  twostate predicate DictCopied<V>(d: Dict?<V>, new r: Dict?<V>)
    reads d, r
  {
    (r == null <==> d == null) && (r != null ==> fresh(r) && r.entries == d.entries)
  }

  twostate predicate CellCopied<V>(c: Cell?<V>, new r: Cell?<V>)
    reads c, r
  {
    (r == null <==> c == null) && (r != null ==> fresh(r) && r.value == c.value)
  }

  // Without the spare room of the array.
  twostate predicate NamesCopied(o: QuarksSecretObject, new names: array?<string>)
    requires o.Valid()
    reads o, o.names, names
  {
    && (names == null <==> o.names == null)
    && (names != null ==> fresh(names) && names.Length == o.count && names[..] == o.names[..o.count])
  }

  // ---- Copying ------------------------------------------------------------------

  // make and copy: a new array of the elements, without spare room.
  method CopySlice<T(0)>(s: array?<T>, count: nat) returns (r: array?<T>)
    requires if s == null then count == 0 else count <= s.Length
    ensures r == null <==> s == null
    ensures r != null ==> fresh(r) && r.Length == count && r[..] == s[..count]
  {
    if s == null {
      return null;
    }
    var base := new T[count];
    for i := 0 to count
      invariant base[..i] == s[..i]
    {
      base[i] := s[i];
    }
    assert base[..] == base[..count];
    r := base;
  }

  method CopyArray<T(0)>(s: array?<T>) returns (r: array?<T>)
    ensures ArrayCopied(s, r)
  {
    r := CopySlice(s, if s == null then 0 else s.Length);
    assert s != null ==> s[..s.Length] == s[..];
  }

  // The entries come in any order.
  method CopyDict<V>(d: Dict?<V>) returns (r: Dict?<V>)
    ensures DictCopied(d, r)
  {
    if d == null {
      return null;
    }
    r := new Dict<V>(map[]);
    var left := d.entries.Keys;
    while left != {}
      invariant fresh(r) && left <= d.entries.Keys && d.entries == old(d.entries)
      invariant r.entries.Keys == d.entries.Keys - left
      invariant forall key :: key in r.entries ==> r.entries[key] == d.entries[key]
      decreases left
    {
      var key :| key in left;
      r.entries := r.entries[key := d.entries[key]];
      left := left - {key};
    }
    assert r.entries == d.entries;
  }

  method CopyCell<V>(c: Cell?<V>) returns (r: Cell?<V>)
    ensures CellCopied(c, r)
  {
    if c == null {
      return null;
    }
    r := new Cell(c.value);
  }

  method CopyCertificate(o: QuarksSecretObject)
    returns (names: array?<string>, usages: array?<string>, serviceRef: array?<string>)
    requires o.Valid()
    ensures NamesCopied(o, names) && ArrayCopied(o.usages, usages) && ArrayCopied(o.serviceRef, serviceRef)
    ensures names != null ==> names != serviceRef
  {
    names := CopySlice(o.names, o.count);
    usages := CopyArray(o.usages);
    serviceRef := CopyArray(o.serviceRef);
  }

  method CopySpec(o: QuarksSecretObject)
    returns (templates: Dict?<string>, values: Dict?<SecretReference>, copies: array?<Key>,
             secretLabels: Dict?<string>, secretAnnotations: Dict?<string>)
    ensures DictCopied(o.templates, templates) && DictCopied(o.values, values) && ArrayCopied(o.copies, copies)
    ensures DictCopied(o.secretLabels, secretLabels) && DictCopied(o.secretAnnotations, secretAnnotations)
  {
    templates := CopyDict(o.templates);
    values := CopyDict(o.values);
    copies := CopyArray(o.copies);
    secretLabels := CopyDict(o.secretLabels);
    secretAnnotations := CopyDict(o.secretAnnotations);
  }

  method CopyStatusAndMeta(o: QuarksSecretObject)
    returns (lastReconcile: Cell?<nat>, generated: Cell?<bool>,
             labels: Dict?<string>, annotations: Dict?<string>, ownLabels: Dict?<string>)
    ensures CellCopied(o.lastReconcile, lastReconcile) && CellCopied(o.generated, generated)
    ensures DictCopied(o.labels, labels) && DictCopied(o.annotations, annotations) && DictCopied(o.ownLabels, ownLabels)
  {
    lastReconcile := CopyCell(o.lastReconcile);
    generated := CopyCell(o.generated);
    labels := CopyDict(o.labels);
    annotations := CopyDict(o.annotations);
    ownLabels := CopyDict(o.ownLabels);
  }

  // An equal object that shares nothing with the given one but the pointer to
  // the copied flag.
  method DeepCopyObject(o: QuarksSecretObject) returns (r: QuarksSecretObject)
    requires o.Valid()
    ensures fresh(r) && r.Valid() && r.plain == o.plain && r.count == o.count && r.copied == o.copied
    ensures NamesCopied(o, r.names) && ArrayCopied(o.usages, r.usages) && ArrayCopied(o.serviceRef, r.serviceRef)
    ensures DictCopied(o.templates, r.templates) && DictCopied(o.values, r.values) && ArrayCopied(o.copies, r.copies)
    ensures DictCopied(o.secretLabels, r.secretLabels) && DictCopied(o.secretAnnotations, r.secretAnnotations)
    ensures CellCopied(o.lastReconcile, r.lastReconcile) && CellCopied(o.generated, r.generated)
    ensures DictCopied(o.labels, r.labels) && DictCopied(o.annotations, r.annotations)
    ensures DictCopied(o.ownLabels, r.ownLabels)
    ensures r.Names() == o.Names()
  {
    var names, usages, serviceRef := CopyCertificate(o);
    var templates, values, copies, secretLabels, secretAnnotations := CopySpec(o);
    var lastReconcile, generated, labels, annotations, ownLabels := CopyStatusAndMeta(o);
    r := new QuarksSecretObject(o, names, usages, serviceRef, templates, values, copies, secretLabels,
                                secretAnnotations, lastReconcile, generated, labels, annotations, ownLabels);
  }

  // ---- In-place edits -------------------------------------------------------------

  // A new array with the first elements and room for some more, and perhaps for
  // more than that.
  method Grow(base: array?<string>, count: nat, room: nat) returns (r: array<string>)
    requires if base == null then count == 0 else count <= base.Length
    ensures fresh(r) && count + room <= r.Length
    ensures r[..count] == if base == null then [] else base[..count]
  {
    var spare :| 0 <= spare;
    r := new string[count + room + spare];
    for i := 0 to count
      invariant r[..i] == if base == null then [] else base[..i]
    {
      r[i] := base[i];
    }
  }

  // append: in place where the array has room for the items, in a new array
  // otherwise.
  method Append(base: array?<string>, count: nat, items: seq<string>) returns (r: array?<string>)
    requires if base == null then count == 0 else count <= base.Length
    modifies base
    ensures r == base || (r != null && fresh(r))
    ensures if r == null then count + |items| == 0 else count + |items| <= r.Length
    ensures r != null ==> r[..count + |items|] == old(if base == null then [] else base[..count]) + items
  {
    if base == null && items == [] {
      return null;
    }
    ghost var before := if base == null then [] else base[..count];
    r := base;
    if base == null || base.Length < count + |items| {
      r := Grow(base, count, |items|);
    }
    for i := 0 to |items|
      invariant r[..count + i] == before + items[..i]
    {
      r[count + i] := items[i];
    }
    assert items[..|items|] == items;
  }

  // The loop over the service references. It stops at the first service that
  // is missing, and the names appended so far stay.
  method AppendServiceNames(q: QuarksSecretObject, services: map<Key, Service>, namespace: string) returns (ok: bool)
    requires q.Valid()
    modifies q`names, q`count, q.names
    ensures q.Valid() && q.serviceRef == old(q.serviceRef) && q.ServiceRefs() == old(q.ServiceRefs())
    ensures q.names == old(q.names) || (q.names != null && fresh(q.names))
    ensures ok <==> ServicesExist(services, namespace, q.ServiceRefs())
    ensures ok ==> q.Names() == AlternativeNames(services, namespace, old(q.Names()), q.ServiceRefs())
  {
    var n := if q.serviceRef == null then 0 else q.serviceRef.Length;
    ghost var refs, before := q.ServiceRefs(), q.Names();
    for i := 0 to n
      invariant q.Valid() && q.serviceRef == old(q.serviceRef) && q.ServiceRefs() == refs
      invariant q.names == old(q.names) || (q.names != null && fresh(q.names))
      invariant ServicesExist(services, namespace, refs[..i])
      invariant q.Names() == AlternativeNames(services, namespace, before, refs[..i])
    {
      var key := Key(namespace, q.serviceRef[i]);
      assert refs[i] == q.serviceRef[i] && refs[..i + 1][..i] == refs[..i];
      if key !in services {
        return false;
      }
      var items := ServiceNames(services[key]);
      var names := Append(q.names, q.count, items);
      q.names, q.count := names, q.count + |items|;
    }
    assert refs[..n] == refs;
    ok := true;
  }

  // An entry set in a map that may be nil.
  method SetEntry(d: Dict?<string>, key: string, value: string) returns (r: Dict<string>)
    modifies d
    ensures r == d || (d == null && fresh(r))
    ensures r.entries == old(if d == null then map[] else d.entries)[key := value]
  {
    if d == null {
      r := new Dict(map[key := value]);
    } else {
      d.entries := d.entries[key := value];
      r := d;
    }
  }

  // New cells, so that none of the object it was copied from is written.
  method SetStatus(q: QuarksSecretObject, now: nat)
    modifies q`generated, q`copied, q`lastReconcile
    ensures q.generated != null && q.generated.value && q.copied != null && !q.copied.value
    ensures q.lastReconcile != null && q.lastReconcile.value == now
  {
    q.generated := new Cell(true);
    q.copied := new Cell(false);
    q.lastReconcile := new Cell(now);
  }

  // The kind label, in the map of the spec. Basic-auth and docker secrets get a
  // map of their own, and the spec is left alone.
  method LabelGenerated(q: QuarksSecretObject) returns (labels: Dict<string>)
    modifies q.secretLabels
    ensures IsGeneratedKind(labels.entries)
    ensures TakesSpecLabels(q.plain.secretType) ==>
              (q.secretLabels != null ==> labels == q.secretLabels)
              && labels.entries ==
                 old(if q.secretLabels == null then map[] else q.secretLabels.entries)[LABEL_KIND := GENERATED_SECRET_KIND]
    ensures !TakesSpecLabels(q.plain.secretType) ==>
              fresh(labels) && labels.entries == map[LABEL_KIND := GENERATED_SECRET_KIND]
              && (q.secretLabels != null ==> q.secretLabels.entries == old(q.secretLabels.entries))
  {
    if TakesSpecLabels(q.plain.secretType) {
      labels := SetEntry(q.secretLabels, LABEL_KIND, GENERATED_SECRET_KIND);
    } else {
      labels := new Dict(map[LABEL_KIND := GENERATED_SECRET_KIND]);
    }
  }

  predicate TakesSpecLabels(t: SecretType) {
    t !in {BasicAuth, DockerConfigJSON}
  }

  predicate IsCertificate(t: SecretType) {
    t in {Certificate, TLS}
  }

  // The map of the spec's labels and that of the annotations are not the same one.
  ghost predicate Unaliased(q: QuarksSecretObject)
    reads q
  {
    q.secretLabels != null ==> q.secretLabels != q.annotations
  }

  // The edits of every type: the label of the secret, and for certificates the
  // default signer and the annotations of a signing request in the map of the object.
  method EditInPlace(q: QuarksSecretObject, id: Key, monitoredID: string)
    modifies q`plain, q.secretLabels, q.annotations
    ensures q.plain == old(q.plain).(signerType :=
              if IsCertificate(old(q.plain).secretType) && old(q.plain).signerType == NoSigner then LocalSigner
              else old(q.plain).signerType)
    ensures TakesSpecLabels(q.plain.secretType) && q.secretLabels != null ==> IsGeneratedKind(q.secretLabels.entries)
    ensures !TakesSpecLabels(q.plain.secretType) && q.secretLabels != null ==>
              q.secretLabels.entries == old(q.secretLabels.entries)
    ensures Unaliased(q) && q.secretLabels != null && TakesSpecLabels(q.plain.secretType) ==>
              q.secretLabels.entries ==
              old(q.secretLabels.entries)["quarks.cloudfoundry.org/secret-kind" := "generated"]
    ensures Unaliased(q) && q.annotations != null ==>
              q.annotations.entries ==
              if IsCertificate(q.plain.secretType) && q.plain.signerType == ClusterSigner
              then old(q.annotations.entries)["quarks.cloudfoundry.org/cert-secret-name" := q.plain.secretName]
                     ["quarks.cloudfoundry.org/quarks-secret-namespace" := id.namespace]
                     ["quarks.cloudfoundry.org/quarks-secret-name" := id.name]
                     ["quarks.cloudfoundry.org/monitored-id" := monitoredID]
              else old(q.annotations.entries)
  {
    if IsCertificate(q.plain.secretType) && q.plain.signerType == NoSigner {
      q.plain := q.plain.(signerType := LocalSigner);
    }
    var _ := LabelGenerated(q);
    if IsCertificate(q.plain.secretType) && q.plain.signerType == ClusterSigner {
      AnnotateRequest(q, id, monitoredID);
    }
  }

  // The annotations of a signing request are those of the object, in place.
  method AnnotateRequest(q: QuarksSecretObject, id: Key, monitoredID: string)
    modifies q.annotations
    ensures q.annotations != null ==>
              q.annotations.entries ==
              old(q.annotations.entries)["quarks.cloudfoundry.org/cert-secret-name" := q.plain.secretName]
                ["quarks.cloudfoundry.org/quarks-secret-namespace" := id.namespace]
                ["quarks.cloudfoundry.org/quarks-secret-name" := id.name]
                ["quarks.cloudfoundry.org/monitored-id" := monitoredID]
  {
    var annotations := SetEntry(q.annotations, ANNOTATION_CERT_SECRET_NAME, q.plain.secretName);
    annotations := SetEntry(annotations, ANNOTATION_QSEC_NAMESPACE, id.namespace);
    annotations := SetEntry(annotations, ANNOTATION_QSEC_NAME, id.name);
    annotations := SetEntry(annotations, ANNOTATION_MONITORED_ID, monitoredID);
  }

  // The names a pass asks for: those of the services are added for certificates.
  function RequestedNames(services: map<Key, Service>, namespace: string, t: SecretType, names: seq<string>,
                          refs: seq<string>): seq<string>
    requires IsCertificate(t) ==> ServicesExist(services, namespace, refs)
  {
    if IsCertificate(t) then AlternativeNames(services, namespace, names, refs) else names
  }

  predicate CanResolve(services: map<Key, Service>, namespace: string, t: SecretType, refs: seq<string>) {
    IsCertificate(t) ==> ServicesExist(services, namespace, refs)
  }

  // What a generation pass does to the object it read.
  method GenerateOn(q: QuarksSecretObject, services: map<Key, Service>, id: Key, monitoredID: string, now: nat)
    returns (ok: bool)
    requires q.Valid()
    modifies q, q.names, q.secretLabels, q.annotations
    ensures q.Valid() && (ok <==> CanResolve(services, id.namespace, q.plain.secretType, old(q.ServiceRefs())))
    ensures q.ServiceRefs() == old(q.ServiceRefs()) && q.plain.secretType == old(q.plain.secretType)
    ensures ok ==> q.Names() == RequestedNames(services, id.namespace, q.plain.secretType, old(q.Names()),
                                               old(q.ServiceRefs()))
    ensures q.names == old(q.names) || (q.names != null && fresh(q.names))
    ensures q.secretLabels == old(q.secretLabels) && q.annotations == old(q.annotations)
    ensures ok && TakesSpecLabels(q.plain.secretType) && q.secretLabels != null ==> IsGeneratedKind(q.secretLabels.entries)
    ensures ok ==> q.generated != null && q.generated.value && q.copied != null && !q.copied.value
                   && q.lastReconcile != null && q.lastReconcile.value == now
    ensures !ok ==> q.plain == old(q.plain) && q.generated == old(q.generated) && q.copied == old(q.copied)
                    && q.lastReconcile == old(q.lastReconcile)
  {
    ok := true;
    if IsCertificate(q.plain.secretType) {
      ok := AppendServiceNames(q, services, id.namespace);
    }
    if ok {
      EditInPlace(q, id, monitoredID);
      SetStatus(q, now);
    }
  }

  // ---- Cache isolation ----------------------------------------------------------------

  // A pass on a copy of the cached object. It has no frame: no object that
  // existed before is written, in the cache or elsewhere.
  method ReconcileCached(cached: QuarksSecretObject, services: map<Key, Service>, id: Key, monitoredID: string, now: nat)
    returns (ok: bool, names: seq<string>)
    requires cached.Valid()
    ensures ok <==> CanResolve(services, id.namespace, cached.plain.secretType, cached.ServiceRefs())
    ensures ok ==> names == RequestedNames(services, id.namespace, cached.plain.secretType, cached.Names(),
                                           cached.ServiceRefs())
  {
    var q := DeepCopyObject(cached);
    assert q.ServiceRefs() == cached.ServiceRefs();
    ok := GenerateOn(q, services, id, monitoredID, now);
    names := if q.names == null then [] else q.names[..q.count];
  }

  // Any number of passes: the names never accumulate.
  method ReconcileManyTimes(cached: QuarksSecretObject, services: map<Key, Service>, id: Key, monitoredID: string,
                            times: seq<nat>)
    returns (requested: seq<seq<string>>)
    requires cached.Valid() && CanResolve(services, id.namespace, cached.plain.secretType, cached.ServiceRefs())
    ensures |requested| == |times|
    ensures forall i :: 0 <= i < |times| ==>
              requested[i] == RequestedNames(services, id.namespace, cached.plain.secretType, cached.Names(),
                                             cached.ServiceRefs())
  {
    requested := [];
    for i := 0 to |times|
      invariant |requested| == i
      invariant forall j :: 0 <= j < i ==>
                  requested[j] == RequestedNames(services, id.namespace, cached.plain.secretType, cached.Names(),
                                                 cached.ServiceRefs())
    {
      var _, names := ReconcileCached(cached, services, id, monitoredID, times[i]);
      requested := requested + [names];
    }
  }

  // On the cached object itself they would, for a certificate, and the kind label
  // would show up in its spec.
  method ReconcileInPlaceTwice(cached: QuarksSecretObject, services: map<Key, Service>, id: Key, monitoredID: string, now: nat)
    requires cached.Valid() && IsCertificate(cached.plain.secretType)
    requires ServicesExist(services, id.namespace, cached.ServiceRefs())
    modifies cached, cached.names, cached.secretLabels, cached.annotations
    ensures cached.Valid()
    ensures cached.secretLabels != null ==> IsGeneratedKind(cached.secretLabels.entries)
    ensures var refs := old(cached.ServiceRefs());
            cached.Names() == AlternativeNames(services, id.namespace,
                                AlternativeNames(services, id.namespace, old(cached.Names()), refs), refs)
  {
    var _ := GenerateOn(cached, services, id, monitoredID, now);
    var _ := GenerateOn(cached, services, id, monitoredID, now);
  }

  // Every service adds names, so the second list is longer.
  lemma {:induction false} EveryServiceAddsNames(services: map<Key, Service>, namespace: string, names: seq<string>,
                                                 refs: seq<string>)
    requires ServicesExist(services, namespace, refs)
    ensures names <= AlternativeNames(services, namespace, names, refs)
    ensures |AlternativeNames(services, namespace, names, refs)| >= |names| + 7 * |refs|
  {
    if refs != [] {
      EveryServiceAddsNames(services, namespace, names, refs[..|refs| - 1]);
    }
  }
}
