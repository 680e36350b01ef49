// What one pass over the copies of a quarks secret makes of the stored
// secrets, as a fold over its list, and the closed form of that fold.
module CopyPass {
  import opened Types
  import Mutate

  type Secrets = map<Key, Secret<string>>
  type QuarksSecrets = map<Key, QuarksSecret>

  // How a target takes part: not at all, as a secret that carries the
  // annotation, or under a copy-type quarks secret that carries it.
  datatype Target = NotOptedIn | PlainSecret | UnderQuarksSecret

  function Classify(secrets: Secrets, qsecs: QuarksSecrets, source: Key, copy: Key): Target {
    var owner := Key(copy.namespace, source.name);
    if owner in qsecs then
      // The quarks secret decides, even if there is also a secret.
      if qsecs[owner].spec.secretType.SecretCopy?
         && HasEntry(qsecs[owner].annotations, ANNOTATION_COPY_OF, NamespacedName(source))
      then UnderQuarksSecret else NotOptedIn
    else if copy in secrets && HasEntry(secrets[copy].annotations, ANNOTATION_COPY_OF, NamespacedName(source))
    then PlainSecret else NotOptedIn
  }

  // The secret a copy is made from, with the annotation added.
  function CopyOf(source: Key, secret: Secret<string>): Mutate.Wanted<string> {
    Mutate.Wanted(secret.labels, secret.annotations[ANNOTATION_COPY_OF := NamespacedName(source)],
                  secret.data, map[])
  }

  function Stored(secrets: Secrets, key: Key): Option<Secret<string>> {
    if key in secrets then Some(secrets[key]) else None
  }

  function Replacement(wanted: Mutate.Wanted<string>): Secret<string> {
    Secret(wanted.labels, wanted.annotations, wanted.data)
  }

  // One entry of the list.
  function HandleCopy(secrets: Secrets, qsecs: QuarksSecrets, source: Key, secretName: string, copy: Key): Secrets {
    var from := Key(source.namespace, secretName);
    if from !in secrets then secrets
    else
      var wanted := CopyOf(source, secrets[from]);
      match Classify(secrets, qsecs, source, copy)
      case NotOptedIn => secrets
      case PlainSecret => secrets[copy := Replacement(wanted)]
      case UnderQuarksSecret => secrets[copy := Mutate.Result(Stored(secrets, copy), wanted)]
  }

  function HandleAll(secrets: Secrets, qsecs: QuarksSecrets, source: Key, secretName: string, copies: seq<Key>): Secrets {
    if copies == [] then secrets
    else
      HandleCopy(HandleAll(secrets, qsecs, source, secretName, copies[..|copies| - 1]), qsecs, source, secretName,
                 copies[|copies| - 1])
  }

  // ---- The closed form ----------------------------------------------------

  // What a target holds in the end: labels and annotations of the source and
  // the annotation; its data too, but a secret that exists under a copy-type
  // quarks secret keeps the data it has.
  function Expected(secrets: Secrets, qsecs: QuarksSecrets, source: Key, secret: Secret<string>, copy: Key): Secret<string>
  {
    var wanted := CopyOf(source, secret);
    if Classify(secrets, qsecs, source, copy).UnderQuarksSecret? && copy in secrets
    then Secret(wanted.labels, wanted.annotations, secrets[copy].data)
    else Replacement(wanted)
  }

  predicate Copied(secrets: Secrets, qsecs: QuarksSecrets, source: Key, copies: seq<Key>, key: Key) {
    key in copies && !Classify(secrets, qsecs, source, key).NotOptedIn?
  }

  // `after` is `secrets` with exactly the opted-in entries replaced.
  ghost predicate IsCopyOutcome(secrets: Secrets, qsecs: QuarksSecrets, source: Key, secretName: string,
                                copies: seq<Key>, after: Secrets)
  {
    var from := Key(source.namespace, secretName);
    from in secrets &&
    forall key :: Stored(after, key) ==
                  if Copied(secrets, qsecs, source, copies, key)
                  then Some(Expected(secrets, qsecs, source, secrets[from], key)) else Stored(secrets, key)
  }

  // The source is a quarks secret that produces its secret itself.
  predicate Producer(qsecs: QuarksSecrets, source: Key) {
    source in qsecs && !qsecs[source].spec.secretType.SecretCopy?
  }

  lemma OwnNamespaceIsNotOptedIn(secrets: Secrets, qsecs: QuarksSecrets, source: Key, copy: Key)
    requires Producer(qsecs, source) && copy.namespace == source.namespace
    ensures Classify(secrets, qsecs, source, copy) == NotOptedIn
  {
  }

  // No entry changes how any target is classified.
  lemma ClassifyIsStable(secrets: Secrets, qsecs: QuarksSecrets, source: Key, secretName: string, copies: seq<Key>,
                         after: Secrets, key: Key)
    requires IsCopyOutcome(secrets, qsecs, source, secretName, copies, after)
    ensures Classify(after, qsecs, source, key) == Classify(secrets, qsecs, source, key)
  {
    var from := Key(source.namespace, secretName);
    assert Stored(after, key) == if Copied(secrets, qsecs, source, copies, key)
                                 then Some(Expected(secrets, qsecs, source, secrets[from], key)) else Stored(secrets, key);
  }

  // Even a source that is a target itself, as a copy-type one can be, gives the
  // same copies after any part of the pass: a copy of its copy is its copy.
  lemma SourceStaysCopyable(secrets: Secrets, qsecs: QuarksSecrets, source: Key, secretName: string, copies: seq<Key>,
                            after: Secrets)
    requires IsCopyOutcome(secrets, qsecs, source, secretName, copies, after)
    ensures var from := Key(source.namespace, secretName);
            from in after && CopyOf(source, after[from]) == CopyOf(source, secrets[from])
  {
    var from := Key(source.namespace, secretName);
    assert Stored(after, from) == if Copied(secrets, qsecs, source, copies, from)
                                  then Some(Expected(secrets, qsecs, source, secrets[from], from)) else Stored(secrets, from);
  }

  lemma {:induction false} HandleAllOutcome(secrets: Secrets, qsecs: QuarksSecrets, source: Key, secretName: string,
                                            copies: seq<Key>)
    requires Key(source.namespace, secretName) in secrets
    ensures IsCopyOutcome(secrets, qsecs, source, secretName, copies,
                          HandleAll(secrets, qsecs, source, secretName, copies))
  {
    if copies != [] {
      var most, copy := copies[..|copies| - 1], copies[|copies| - 1];
      var before := HandleAll(secrets, qsecs, source, secretName, most);
      HandleAllOutcome(secrets, qsecs, source, secretName, most);
      HandleOneMore(secrets, qsecs, source, secretName, most, copy, before);
      assert copies == most + [copy];
    }
  }

  lemma HandleOneMore(secrets: Secrets, qsecs: QuarksSecrets, source: Key, secretName: string, most: seq<Key>,
                      copy: Key, before: Secrets)
    requires IsCopyOutcome(secrets, qsecs, source, secretName, most, before)
    ensures IsCopyOutcome(secrets, qsecs, source, secretName, most + [copy],
                          HandleCopy(before, qsecs, source, secretName, copy))
  {
    var from := Key(source.namespace, secretName);
    var after := HandleCopy(before, qsecs, source, secretName, copy);
    SourceStaysCopyable(secrets, qsecs, source, secretName, most, before);
    ClassifyIsStable(secrets, qsecs, source, secretName, most, before, copy);
    var wanted := CopyOf(source, secrets[from]);
    Mutate.DataOnlyOnCreation(Stored(before, copy), wanted);
    forall key
      ensures Stored(after, key) ==
              if Copied(secrets, qsecs, source, most + [copy], key)
              then Some(Expected(secrets, qsecs, source, secrets[from], key)) else Stored(secrets, key)
    {
      assert Stored(before, key) == if Copied(secrets, qsecs, source, most, key)
                                    then Some(Expected(secrets, qsecs, source, secrets[from], key))
                                    else Stored(secrets, key);
    }
  }

  // ---- What follows ---------------------------------------------------------

  // Two outcomes of the same list on the same secrets are the same.
  lemma SameStored(a: Secrets, b: Secrets)
    requires forall key :: Stored(a, key) == Stored(b, key)
    ensures a == b
  {
    forall key ensures key in a <==> key in b {
      assert Stored(a, key) == Stored(b, key);
    }
    forall key | key in a ensures a[key] == b[key] {
      assert Stored(a, key) == Stored(b, key);
    }
  }

  // A pass over the whole list makes good any pass that stopped at any entry,
  // and a second pass changes nothing.
  lemma RerunCompletes(secrets: Secrets, qsecs: QuarksSecrets, source: Key, secretName: string, copies: seq<Key>, k: nat)
    requires Key(source.namespace, secretName) in secrets && k <= |copies|
    ensures HandleAll(HandleAll(secrets, qsecs, source, secretName, copies[..k]), qsecs, source, secretName, copies)
            == HandleAll(secrets, qsecs, source, secretName, copies)
  {
    var from, part := Key(source.namespace, secretName), HandleAll(secrets, qsecs, source, secretName, copies[..k]);
    HandleAllOutcome(secrets, qsecs, source, secretName, copies);
    HandleAllOutcome(secrets, qsecs, source, secretName, copies[..k]);
    SourceStaysCopyable(secrets, qsecs, source, secretName, copies[..k], part);
    HandleAllOutcome(part, qsecs, source, secretName, copies);
    var a, b := HandleAll(part, qsecs, source, secretName, copies), HandleAll(secrets, qsecs, source, secretName, copies);
    forall key ensures Stored(a, key) == Stored(b, key) {
      ClassifyIsStable(secrets, qsecs, source, secretName, copies[..k], part, key);
      assert Stored(part, key) == if Copied(secrets, qsecs, source, copies[..k], key)
                                  then Some(Expected(secrets, qsecs, source, secrets[from], key))
                                  else Stored(secrets, key);
    }
    SameStored(a, b);
  }

  // The frame of a pass. Only a copy-type source can have targets in its own
  // namespace: it is itself the quarks secret they are under.
  lemma PassFrame(secrets: Secrets, qsecs: QuarksSecrets, source: Key, secretName: string, copies: seq<Key>, key: Key)
    requires Key(source.namespace, secretName) in secrets
    ensures var after := HandleAll(secrets, qsecs, source, secretName, copies);
            && (Stored(after, key) != Stored(secrets, key) ==>
                  && key in copies && (Producer(qsecs, source) ==> key.namespace != source.namespace)
                  && !Classify(secrets, qsecs, source, key).NotOptedIn?)
            && Classify(after, qsecs, source, key) == Classify(secrets, qsecs, source, key)
            && (key in after && key !in secrets ==> Classify(secrets, qsecs, source, key).UnderQuarksSecret?)
            && (key in secrets ==> key in after)
  {
    var after := HandleAll(secrets, qsecs, source, secretName, copies);
    HandleAllOutcome(secrets, qsecs, source, secretName, copies);
    ClassifyIsStable(secrets, qsecs, source, secretName, copies, after, key);
    if Producer(qsecs, source) && key.namespace == source.namespace {
      OwnNamespaceIsNotOptedIn(secrets, qsecs, source, key);
    }
    assert Stored(after, key) == if Copied(secrets, qsecs, source, copies, key)
                                 then Some(Expected(secrets, qsecs, source, secrets[Key(source.namespace, secretName)], key))
                                 else Stored(secrets, key);
  }

  // The copies of a stored secret do not depend on any status.
  ghost predicate SameButStatus(a: QuarksSecrets, b: QuarksSecrets) {
    a.Keys == b.Keys && forall key :: key in a ==> a[key].spec == b[key].spec && a[key].annotations == b[key].annotations
  }

  lemma {:induction false} StatusDoesNotMatter(secrets: Secrets, a: QuarksSecrets, b: QuarksSecrets, source: Key,
                                               secretName: string, copies: seq<Key>)
    requires SameButStatus(a, b)
    ensures HandleAll(secrets, a, source, secretName, copies) == HandleAll(secrets, b, source, secretName, copies)
  {
    if copies != [] {
      StatusDoesNotMatter(secrets, a, b, source, secretName, copies[..|copies| - 1]);
    }
  }

  // ---- Field by field -----------------------------------------------------------

  // A target takes part under the copy-type quarks secret of the source's name in its
  // namespace, or, without a quarks secret of that name, by itself; either way the one
  // that takes part names the source in its annotation.
  lemma OptedInExactly(secrets: Secrets, qsecs: QuarksSecrets, source: Key, key: Key)
    ensures var owner, name := Key(key.namespace, source.name), source.namespace + "/" + source.name;
            var annotation := "quarks.cloudfoundry.org/secret-copy-of";
            && (Classify(secrets, qsecs, source, key) == UnderQuarksSecret <==>
                  && owner in qsecs && qsecs[owner].spec.secretType == SecretCopy
                  && annotation in qsecs[owner].annotations && qsecs[owner].annotations[annotation] == name)
            && (Classify(secrets, qsecs, source, key) == PlainSecret <==>
                  && owner !in qsecs && key in secrets
                  && annotation in secrets[key].annotations && secrets[key].annotations[annotation] == name)
  {
  }

  // Every copy has the labels and annotations of the source and names it; its data
  // is the source's, but for a secret that was there under a quarks secret.
  lemma CopiesFieldByField(secrets: Secrets, qsecs: QuarksSecrets, source: Key, secretName: string, copies: seq<Key>,
                           key: Key)
    requires Key(source.namespace, secretName) in secrets
    ensures var from := secrets[Key(source.namespace, secretName)];
            var after := HandleAll(secrets, qsecs, source, secretName, copies);
            if key in copies && Classify(secrets, qsecs, source, key) != NotOptedIn then
              && key in after
              && after[key].labels == from.labels
              && after[key].annotations ==
                 from.annotations["quarks.cloudfoundry.org/secret-copy-of" := source.namespace + "/" + source.name]
              && after[key].data ==
                 (if Classify(secrets, qsecs, source, key) == UnderQuarksSecret && key in secrets
                  then secrets[key].data else from.data)
            else
              (key in after <==> key in secrets) && (key in secrets ==> after[key] == secrets[key])
  {
    var after := HandleAll(secrets, qsecs, source, secretName, copies);
    HandleAllOutcome(secrets, qsecs, source, secretName, copies);
    assert Stored(after, key) == if Copied(secrets, qsecs, source, copies, key)
                                 then Some(Expected(secrets, qsecs, source, secrets[Key(source.namespace, secretName)], key))
                                 else Stored(secrets, key);
  }
}
