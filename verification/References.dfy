// Secrets that a request refers to, and the errors about them
// (pkg/kube/controllers/quarkssecret/generator.go, templated_config.go and
// certificates.go).
module References {
  import opened Types
  import opened Api

  // ---- Errors ---------------------------------------------------------------

  datatype GoError =
    | Plain(message: string)
    | CaNotReady(message: string)
    | SecNotReady(message: string)
    | Wrapped(message: string, inner: GoError)

  datatype Outcome<+T> = Success(value: T) | Failure(error: GoError)

  // errors.Cause: the innermost error.
  function Cause(e: GoError): GoError {
    if e.Wrapped? then Cause(e.inner) else e
  }

  predicate IsCaNotReady(e: GoError) {
    Cause(e).CaNotReady?
  }

  predicate IsSecNotReady(e: GoError) {
    Cause(e).SecNotReady?
  }

  function WrapAll(messages: seq<string>, e: GoError): GoError {
    if messages == [] then e else Wrapped(messages[0], WrapAll(messages[1..], e))
  }

  // The class of an error shows through any number of wrappings.
  lemma {:induction false} WrappingKeepsTheCause(messages: seq<string>, e: GoError)
    ensures Cause(WrapAll(messages, e)) == Cause(e)
    ensures IsCaNotReady(WrapAll(messages, e)) <==> IsCaNotReady(e)
    ensures IsSecNotReady(WrapAll(messages, e)) <==> IsSecNotReady(e)
  {
    if messages != [] {
      WrappingKeepsTheCause(messages[1..], e);
    }
  }

  // ---- What has to be there ---------------------------------------------------

  // A secret of the same namespace, and an entry of its data if one is needed.
  datatype Need = Need(secretName: string, entry: Option<string>)

  function EntryNeed(r: SecretReference): Need {
    Need(r.name, Some(r.key))
  }

  // A reference without a name is none, except in a templated config.
  function OptionalNeed(r: SecretReference): set<Need> {
    if r.name == "" then {} else {EntryNeed(r)}
  }

  // The certificate authority: an absent data entry does not matter.
  function AuthorityNeeds(c: CertificateRequest): set<Need> {
    if c.caRef.name == "" then {} else {Need(c.caRef.name, None), Need(c.caKeyRef.name, None)}
  }

  function Needs(spec: Spec): set<Need> {
    match spec.secretType
    case DockerConfigJSON => OptionalNeed(spec.request.image.username) + OptionalNeed(spec.request.image.password)
    case TemplatedConfig =>
      set name | name in spec.request.templated.values :: EntryNeed(spec.request.templated.values[name])
    case Certificate =>
      if spec.request.certificate.signerType in {NoSigner, LocalSigner}
      then AuthorityNeeds(spec.request.certificate) else {}
    case TLS =>
      if spec.request.certificate.signerType in {NoSigner, LocalSigner}
      then AuthorityNeeds(spec.request.certificate) else {}
    case _ => {}
  }

  predicate SecretMissing(secrets: map<Key, StoredSecret>, namespace: string, need: Need) {
    Key(namespace, need.secretName) !in secrets
  }

  predicate Met(secrets: map<Key, StoredSecret>, namespace: string, need: Need) {
    var key := Key(namespace, need.secretName);
    key in secrets && (need.entry.Some? ==> need.entry.value in secrets[key].data)
  }

  predicate AllMet(secrets: map<Key, StoredSecret>, namespace: string, needs: set<Need>) {
    forall need :: need in needs ==> Met(secrets, namespace, need)
  }

  predicate OneMissing(secrets: map<Key, StoredSecret>, namespace: string, needs: set<Need>) {
    exists need :: need in needs && SecretMissing(secrets, namespace, need)
  }

  // Something is unmet, and only because of secrets that are missing.
  predicate OnlyMissing(secrets: map<Key, StoredSecret>, namespace: string, needs: set<Need>) {
    && OneMissing(secrets, namespace, needs)
    && forall need :: need in needs ==>
         Met(secrets, namespace, need) || SecretMissing(secrets, namespace, need)
  }

  function ValueOf(secrets: map<Key, StoredSecret>, namespace: string, r: SecretReference): string
    requires Met(secrets, namespace, EntryNeed(r))
  {
    secrets[Key(namespace, r.name)].data[r.key]
  }

  // How an attempt to resolve some needs ends: with success when they are all
  // met, as "not ready" only if a secret is missing, and surely so if that is
  // all there is and the calls work.
  ghost predicate Classified<T(!new)>(r: Outcome<T>, notReady: GoError -> bool, secrets: map<Key, StoredSecret>,
                                      namespace: string, needs: set<Need>, callsWork: bool)
  {
    && (r.Success? ==> AllMet(secrets, namespace, needs))
    && (r.Failure? && notReady(r.error) ==> OneMissing(secrets, namespace, needs))
    && (callsWork && OnlyMissing(secrets, namespace, needs) ==> r.Failure? && notReady(r.error))
  }

  method ReadEntry(client: ApiServer, namespace: string, ref: SecretReference) returns (r: Outcome<string>)
    modifies client`calls
    ensures r.Success? ==>
              Key(namespace, ref.name) in client.secrets && ref.key in client.secrets[Key(namespace, ref.name)].data
              && r.value == client.secrets[Key(namespace, ref.name)].data[ref.key]
    ensures r.Success? ==> Met(client.secrets, namespace, EntryNeed(ref))
                           && r.value == ValueOf(client.secrets, namespace, ref)
    ensures r.Failure? && IsSecNotReady(r.error) ==> SecretMissing(client.secrets, namespace, EntryNeed(ref))
    ensures r.Failure? ==> !IsCaNotReady(r.error)
    ensures client.faults(old(client.calls)) == Fine ==>
              && (Met(client.secrets, namespace, EntryNeed(ref)) ==> r.Success?)
              && (SecretMissing(client.secrets, namespace, EntryNeed(ref)) ==> r.Failure? && IsSecNotReady(r.error))
    ensures client.calls == old(client.calls) + 1
  {
    var secret := client.GetSecret(Key(namespace, ref.name));
    if secret.Err? {
      if secret.error == NotFound {
        return Failure(SecNotReady("secret not found"));
      }
      return Failure(Wrapped("getting secret", Plain("call failed")));
    }
    if ref.key !in secret.value.data {
      return Failure(Plain("failed to get secret data key: " + ref.key));
    }
    r := Success(secret.value.data[ref.key]);
  }

  // ---- Templated configs --------------------------------------------------------

  const HELM_TEMPLATE := "helm"

  function ResolvedValues(secrets: map<Key, StoredSecret>, namespace: string, refs: map<string, SecretReference>): StringMap
    requires forall name :: name in refs ==> Met(secrets, namespace, EntryNeed(refs[name]))
  {
    map name | name in refs :: ValueOf(secrets, namespace, refs[name])
  }

  function TemplatedNeeds(request: TemplatedConfigRequest): set<Need> {
    set name | name in request.values :: EntryNeed(request.values[name])
  }

  // The references come in any order, and the first that does not resolve ends
  // the loop. `render` is the template engine.
  method RenderSecret(client: ApiServer, namespace: string, request: TemplatedConfigRequest,
                      render: (StringMap, StringMap) -> StringMap)
    returns (r: Outcome<StringMap>)
    modifies client`calls
    ensures Classified(r, IsSecNotReady, client.secrets, namespace, TemplatedNeeds(request),
                       CallsWork(client.faults, old(client.calls)))
    ensures r.Failure? ==> !IsCaNotReady(r.error)
    ensures r.Success? ==>
              && request.engine == HELM_TEMPLATE
              && (forall name :: name in request.values ==> Met(client.secrets, namespace, EntryNeed(request.values[name])))
              && r.value == render(request.templates, ResolvedValues(client.secrets, namespace, request.values))
    ensures CallsWork(client.faults, old(client.calls)) && request.engine == HELM_TEMPLATE ==>
              AllMet(client.secrets, namespace, TemplatedNeeds(request)) ==> r.Success?
    ensures client.calls >= old(client.calls)
  {
    var values: StringMap := map[];
    var left := request.values.Keys;
    while left != {}
      invariant client.calls >= old(client.calls)
      invariant left <= request.values.Keys && values.Keys == request.values.Keys - left
      invariant forall name :: name in values ==>
                  Met(client.secrets, namespace, EntryNeed(request.values[name]))
                  && values[name] == ValueOf(client.secrets, namespace, request.values[name])
      decreases left
    {
      var name :| name in left;
      var value := ReadEntry(client, namespace, request.values[name]);
      assert EntryNeed(request.values[name]) in TemplatedNeeds(request);
      if value.Failure? {
        return Failure(value.error);
      }
      values, left := values[name := value.value], left - {name};
    }
    if request.engine != HELM_TEMPLATE {
      return Failure(Plain("unsupported template type has been specified"));
    }
    assert values == ResolvedValues(client.secrets, namespace, request.values);
    r := Success(render(request.templates, values));
  }
}
