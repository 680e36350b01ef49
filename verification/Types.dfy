// The data the operator works on: quarks secrets, secrets, and the pure
// functions of their fields (pkg/kube/apis/quarkssecret/v1alpha1/types.go).
module Types {

  datatype Option<+T> = None | Some(value: T)
  {
    function GetOr(default: T): T {
      if Some? then value else default
    }
  }

  type StringMap = map<string, string>

  // A namespace and a name.
  datatype Key = Key(namespace: string, name: string)

  datatype SecretType =
    | Password | Certificate | TLS | SSHKey | RSAKey | BasicAuth
    | DockerConfigJSON | SecretCopy | TemplatedConfig
    | UnknownType(text: string)

  datatype SignerType = NoSigner | LocalSigner | ClusterSigner | UnknownSigner(text: string)

  datatype SecretReference = SecretReference(name: string, key: string)

  datatype CertificateRequest = CertificateRequest(
    commonName: string,
    alternativeNames: seq<string>,
    isCA: bool,
    caRef: SecretReference,
    caKeyRef: SecretReference,
    signerType: SignerType,
    usages: seq<string>,
    serviceRef: seq<string>,
    activateEKSWorkaroundForSAN: bool)

  datatype ImageCredentialsRequest = ImageCredentialsRequest(
    username: SecretReference, password: SecretReference, registry: string, email: string)

  datatype TemplatedConfigRequest = TemplatedConfigRequest(
    engine: string, templates: StringMap, values: map<string, SecretReference>)

  datatype Request = Request(
    basicAuthUsername: string,
    certificate: CertificateRequest,
    image: ImageCredentialsRequest,
    templated: TemplatedConfigRequest)

  datatype Spec = Spec(
    secretType: SecretType,
    request: Request,
    secretName: string,
    copies: seq<Key>,
    secretLabels: StringMap,
    secretAnnotations: StringMap)

  // Each flag is unset, true or false; the time is in whole seconds, which is
  // what the API server stores.
  datatype Status = Status(lastReconcile: Option<nat>, generated: Option<bool>, copied: Option<bool>)
  {
    predicate IsGenerated() { generated == Some(true) }

    // An unset flag is neither generated nor not-generated.
    predicate NotGenerated() { generated == Some(false) }

    predicate IsCopied() { copied == Some(true) }
  }

  datatype QuarksSecret = QuarksSecret(annotations: StringMap, spec: Spec, status: Status)

  // D is the type of one data entry. StringData is not a field: the API server
  // overlays it on the data when it stores a secret and never returns it.
  datatype Secret<D> = Secret(labels: StringMap, annotations: StringMap, data: map<string, D>)

  const LABEL_KIND := "quarks.cloudfoundry.org/secret-kind"
  const ANNOTATION_COPY_OF := "quarks.cloudfoundry.org/secret-copy-of"
  const GENERATED_SECRET_KIND := "generated"

  function NamespacedName(key: Key): string {
    key.namespace + "/" + key.name
  }

  predicate HasEntry(m: StringMap, key: string, value: string) {
    key in m && m[key] == value
  }

  // The operator made this secret, or took it over.
  predicate IsGeneratedKind(labels: StringMap) {
    HasEntry(labels, LABEL_KIND, GENERATED_SECRET_KIND)
  }

  predicate ClusterSigned(spec: Spec) {
    spec.secretType in {Certificate, TLS} && spec.request.certificate.signerType == ClusterSigner
  }

  // What a generation pass makes of the status it read.
  function Acknowledged(status: Status, now: nat): Status {
    status.(generated := Some(true), copied := Some(false), lastReconcile := Some(now))
  }

  // ---- Watch predicates -------------------------------------------------

  // The part of the spec whose change makes a generated secret stale.
  predicate SameGenerationInput(o: Spec, n: Spec) {
    o.secretType == n.secretType && o.request == n.request
    && o.secretName == n.secretName && o.copies == n.copies
  }

  // Nothing but `SecretLabels` and `SecretAnnotations` differs.
  predicate SameButMetadata(o: Spec, n: Spec) {
    n == o.(secretLabels := n.secretLabels, secretAnnotations := n.secretAnnotations)
  }

  // The generation controller's update predicate.
  predicate GenerationWatch(o: QuarksSecret, n: QuarksSecret) {
    (o.status.IsGenerated() && !SameGenerationInput(o.spec, n.spec)) || n.status.NotGenerated()
  }

  // The copy controller's update predicate on quarks secrets.
  predicate CopyWatch(n: QuarksSecret) {
    !n.status.IsCopied()
  }

  // The copy controller's update predicate on secrets.
  predicate CopySecretWatch<D(==)>(o: Secret<D>, n: Secret<D>) {
    o != n && !IsGeneratedKind(n.labels)
  }

  // The metadata controller's update predicate.
  predicate MetadataWatch(o: QuarksSecret, n: QuarksSecret) {
    o.spec.secretLabels != n.spec.secretLabels || o.spec.secretAnnotations != n.spec.secretAnnotations
  }

  // ---- Labels and annotations of the spec on the secret --------------------

  // The kind label of the secret survives; everything else comes from the spec.
  function Synced<D>(spec: Spec, secret: Secret<D>): Secret<D> {
    var labels := if LABEL_KIND in secret.labels
                  then spec.secretLabels[LABEL_KIND := secret.labels[LABEL_KIND]] else spec.secretLabels;
    secret.(labels := labels, annotations := spec.secretAnnotations)
  }

  // DeepEqual of a map that was made with one that was read, where empty reads
  // as nil.
  predicate DeepEqualToRead(made: StringMap, read: StringMap) {
    made == read && read != map[]
  }

  predicate InSync<D>(spec: Spec, secret: Secret<D>) {
    DeepEqualToRead(Synced(spec, secret).labels, secret.labels)
    && DeepEqualToRead(spec.secretAnnotations, secret.annotations)
  }

  // ---- Meltdown ------------------------------------------------------------

  // The generation pass does nothing before this time window has passed.
  predicate InMeltdown(duration: nat, lastReconcile: Option<nat>, now: nat) {
    lastReconcile.Some? && lastReconcile.value <= now < lastReconcile.value + duration
  }
}
