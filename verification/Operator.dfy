// The operator as a state machine: any number of quarks secrets, five
// controllers, and one API server whose objects keep all their versions.
// A step is one API call, one event, one queue operation or one outside edit;
// everything the code does not control is an argument of the step.
module Operator {
  import opened Types
  import Mutate

  // ---- What is stored ---------------------------------------------------

  // One entry of a secret: text, a part of what one generator call returned,
  // or a certificate for one signing request. Generator calls and their
  // requests are numbered: request n was made from the key of call n.
  datatype Datum = Given(text: string) | Made(token: nat, part: string) | Signed(request: nat)

  type StoredSecret = Secret<Datum>

  // A secret named by a spec or by a user, or the secret that holds the
  // private key of one quarks secret's signing request.
  datatype SecretName = Plain(key: Key) | KeySecret(owner: Key)

  datatype Writer = Creation | UserEdit | Rotation | Generation | CopyController | MetadataController

  // `stamp` is the number of generator calls made before this version was written.
  datatype Version = Version(obj: QuarksSecret, stamp: nat, writer: Writer)

  // `keyVersion` is the version of the key secret that the pass which created
  // the request had written, if it wrote one.
  datatype Csr = Csr(
    request: nat, approved: bool, certificate: Option<nat>, target: Key, keyVersion: Option<nat>)

  // ---- Controllers ------------------------------------------------------

  // One key of a controller: how many versions its watch has delivered,
  // whether the key is marked for processing, and a delayed requeue.
  datatype Queue = Queue(seen: nat, dirty: bool, waiting: Option<nat>)

  // Where a pass stands. `v` is the version of the quarks secret it read,
  // `token` the generator call it made, `base` the version of the secret that
  // CreateOrUpdate read, `wrote` the version of the key secret it wrote.
  datatype GenerationPass =
    | GenIdle | GenFetching
    | Resolving(v: nat)
    | Checking(v: nat, token: nat)
    | Loading(v: nat, token: nat)
    | Storing(v: nat, token: nat, base: nat)
    | ReadingCsr(v: nat, token: nat, wrote: Option<nat>)
    | CreatingCsr(v: nat, token: nat, wrote: Option<nat>)
    | Acknowledging(v: nat, token: nat)

  // `source` is the version of the source secret that the copies were made from,
  // the oldest one if the reads for the entries differ.
  datatype CopyPass =
    | CopyIdle | CopyFetching | Clearing(v: nat) | CopyingAll(v: nat)
    | Marking(v: nat, source: nat)

  datatype MetadataPass =
    | MetaIdle | MetaFetching | MetaLoading(v: nat) | MetaWriting(v: nat, base: nat) | MetaMarking(v: nat)

  datatype CsrPass =
    | CsrIdle | CsrFetching | Approving
    | AwaitingKey(csr: Csr)
    | LoadingCert(csr: Csr, key: StoredSecret, keyVersion: nat)
    | WritingCert(csr: Csr, key: StoredSecret, keyVersion: nat, base: nat)
    | DeletingKey(csr: Csr)
    | DeletingCsr(csr: Csr)

  datatype GenerationSide = GenerationSide(queue: Queue, pass: GenerationPass)
  datatype CopySide = CopySide(queue: Queue, pass: CopyPass)
  datatype MetadataSide = MetadataSide(queue: Queue, pass: MetadataPass)
  datatype CsrSide = CsrSide(queue: Queue, pass: CsrPass)

  // One quarks secret, its signing request, and its key in each controller.
  datatype Part = Part(
    qsec: seq<Version>,
    csr: seq<Option<Csr>>,
    gen: GenerationSide,
    copy: CopySide,
    meta: MetadataSide,
    sign: CsrSide)

  datatype Config = Config(meltdownDuration: nat, meltdownRequeueAfter: nat)

  datatype World = World(
    config: Config,
    parts: map<Key, Part>,
    secrets: map<SecretName, seq<Option<StoredSecret>>>,
    tokens: nat,
    clock: nat)

  // ---- Steps ------------------------------------------------------------

  datatype Controller = GenerationController | CopiesController | SecretMetaController

  // `retryAt` is when the rate limiter lets the key in again.
  datatype GenerationStep =
    | GenPop | GenTimer
    | GenFetch(v: nat)
    | GenNotReady
    | GenProduce
    | GenCheck(read: Option<nat>)
    | GenLoad(i: nat)
    | GenStore(wanted: Mutate.Wanted<Datum>, retryAt: nat)
    | GenReadCsr(i: nat)
    | GenCreateCsr(retryAt: nat)
    | GenAcknowledge
    | GenAcknowledgeLost
    | GenAbort(retryAt: nat)
    | GenCrash

  datatype CopyStep =
    | CopyPop | CopyTimer
    | CopyFetch(v: nat)
    | CopyClear(sent: bool)
    | CopyAll(source: nat)
    | CopyMark(sent: bool)
    | CopyAbort(retryAt: nat)
    | CopyCrash

  datatype MetadataStep =
    | MetaPop | MetaTimer
    | MetaFetch(v: nat)
    | MetaLoad(i: nat, retryAt: nat)
    | MetaWrite(retryAt: nat)
    | MetaMark(retryAt: nat)
    | MetaAbort(retryAt: nat)
    | MetaCrash

  datatype CsrStep =
    | CsrDeliver(upto: nat)
    | CsrPop | CsrTimer
    | CsrFetch(i: nat)
    | CsrApprove(retryAt: nat)
    | CsrIssue
    | CsrReadKey(i: nat, retryAt: nat)
    | CsrNoRootCA
    | CsrLoad(i: nat)
    | CsrStore(extra: StringMap, retryAt: nat)
    | CsrDeleteKey(retryAt: nat)
    | CsrDelete(retryAt: nat)
    | CsrAbort(retryAt: nat)
    | CsrCrash

  datatype Step =
    | EditSpec(annotations: StringMap, spec: Spec)
    | Rotate
    | Deliver(to: Controller, upto: nat, ownsSecret: bool)
    | DeliverSecret(i: nat)
    | Generate(g: GenerationStep)
    | Copy(c: CopyStep)
    | SyncMetadata(m: MetadataStep)
    | Sign(s: CsrStep)

  datatype Action =
    | Tick
    | CreateQuarksSecret(id: Key, annotations: StringMap, spec: Spec)
    | EditSecret(key: Key, content: Option<Secret<string>>)
    | On(id: Key, step: Step)

  // ---- Reading and writing ----------------------------------------------

  function History(w: World, name: SecretName): (h: seq<Option<StoredSecret>>)
    ensures |h| > 0
  {
    if name in w.secrets && w.secrets[name] != [] then w.secrets[name] else [None]
  }

  function Last<T>(s: seq<T>): T
    requires |s| > 0
  {
    s[|s| - 1]
  }

  function Current(w: World, name: SecretName): Option<StoredSecret> {
    Last(History(w, name))
  }

  datatype Write = Write(name: SecretName, content: Option<StoredSecret>)

  // What one step of a controller does: its part afterwards, the secret it
  // writes if any, and the number of generator calls it makes.
  datatype Effect = Effect(part: Part, write: Option<Write>, calls: nat)

  function Only(p: Part): Option<Effect> {
    Some(Effect(p, None, 0))
  }

  function Written(w: World, write: Option<Write>): map<SecretName, seq<Option<StoredSecret>>> {
    if write.None? then w.secrets
    else w.secrets[write.value.name := History(w, write.value.name) + [write.value.content]]
  }

  function Apply(w: World, id: Key, e: Effect): World {
    World(w.config, w.parts[id := e.part], Written(w, e.write), w.tokens + e.calls, w.clock)
  }

  // A version-checked status write of an object read as version v. Only the
  // status is stored; storing what is there already makes no new version.
  // None is a version conflict.
  function WriteStatus(qsec: seq<Version>, v: nat, status: Status, stamp: nat, writer: Writer):
    (r: Option<seq<Version>>)
    requires |qsec| > 0
    ensures r.Some? ==> qsec <= r.value
  {
    if v + 1 != |qsec| then None
    else if Last(qsec).obj.status == status then Some(qsec)
    else Some(qsec + [Version(Last(qsec).obj.(status := status), stamp, writer)])
  }

  // AddAfter keeps the earlier time of two delayed requeues.
  function Requeue(q: Queue, at: nat): Queue {
    q.(waiting := if q.waiting.Some? && q.waiting.value < at then q.waiting else Some(at))
  }

  // Result.RequeueAfter: a delay of zero means no requeue at all.
  function RequeueAfter(q: Queue, now: nat, delay: nat): Queue {
    if delay == 0 then q else Requeue(q, now + delay)
  }

  function Pop(q: Queue): Queue {
    q.(dirty := false)
  }

  predicate TimerDue(q: Queue, now: nat) {
    q.waiting.Some? && q.waiting.value <= now
  }

  function Fire(q: Queue): Queue {
    q.(dirty := true, waiting := None)
  }

  // The process dies and with it the queue.
  function Forget(q: Queue): Queue {
    q.(dirty := false, waiting := None)
  }

  // A read through the cache is never older than an event already delivered.
  predicate Readable<T>(q: Queue, versions: seq<T>, v: nat) {
    v < |versions| && q.seen <= v + 1
  }

  // ---- What a generation pass writes ------------------------------------

  function Target(id: Key, spec: Spec): SecretName {
    Plain(Key(id.namespace, spec.secretName))
  }

  // The private key of a cluster-signed certificate goes to its own secret first.
  function Destination(id: Key, spec: Spec): SecretName {
    if ClusterSigned(spec) then KeySecret(id) else Target(id, spec)
  }

  // The entries that come from the generator; the docker document does if one of
  // its two credentials is not referenced.
  function GeneratedEntries(spec: Spec): set<string> {
    match spec.secretType
    case Password => {"password"}
    case RSAKey => {"private_key", "public_key"}
    case SSHKey => {"private_key", "public_key", "public_key_fingerprint"}
    case BasicAuth => if spec.request.basicAuthUsername == "" then {"username", "password"} else {"password"}
    case DockerConfigJSON =>
      if spec.request.image.username.name == "" || spec.request.image.password.name == ""
      then {".dockerconfigjson"} else {}
    case TLS => {"tls.crt", "tls.key"}
    case Certificate => if ClusterSigned(spec) then {"private_key"} else {"certificate", "private_key"}
    case _ => {}
  }

  // What a pass wants stored. The entries that are copied or rendered from
  // text can be anything.
  predicate IsWanted(spec: Spec, token: nat, wanted: Mutate.Wanted<Datum>) {
    && wanted == Mutate.WantedFor(spec, wanted.stringData)
    && (forall k :: k in GeneratedEntries(spec) ==>
          k in wanted.stringData && wanted.stringData[k] == Made(token, k))
    && (forall k :: k in wanted.stringData && k !in GeneratedEntries(spec) ==> wanted.stringData[k].Given?)
  }

  function SomeWanted(spec: Spec, token: nat): (wanted: Mutate.Wanted<Datum>)
    ensures IsWanted(spec, token, wanted)
  {
    Mutate.WantedFor(spec, map k | k in GeneratedEntries(spec) :: Made(token, k))
  }

  predicate LocallySigned(spec: Spec) {
    spec.request.certificate.signerType in {NoSigner, LocalSigner}
  }

  // The types and signers whose pass can come to make something. The address of a
  // service in place of the common name needs a service.
  predicate Producible(spec: Spec) {
    match spec.secretType
    case UnknownType(_) => false
    case SecretCopy => false
    case TLS => LocallySigned(spec)
    case Certificate =>
      var c := spec.request.certificate;
      LocallySigned(spec)
      || (c.signerType == ClusterSigner && (c.activateEKSWorkaroundForSAN ==> c.serviceRef != []))
    case _ => true
  }

  // The types whose pass can find that another secret is missing.
  predicate HasReferences(spec: Spec) {
    match spec.secretType
    case Certificate => LocallySigned(spec) && spec.request.certificate.caRef.name != ""
    case TLS => LocallySigned(spec) && spec.request.certificate.caRef.name != ""
    case TemplatedConfig => spec.request.templated.values != map[]
    case DockerConfigJSON => spec.request.image.username.name != "" || spec.request.image.password.name != ""
    case _ => false
  }

  // ---- Generation controller --------------------------------------------

  function GenPass(p: Part, pass: GenerationPass): Option<Effect> {
    Only(p.(gen := p.gen.(pass := pass)))
  }

  function GenEnds(p: Part, queue: Queue): Option<Effect> {
    Only(p.(gen := GenerationSide(queue, GenIdle)))
  }

  function AfterSecret(spec: Spec, v: nat, token: nat, wrote: Option<nat>): GenerationPass {
    if ClusterSigned(spec) then ReadingCsr(v, token, wrote) else Acknowledging(v, token)
  }

  // A create or update goes through if nobody wrote since the read.
  predicate Unconflicted(h: seq<Option<StoredSecret>>, base: nat) {
    base < |h| && (base + 1 == |h| || (h[base].None? && Last(h).None?))
  }

  // The write of CreateOrUpdate with SecretMutateFn.
  function StoreSecret(w: World, id: Key, p: Part, wanted: Mutate.Wanted<Datum>, retryAt: nat): Option<Effect>
    requires p.gen.pass.Storing? && p.gen.pass.v < |p.qsec|
  {
    var Storing(v, token, base) := p.gen.pass;
    var spec := p.qsec[v].obj.spec;
    var name := Destination(id, spec);
    var h := History(w, name);
    if base >= |h| || !IsWanted(spec, token, wanted) then None
    else
      var result := Mutate.Result(h[base], wanted);
      if h[base] == Some(result) then GenPass(p, AfterSecret(spec, v, token, None))
      else if Unconflicted(h, base) then
        Some(Effect(p.(gen := p.gen.(pass := AfterSecret(spec, v, token, Some(|h|)))),
                    Some(Write(name, Some(result))), 0))
      else GenEnds(p, Requeue(p.gen.queue, retryAt))
  }

  // A pass reads the quarks secret and decides whether to go on.
  function FetchQuarksSecret(w: World, p: Part, v: nat): Option<Effect>
    requires v < |p.qsec|
  {
    var obj := p.qsec[v].obj;
    if InMeltdown(w.config.meltdownDuration, obj.status.lastReconcile, w.clock) then
      GenEnds(p, RequeueAfter(p.gen.queue, w.clock, w.config.meltdownRequeueAfter))
    else if obj.spec.secretType.SecretCopy? then GenEnds(p, p.gen.queue)
    else GenPass(p, Resolving(v))
  }

  // A failed read is only logged, and the secret is then created.
  function CheckExisting(w: World, id: Key, p: Part, read: Option<nat>): Option<Effect>
    requires p.gen.pass.Checking? && p.gen.pass.v < |p.qsec|
  {
    var Checking(v, token) := p.gen.pass;
    var spec := p.qsec[v].obj.spec;
    var h := History(w, Target(id, spec));
    if read.None? then GenPass(p, Loading(v, token))
    else if read.value >= |h| then None
    else if h[read.value].Some? && !IsGeneratedKind(h[read.value].value.labels) then
      GenPass(p, AfterSecret(spec, v, token, None))
    else GenPass(p, Loading(v, token))
  }

  function CreateCsr(id: Key, p: Part, retryAt: nat): Option<Effect>
    requires p.gen.pass.CreatingCsr? && p.gen.pass.v < |p.qsec| && |p.csr| > 0
  {
    var CreatingCsr(v, token, wrote) := p.gen.pass;
    if Last(p.csr).Some? then GenEnds(p, Requeue(p.gen.queue, retryAt))
    else
      var csr := Csr(token, false, None, Key(id.namespace, p.qsec[v].obj.spec.secretName), wrote);
      Only(p.(csr := p.csr + [Some(csr)], gen := p.gen.(pass := Acknowledging(v, token))))
  }

  // A conflict is only logged.
  function Acknowledge(w: World, p: Part): Option<Effect>
    requires p.gen.pass.Acknowledging? && p.gen.pass.v < |p.qsec|
  {
    var v := p.gen.pass.v;
    var written := WriteStatus(p.qsec, v, Acknowledged(p.qsec[v].obj.status, w.clock), w.tokens, Generation);
    Only(p.(gen := p.gen.(pass := GenIdle), qsec := if written.Some? then written.value else p.qsec))
  }

  function GenerationNext(w: World, id: Key, p: Part, step: GenerationStep): Option<Effect>
    requires |p.qsec| > 0 && |p.csr| > 0
  {
    var q, pass := p.gen.queue, p.gen.pass;
    match step
    case GenPop =>
      if pass.GenIdle? && q.dirty then Only(p.(gen := GenerationSide(Pop(q), GenFetching))) else None
    case GenTimer =>
      if TimerDue(q, w.clock) then Only(p.(gen := p.gen.(queue := Fire(q)))) else None
    case GenFetch(v) =>
      if pass.GenFetching? && Readable(q, p.qsec, v) then FetchQuarksSecret(w, p, v) else None
    case GenNotReady =>
      if pass.Resolving? && pass.v < |p.qsec| && HasReferences(p.qsec[pass.v].obj.spec)
      then GenEnds(p, RequeueAfter(q, w.clock, 5)) else None
    case GenProduce =>
      if pass.Resolving? && pass.v < |p.qsec| && Producible(p.qsec[pass.v].obj.spec)
      then Some(Effect(p.(gen := p.gen.(pass := Checking(pass.v, w.tokens))), None, 1)) else None
    case GenCheck(read) =>
      if pass.Checking? && pass.v < |p.qsec| then CheckExisting(w, id, p, read) else None
    case GenLoad(i) =>
      if pass.Loading? && pass.v < |p.qsec| && i < |History(w, Destination(id, p.qsec[pass.v].obj.spec))|
      then GenPass(p, Storing(pass.v, pass.token, i)) else None
    case GenStore(wanted, retryAt) =>
      if pass.Storing? && pass.v < |p.qsec| && w.clock <= retryAt
      then StoreSecret(w, id, p, wanted, retryAt) else None
    case GenReadCsr(i) =>
      // An existing request is immutable and left alone.
      if pass.ReadingCsr? && i < |p.csr|
      then GenPass(p, if p.csr[i].Some? then Acknowledging(pass.v, pass.token)
                      else CreatingCsr(pass.v, pass.token, pass.wrote)) else None
    case GenCreateCsr(retryAt) =>
      if pass.CreatingCsr? && pass.v < |p.qsec| && w.clock <= retryAt then CreateCsr(id, p, retryAt) else None
    case GenAcknowledge =>
      if pass.Acknowledging? && pass.v < |p.qsec| then Acknowledge(w, p) else None
    case GenAcknowledgeLost =>
      // Any other failure of the status write is only logged, too.
      if pass.Acknowledging? then GenEnds(p, q) else None
    case GenAbort(retryAt) =>
      // Every other API call that fails ends the pass with an error.
      if !pass.GenIdle? && !pass.Checking? && !pass.Acknowledging? && w.clock <= retryAt
      then GenEnds(p, Requeue(q, retryAt)) else None
    case GenCrash => GenEnds(p, Forget(q))
  }

  // ---- Copy controller --------------------------------------------------

  function CopyPassTo(p: Part, pass: CopyPass): Option<Effect> {
    Only(p.(copy := p.copy.(pass := pass)))
  }

  // A successful write refreshes the object the pass holds; a failed one does
  // not, and is only logged.
  function CopyStatus(w: World, p: Part, v: nat, copied: bool, sent: bool): (seq<Version>, nat)
    requires v < |p.qsec|
  {
    var status := p.qsec[v].obj.status.(copied := Some(copied));
    var written := if sent then WriteStatus(p.qsec, v, status, w.tokens, CopyController) else None;
    if written.Some? then (written.value, |written.value| - 1) else (p.qsec, v)
  }

  // The secrets it writes lie in other namespaces; only its status writes matter here.
  function CopyNext(w: World, id: Key, p: Part, step: CopyStep): Option<Effect>
    requires |p.qsec| > 0
  {
    var q, pass := p.copy.queue, p.copy.pass;
    match step
    case CopyPop =>
      if pass.CopyIdle? && q.dirty then Only(p.(copy := CopySide(Pop(q), CopyFetching))) else None
    case CopyTimer =>
      if TimerDue(q, w.clock) then Only(p.(copy := p.copy.(queue := Fire(q)))) else None
    case CopyFetch(v) =>
      if pass.CopyFetching? && Readable(q, p.qsec, v) then CopyPassTo(p, Clearing(v)) else None
    case CopyClear(sent) =>
      if !(pass.Clearing? && pass.v < |p.qsec|) then None
      else
        var (qsec, v) := CopyStatus(w, p, pass.v, false, sent);
        Only(p.(qsec := qsec, copy := p.copy.(pass := CopyingAll(v))))
    case CopyAll(source) =>
      if pass.CopyingAll? && pass.v < |p.qsec| && source < |History(w, Target(id, p.qsec[pass.v].obj.spec))|
      then CopyPassTo(p, Marking(pass.v, source)) else None
    case CopyMark(sent) =>
      if !(pass.Marking? && pass.v < |p.qsec|) then None
      else
        var (qsec, _) := CopyStatus(w, p, pass.v, true, sent);
        Only(p.(qsec := qsec, copy := p.copy.(pass := CopyIdle)))
    case CopyAbort(retryAt) =>
      if (pass.CopyFetching? || pass.CopyingAll?) && w.clock <= retryAt
      then Only(p.(copy := CopySide(Requeue(q, retryAt), CopyIdle))) else None
    case CopyCrash => Only(p.(copy := CopySide(Forget(q), CopyIdle)))
  }

  // ---- Metadata controller ----------------------------------------------

  function MetaPassTo(p: Part, pass: MetadataPass): Option<Effect> {
    Only(p.(meta := p.meta.(pass := pass)))
  }

  function MetaFailed(p: Part, retryAt: nat): Option<Effect> {
    Only(p.(meta := MetadataSide(Requeue(p.meta.queue, retryAt), MetaIdle)))
  }

  function LoadForMetadata(w: World, id: Key, p: Part, i: nat, retryAt: nat): Option<Effect>
    requires p.meta.pass.MetaLoading? && p.meta.pass.v < |p.qsec|
  {
    var spec := p.qsec[p.meta.pass.v].obj.spec;
    var h := History(w, Target(id, spec));
    if i >= |h| then None
    else if h[i].None? then MetaFailed(p, retryAt)
    else
      var secret := h[i].value;
      if InSync(spec, secret) then MetaPassTo(p, MetaIdle)
      else MetaPassTo(p, MetaWriting(p.meta.pass.v, i))
  }

  function WriteMetadata(w: World, id: Key, p: Part, retryAt: nat): Option<Effect>
    requires p.meta.pass.MetaWriting? && p.meta.pass.v < |p.qsec|
  {
    var MetaWriting(v, base) := p.meta.pass;
    var spec := p.qsec[v].obj.spec;
    var h := History(w, Target(id, spec));
    if base + 1 != |h| || h[base].None? then MetaFailed(p, retryAt)
    else
      var synced := Some(Synced(spec, h[base].value));
      Some(Effect(p.(meta := p.meta.(pass := MetaMarking(v))),
                  if synced == h[base] then None else Some(Write(Target(id, spec), synced)), 0))
  }

  function MetadataNext(w: World, id: Key, p: Part, step: MetadataStep): Option<Effect>
    requires |p.qsec| > 0
  {
    var q, pass := p.meta.queue, p.meta.pass;
    match step
    case MetaPop =>
      if pass.MetaIdle? && q.dirty then Only(p.(meta := MetadataSide(Pop(q), MetaFetching))) else None
    case MetaTimer =>
      if TimerDue(q, w.clock) then Only(p.(meta := p.meta.(queue := Fire(q)))) else None
    case MetaFetch(v) =>
      if pass.MetaFetching? && Readable(q, p.qsec, v) then MetaPassTo(p, MetaLoading(v)) else None
    case MetaLoad(i, retryAt) =>
      if pass.MetaLoading? && pass.v < |p.qsec| && w.clock <= retryAt
      then LoadForMetadata(w, id, p, i, retryAt) else None
    case MetaWrite(retryAt) =>
      if pass.MetaWriting? && pass.v < |p.qsec| && w.clock <= retryAt
      then WriteMetadata(w, id, p, retryAt) else None
    case MetaMark(retryAt) =>
      if !(pass.MetaMarking? && pass.v < |p.qsec| && w.clock <= retryAt) then None
      else
        var status := p.qsec[pass.v].obj.status.(copied := Some(false));
        var written := WriteStatus(p.qsec, pass.v, status, w.tokens, MetadataController);
        if written.Some? then Only(p.(qsec := written.value, meta := p.meta.(pass := MetaIdle)))
        else MetaFailed(p, retryAt)
    case MetaAbort(retryAt) =>
      if !pass.MetaIdle? && w.clock <= retryAt then MetaFailed(p, retryAt) else None
    case MetaCrash => Only(p.(meta := MetadataSide(Forget(q), MetaIdle)))
  }

  // ---- CSR controller and the cluster's signer --------------------------

  function CsrPassTo(p: Part, pass: CsrPass): Option<Effect> {
    Only(p.(sign := p.sign.(pass := pass)))
  }

  function CsrFailed(p: Part, retryAt: nat): Option<Effect> {
    Only(p.(sign := CsrSide(Requeue(p.sign.queue, retryAt), CsrIdle)))
  }

  function CertificateData(csr: Csr, key: StoredSecret, extra: StringMap): map<string, Datum> {
    var given := map k | k in extra :: Given(extra[k]);
    given["certificate" := if csr.certificate.Some? then Signed(csr.certificate.value) else Given("")]
         ["private_key" := if "private_key" in key.data then key.data["private_key"] else Given("")]
  }

  function StoreCertificate(w: World, p: Part, extra: StringMap, retryAt: nat): Option<Effect>
    requires p.sign.pass.WritingCert?
  {
    var WritingCert(csr, key, _, base) := p.sign.pass;
    var h := History(w, Plain(csr.target));
    if base >= |h| then None
    else
      var result := Mutate.CertificateSecret(h[base], CertificateData(csr, key, extra));
      if h[base] == Some(result) then CsrPassTo(p, DeletingKey(csr))
      else if Unconflicted(h, base) then
        Some(Effect(p.(sign := p.sign.(pass := DeletingKey(csr))), Some(Write(Plain(csr.target), Some(result))), 0))
      else CsrFailed(p, retryAt)
  }

  function FetchCsr(p: Part, i: nat): Option<Effect>
    requires i < |p.csr|
  {
    CsrPassTo(p, if p.csr[i].None? then CsrIdle
                 else if p.csr[i].value.certificate.None? then Approving
                 else AwaitingKey(p.csr[i].value))
  }

  function Approve(p: Part, retryAt: nat): Option<Effect>
    requires |p.csr| > 0
  {
    if Last(p.csr).None? then CsrFailed(p, retryAt)
    else if Last(p.csr).value.approved then CsrPassTo(p, CsrIdle)
    else Only(p.(csr := p.csr + [Some(Last(p.csr).value.(approved := true))],
                 sign := p.sign.(pass := CsrIdle)))
  }

  function CsrNext(w: World, id: Key, p: Part, step: CsrStep): Option<Effect>
    requires |p.csr| > 0
  {
    var q, pass := p.sign.queue, p.sign.pass;
    match step
    case CsrDeliver(upto) =>
      if q.seen < upto <= |p.csr|
      then Only(p.(sign := p.sign.(queue := q.(seen := upto, dirty := q.dirty || p.csr[upto - 1].Some?))))
      else None
    case CsrPop =>
      if pass.CsrIdle? && q.dirty then Only(p.(sign := CsrSide(Pop(q), CsrFetching))) else None
    case CsrTimer =>
      if TimerDue(q, w.clock) then Only(p.(sign := p.sign.(queue := Fire(q)))) else None
    case CsrFetch(i) =>
      if pass.CsrFetching? && Readable(q, p.csr, i) then FetchCsr(p, i) else None
    case CsrApprove(retryAt) =>
      if pass.Approving? && w.clock <= retryAt then Approve(p, retryAt) else None
    case CsrIssue =>
      // The cluster's signer, not the operator.
      if Last(p.csr).Some? && Last(p.csr).value.approved && Last(p.csr).value.certificate.None?
      then
        var csr := Last(p.csr).value;
        Only(p.(csr := p.csr + [Some(csr.(certificate := Some(csr.request)))]))
      else None
    case CsrReadKey(i, retryAt) =>
      var h := History(w, KeySecret(id));
      if !(pass.AwaitingKey? && i < |h| && w.clock <= retryAt) then None
      else if h[i].None? then CsrFailed(p, retryAt)
      else CsrPassTo(p, LoadingCert(pass.csr, h[i].value, i))
    case CsrNoRootCA =>
      // Only logged: the pass ends without an error.
      if pass.LoadingCert? then CsrPassTo(p, CsrIdle) else None
    case CsrLoad(i) =>
      if pass.LoadingCert? && i < |History(w, Plain(pass.csr.target))|
      then CsrPassTo(p, WritingCert(pass.csr, pass.key, pass.keyVersion, i)) else None
    case CsrStore(extra, retryAt) =>
      if pass.WritingCert? && w.clock <= retryAt then StoreCertificate(w, p, extra, retryAt) else None
    case CsrDeleteKey(retryAt) =>
      if !(pass.DeletingKey? && w.clock <= retryAt) then None
      else if Current(w, KeySecret(id)).None? then CsrFailed(p, retryAt)
      else Some(Effect(p.(sign := p.sign.(pass := DeletingCsr(pass.csr))), Some(Write(KeySecret(id), None)), 0))
    case CsrDelete(retryAt) =>
      if !(pass.DeletingCsr? && w.clock <= retryAt) then None
      else if Last(p.csr).None? then CsrFailed(p, retryAt)
      else Only(p.(csr := p.csr + [None], sign := p.sign.(pass := CsrIdle)))
    case CsrAbort(retryAt) =>
      if !pass.CsrIdle? && w.clock <= retryAt then CsrFailed(p, retryAt) else None
    case CsrCrash => Only(p.(sign := CsrSide(Forget(q), CsrIdle)))
  }

  // ---- Watches, users, the clock ----------------------------------------

  predicate Passes(to: Controller, o: QuarksSecret, n: QuarksSecret) {
    match to
    case GenerationController => GenerationWatch(o, n)
    case CopiesController => CopyWatch(n)
    case SecretMetaController => MetadataWatch(o, n)
  }

  // The watch may merge several updates into one. `ownsSecret` is what the
  // create predicate of the generation controller found in its list.
  function Delivered(qsec: seq<Version>, q: Queue, to: Controller, upto: nat, ownsSecret: bool): Option<Queue> {
    if !(q.seen < upto <= |qsec|) || (q.seen == 0 && upto != 1) then None
    else
      var passes := if q.seen == 0 then to.GenerationController? && !ownsSecret
                    else Passes(to, qsec[q.seen - 1].obj, qsec[upto - 1].obj);
      Some(q.(seen := upto, dirty := q.dirty || passes))
  }

  function DeliverNext(p: Part, to: Controller, upto: nat, ownsSecret: bool): Option<Effect> {
    match to
    case GenerationController =>
      var q := Delivered(p.qsec, p.gen.queue, to, upto, ownsSecret);
      if q.Some? then Only(p.(gen := p.gen.(queue := q.value))) else None
    case CopiesController =>
      var q := Delivered(p.qsec, p.copy.queue, to, upto, ownsSecret);
      if q.Some? then Only(p.(copy := p.copy.(queue := q.value))) else None
    case SecretMetaController =>
      var q := Delivered(p.qsec, p.meta.queue, to, upto, ownsSecret);
      if q.Some? then Only(p.(meta := p.meta.(queue := q.value))) else None
  }

  // The secret watch of the copy controller: an update of a secret that is not
  // the operator's own.
  function DeliverSecretNext(w: World, id: Key, p: Part, i: nat): Option<Effect>
    requires |p.qsec| > 0
  {
    var h := History(w, Target(id, Last(p.qsec).obj.spec));
    if 0 < i < |h| && h[i - 1].Some? && h[i].Some? && CopySecretWatch(h[i - 1].value, h[i].value)
    then Only(p.(copy := p.copy.(queue := p.copy.queue.(dirty := true)))) else None
  }

  function Append(w: World, p: Part, obj: QuarksSecret, writer: Writer): Option<Effect> {
    Only(p.(qsec := p.qsec + [Version(obj, w.tokens, writer)]))
  }

  function PartNext(w: World, id: Key, p: Part, step: Step): Option<Effect>
    requires |p.qsec| > 0 && |p.csr| > 0
  {
    var obj := Last(p.qsec).obj;
    match step
    case EditSpec(annotations, spec) =>
      var edited := obj.(annotations := annotations, spec := spec);
      if edited == obj then None else Append(w, p, edited, UserEdit)
    case Rotate =>
      // The rotation controller's read and version-checked write.
      if obj.status.NotGenerated() then None
      else Append(w, p, obj.(status := obj.status.(generated := Some(false))), Rotation)
    case Deliver(to, upto, ownsSecret) => DeliverNext(p, to, upto, ownsSecret)
    case DeliverSecret(i) => DeliverSecretNext(w, id, p, i)
    case Generate(g) => GenerationNext(w, id, p, g)
    case Copy(c) => CopyNext(w, id, p, c)
    case SyncMetadata(m) => MetadataNext(w, id, p, m)
    case Sign(s) => CsrNext(w, id, p, s)
  }

  // The status subresource starts empty whatever the user sends.
  function NewPart(annotations: StringMap, spec: Spec, stamp: nat): Part {
    var idle := Queue(0, false, None);
    Part([Version(QuarksSecret(annotations, spec, Status(None, None, None)), stamp, Creation)], [None],
         GenerationSide(idle, GenIdle), CopySide(idle, CopyIdle), MetadataSide(idle, MetaIdle),
         CsrSide(Queue(1, false, None), CsrIdle))
  }

  function UserContent(s: Secret<string>): StoredSecret {
    Secret(s.labels, s.annotations, map k | k in s.data :: Given(s.data[k]))
  }

  function Next(w: World, a: Action): Option<World> {
    match a
    case Tick => Some(w.(clock := w.clock + 1))
    case CreateQuarksSecret(id, annotations, spec) =>
      if id in w.parts then None
      else Some(w.(parts := w.parts[id := NewPart(annotations, spec, w.tokens)]))
    case EditSecret(key, content) =>
      var s := match content case None => None case Some(c) => Some(UserContent(c));
      if s == Current(w, Plain(key)) then None
      else Some(w.(secrets := Written(w, Some(Write(Plain(key), s)))))
    case On(id, step) =>
      if id !in w.parts || |w.parts[id].qsec| == 0 || |w.parts[id].csr| == 0 then None
      else
        var e := PartNext(w, id, w.parts[id], step);
        if e.None? then None else Some(Apply(w, id, e.value))
  }

  // ---- Runs -------------------------------------------------------------

  // run[0] is the start and acts[i] leads from run[i] to run[i + 1].
  ghost predicate IsRun(run: seq<World>, acts: seq<Action>) {
    |run| == |acts| + 1
    && forall i {:trigger Next(run[i], acts[i])} :: 0 <= i < |acts| ==> Next(run[i], acts[i]) == Some(run[i + 1])
  }

  // Nothing exists yet.
  ghost predicate Initial(w: World) {
    w.parts == map[] && w.secrets == map[]
  }

  // The actions can be taken one after the other and lead from w to w'.
  ghost predicate Leads(w: World, acts: seq<Action>, w': World)
    decreases |acts|
  {
    if acts == [] then w' == w
    else Next(w, acts[0]).Some? && Leads(Next(w, acts[0]).value, acts[1..], w')
  }

  lemma {:induction false} LeadsOn(w: World, acts: seq<Action>, mid: World, more: seq<Action>, w': World)
    requires Leads(w, acts, mid) && Leads(mid, more, w')
    ensures Leads(w, acts + more, w')
    decreases |acts|
  {
    if acts == [] {
      assert acts + more == more;
    } else {
      LeadsOn(Next(w, acts[0]).value, acts[1..], mid, more, w');
      assert (acts + more)[1..] == acts[1..] + more;
    }
  }

  lemma OneStep(w: World, a: Action, w': World)
    requires Next(w, a) == Some(w')
    ensures Leads(w, [a], w')
  {
    assert [a][1..] == [];
  }

  lemma LeadsOneMore(w: World, acts: seq<Action>, mid: World, a: Action, w': World)
    requires Leads(w, acts, mid) && Next(mid, a) == Some(w')
    ensures Leads(w, acts + [a], w')
  {
    OneStep(mid, a, w');
    LeadsOn(w, acts, mid, [a], w');
  }

  lemma {:induction false} RunOf(w: World, acts: seq<Action>, w': World) returns (run: seq<World>)
    requires Leads(w, acts, w')
    ensures IsRun(run, acts) && run[0] == w && run[|acts|] == w'
    decreases |acts|
  {
    if acts == [] {
      run := [w];
    } else {
      var rest := RunOf(Next(w, acts[0]).value, acts[1..], w');
      run := [w] + rest;
      forall i {:trigger Next(run[i], acts[i])} | 0 <= i < |acts| ensures Next(run[i], acts[i]) == Some(run[i + 1]) {
        if i > 0 {
          assert acts[i] == acts[1..][i - 1];
          assert Next(rest[i - 1], acts[1..][i - 1]) == Some(rest[i]);
        }
      }
    }
  }
}
