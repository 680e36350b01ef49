// The private key of a signing request is never lost and ends up with its
// certificate, if no generation starts while a request is around and the CSR
// pass does not read the key secret as it was before the request.
module KeyHandoff {
  import opened Types
  import opened Operator
  import opened Effects
  import opened Pairing
  import Mutate

  predicate Cluster(spec: Spec, name: string) {
    spec.secretName == name && ClusterSigned(spec)
  }

  // What the run must respect. Every failure between two API calls is allowed.
  ghost predicate Careful(w: World, a: Action, w': World, id: Key, name: string) {
    var target := Plain(Key(id.namespace, name));
    match a
    case CreateQuarksSecret(other, _, spec) => other == id ==> Cluster(spec, name)
    case On(other, step) =>
      if other != id then History(w', target) == History(w, target)
      else CarefulStep(w.parts, id, step, name)
    case _ => History(w', target) == History(w, target)
  }

  predicate CarefulStep(parts: map<Key, Part>, id: Key, step: Step, name: string) {
    match step
    case EditSpec(_, spec) => Cluster(spec, name)
    case Generate(g) => g.GenProduce? && id in parts ==> Settled(parts[id])
    case Sign(s) =>
      s.CsrReadKey? && id in parts && parts[id].sign.pass.AwaitingKey? ==>
        var version := parts[id].sign.pass.csr.keyVersion;
        version.Some? ==> version.value <= s.i
    case _ => true
  }

  // The last request that was created, gone or not.
  function Latest(csr: seq<Option<Csr>>): Option<Csr> {
    if csr == [] then None
    else if Last(csr).Some? then Last(csr) else Latest(csr[..|csr| - 1])
  }

  function PassCsr(pass: CsrPass): Option<Csr> {
    match pass
    case AwaitingKey(c) => Some(c)
    case LoadingCert(c, _, _) => Some(c)
    case WritingCert(c, _, _, _) => Some(c)
    case DeletingKey(c) => Some(c)
    case DeletingCsr(c) => Some(c)
    case _ => None
  }

  // This is the latest request, and only deletions followed its key.
  ghost predicate Known(c: Csr, p: Part, h: seq<Option<StoredSecret>>, target: Key) {
    && Latest(p.csr).Some? && Latest(p.csr).value.request == c.request && c.target == target
    && c.keyVersion.Some? && forall k :: c.keyVersion.value < k < |h| ==> h[k] == None
  }

  ghost predicate SpecsOk(p: Part, name: string) {
    forall i :: 0 <= i < |p.qsec| ==> Cluster(p.qsec[i].obj.spec, name)
  }

  // The certificate secret: paired, the operator's own, and a key that is
  // there for the latest request stays there.
  ghost predicate TargetOk(p: Part, t: seq<Option<StoredSecret>>, tokens: nat) {
    && |t| > 0
    && (forall j :: 0 <= j < |t| && t[j].Some? ==>
          && IsGeneratedKind(t[j].value.labels)
          && ("certificate" in t[j].value.data && t[j].value.data["certificate"].Signed? ==> Paired(t[j].value))
          && (KeyToken(t[j]).Some? ==> KeyToken(t[j]).value < Limit(p, tokens)))
    && (Latest(p.csr).Some? ==>
          var key := Some(Latest(p.csr).value.request);
          forall j, k :: 0 <= j < k < |t| && KeyToken(t[j]) == key ==> KeyToken(t[k]) == key)
  }

  ghost predicate RequestsOk(p: Part, h: seq<Option<StoredSecret>>, t: seq<Option<StoredSecret>>, target: Key)
    requires |h| > 0 && |t| > 0
  {
    var pass := p.sign.pass;
    && p.sign.queue.seen <= |p.csr|
    && (forall i: nat :: Readable(p.sign.queue, p.csr, i) && p.csr[i].Some? ==> Known(p.csr[i].value, p, h, target))
    && (PassCsr(pass).Some? ==> Known(PassCsr(pass).value, p, h, target))
    && (pass.LoadingCert? || pass.WritingCert? ==> pass.csr.keyVersion == Some(pass.keyVersion))
    && (pass.DeletingKey? || pass.DeletingCsr? ==> KeyToken(Last(t)) == Some(pass.csr.request))
  }

  ghost predicate KeySafe(p: Part, h: seq<Option<StoredSecret>>, t: seq<Option<StoredSecret>>)
    requires |h| > 0 && |t| > 0 && |p.csr| > 0
  {
    Latest(p.csr).Some? ==>
      var key := Some(Latest(p.csr).value.request);
      KeyToken(Last(t)) == key || (Last(p.csr).Some? && KeyToken(Last(h)) == key)
  }

  ghost predicate GenOk(p: Part, h: seq<Option<StoredSecret>>) {
    && (InHand(p.gen.pass).Some? ==> Settled(p))
    && (p.gen.pass.ReadingCsr? || p.gen.pass.CreatingCsr? ==> p.gen.pass.wrote == Some(|h| - 1))
  }

  ghost predicate Guarded(p: Part, h: seq<Option<StoredSecret>>, t: seq<Option<StoredSecret>>, tokens: nat,
                          target: Key) {
    && |h| > 0 && Tracked(p, h, tokens) && SpecsOk(p, target.name) && TargetOk(p, t, tokens)
    && RequestsOk(p, h, t, target) && KeySafe(p, h, t) && GenOk(p, h)
  }

  // ---- Generation steps ---------------------------------------------------

  // The key secret gets the key in hand: no request is around, so the latest
  // one has its key in the certificate secret.
  lemma KeyStoredGuarded(p: Part, p': Part, h: seq<Option<StoredSecret>>, s: StoredSecret,
                         t: seq<Option<StoredSecret>>, tokens: nat, target: Key)
    requires Guarded(p, h, t, tokens, target) && p.gen.pass.Storing?
    requires KeyToken(Some(s)) == Some(p.gen.pass.token)
    requires p' == p.(gen := p.gen.(pass := ReadingCsr(p.gen.pass.v, p.gen.pass.token, Some(|h|))))
    ensures Guarded(p', h + [Some(s)], t, tokens, target)
  {
    KeyWritten(p, p', h, s, tokens);
  }

  // The pass changed, nothing else.
  lemma PassGuarded(p: Part, p': Part, h: seq<Option<StoredSecret>>, t: seq<Option<StoredSecret>>, tokens: nat,
                    target: Key)
    requires Guarded(p, h, t, tokens, target) && p' == p.(gen := p'.gen)
    requires var v := ReadBy(p'.gen.pass); v.Some? ==> v.value < |p.qsec|
    requires InHand(p'.gen.pass).Some? ==>
               && InHand(p'.gen.pass) == InHand(p.gen.pass) && ReadBy(p'.gen.pass) == ReadBy(p.gen.pass)
               && WroteVersion(p'.gen.pass) == WroteVersion(p.gen.pass)
    requires p'.gen.pass.ReadingCsr? || p'.gen.pass.CreatingCsr? ==>
               p.gen.pass.ReadingCsr? || p.gen.pass.CreatingCsr?
    ensures Guarded(p', h, t, tokens, target)
  {
    PassMoves(p, p', h, tokens);
  }

  lemma ProduceGuarded(w: World, p: Part, p': Part, h: seq<Option<StoredSecret>>, t: seq<Option<StoredSecret>>,
                       v: nat, target: Key)
    requires Guarded(p, h, t, w.tokens, target) && Settled(p)
    requires p.gen.pass == Resolving(v) && Producible(p.qsec[v].obj.spec)
    requires p' == p.(gen := p.gen.(pass := Checking(v, w.tokens)))
    ensures Guarded(p', h, t, w.tokens + 1, target)
  {
    ProduceTracked(w, p, h, v, p');
  }

  lemma CsrCreatedGuarded(w: World, id: Key, p: Part, retryAt: nat, h: seq<Option<StoredSecret>>,
                          t: seq<Option<StoredSecret>>, e: Effect, name: string)
    requires Guarded(p, h, t, w.tokens, Key(id.namespace, name)) && p.gen.pass.CreatingCsr?
    requires CreateCsr(id, p, retryAt) == Some(e)
    ensures Guarded(e.part, h, t, w.tokens, Key(id.namespace, name))
  {
    CsrCreated(w, id, p, retryAt, h, e);
    var token := p.gen.pass.token;
    assert WrittenAt(h, token, Some(|h| - 1));
    assert Cluster(p.qsec[p.gen.pass.v].obj.spec, name);
    assert Latest(e.part.csr).value.request == token;
    forall j | 0 <= j < |t| ensures KeyToken(t[j]) != Some(token) {
    }
  }

  lemma AcknowledgeGuarded(w: World, p: Part, h: seq<Option<StoredSecret>>, t: seq<Option<StoredSecret>>, e: Effect,
                           target: Key)
    requires Guarded(p, h, t, w.tokens, target) && p.gen.pass.Acknowledging?
    requires Acknowledge(w, p) == Some(e)
    ensures Guarded(e.part, h, t, w.tokens, target)
  {
    AcknowledgeTracked(w, p, h, e);
  }

  ghost predicate StaysGuarded(w: World, id: Key, e: Effect, name: string) {
    var target := Key(id.namespace, name);
    Guarded(e.part, After(History(w, KeySecret(id)), e, KeySecret(id)),
            After(History(w, Plain(target)), e, Plain(target)), w.tokens + e.calls, target)
  }

  ghost predicate NowGuarded(w: World, id: Key, p: Part, name: string) {
    Guarded(p, History(w, KeySecret(id)), History(w, Plain(Key(id.namespace, name))), w.tokens,
            Key(id.namespace, name))
  }

  lemma KeyStoreGuarded(p: Part, h: seq<Option<StoredSecret>>, t: seq<Option<StoredSecret>>, result: StoredSecret,
                        owner: Key, o: StoreOutcome, e: Effect, tokens: nat, target: Key)
    requires Guarded(p, h, t, tokens, target) && p.gen.pass.Storing?
    requires KeyToken(Some(result)) == Some(p.gen.pass.token)
    requires StoreEndsAs(o, p, h, KeySecret(owner), result, e)
    ensures Guarded(e.part, After(h, e, KeySecret(owner)), After(t, e, Plain(target)), tokens, target)
  {
    assert Cluster(p.qsec[p.gen.pass.v].obj.spec, target.name);
    if o.WrittenNow? {
      KeyStoredGuarded(p, e.part, h, result, t, tokens, target);
    } else {
      assert WrittenAt(h, p.gen.pass.token, None);
      PassGuarded(p, e.part, h, t, tokens, target);
    }
  }

  lemma StoreGuarded(w: World, id: Key, p: Part, wanted: Mutate.Wanted<Datum>, retryAt: nat, e: Effect, name: string)
    requires NowGuarded(w, id, p, name)
    requires p.gen.pass.Storing? && StoreSecret(w, id, p, wanted, retryAt) == Some(e)
    ensures StaysGuarded(w, id, e, name)
  {
    var Storing(v, token, base) := p.gen.pass;
    var o := StoreOutcomes(w, id, p, wanted, retryAt, e);
    var h := History(w, KeySecret(id));
    assert Cluster(p.qsec[v].obj.spec, name);
    WantedKey(p.qsec[v].obj.spec, token, wanted, h[base]);
    KeyStoreGuarded(p, h, History(w, Plain(Key(id.namespace, name))), Mutate.Result(h[base], wanted), id, o, e,
                    w.tokens, Key(id.namespace, name));
  }

  // The check never finds a user's secret, so the key is always stored.
  lemma CheckGuarded(w: World, id: Key, p: Part, read: Option<nat>, e: Effect, name: string)
    requires NowGuarded(w, id, p, name)
    requires p.gen.pass.Checking? && CheckExisting(w, id, p, read) == Some(e)
    ensures e.part == p.(gen := p.gen.(pass := Loading(p.gen.pass.v, p.gen.pass.token)))
  {
    assert Cluster(p.qsec[p.gen.pass.v].obj.spec, name);
  }

  lemma GenerationGuarded(w: World, id: Key, p: Part, g: GenerationStep, e: Effect, name: string)
    requires NowGuarded(w, id, p, name) && (g.GenProduce? ==> Settled(p))
    requires GenerationNext(w, id, p, g) == Some(e)
    ensures StaysGuarded(w, id, e, name)
  {
    var h, t := History(w, KeySecret(id)), History(w, Plain(Key(id.namespace, name)));
    var target := Key(id.namespace, name);
    if KeepsInHand(g) {
      PassShape(w, id, p, g, e);
      if g.GenCheck? {
        CheckGuarded(w, id, p, g.read, e, name);
      }
      PassGuarded(p, e.part, h, t, w.tokens, target);
    } else {
      match g {
        case GenStore(wanted, retryAt) => StoreGuarded(w, id, p, wanted, retryAt, e, name);
        case GenProduce => ProduceGuarded(w, p, e.part, h, t, p.gen.pass.v, target);
        case GenCreateCsr(retryAt) => CsrCreatedGuarded(w, id, p, retryAt, h, t, e, name);
        case GenAcknowledge => AcknowledgeGuarded(w, p, h, t, e, target);
      }
    }
  }

  // ---- The other controllers ----------------------------------------------

  // A new version of the certificate secret that keeps data and kind.
  lemma TargetSynced(p: Part, p': Part, h: seq<Option<StoredSecret>>, t: seq<Option<StoredSecret>>, s: StoredSecret,
                     tokens: nat, target: Key)
    requires Guarded(p, h, t, tokens, target) && p.qsec <= p'.qsec && SpecsOk(p', target.name)
    requires p'.csr == p.csr && p'.gen.pass == p.gen.pass && p'.sign == p.sign
    requires Last(t).Some? && s.data == Last(t).value.data && IsGeneratedKind(s.labels)
    ensures Guarded(p', h, t + [Some(s)], tokens, target)
  {
    assert KeyToken(Some(s)) == KeyToken(Last(t));
    StillTrackedOutside(p, p', h, tokens);
    assert TargetOk(p', t + [Some(s)], tokens);
  }

  lemma OutsideGuarded(p: Part, p': Part, h: seq<Option<StoredSecret>>, t: seq<Option<StoredSecret>>, tokens: nat,
                       target: Key)
    requires Guarded(p, h, t, tokens, target) && p.qsec <= p'.qsec && SpecsOk(p', target.name)
    requires p'.csr == p.csr && p'.gen.pass == p.gen.pass && p'.sign == p.sign
    ensures Guarded(p', h, t, tokens, target)
  {
    StillTrackedOutside(p, p', h, tokens);
    assert TargetOk(p', t, tokens);
  }

  // The pass stored the certificate with its key, or found it stored.
  lemma CertificateStored(p: Part, p': Part, h: seq<Option<StoredSecret>>, t: seq<Option<StoredSecret>>,
                          base: Option<StoredSecret>, extra: StringMap, written: bool, tokens: nat, target: Key)
    requires Guarded(p, h, t, tokens, target) && p.sign.pass.WritingCert? && base in t
    requires p' == p.(sign := p'.sign) && p'.sign.queue == p.sign.queue
    requires p'.sign.pass == DeletingKey(p.sign.pass.csr)
    requires var pass := p.sign.pass;
             var s := Mutate.CertificateSecret(base, CertificateData(pass.csr, pass.key, extra));
             !written ==> base == Some(s)
    ensures var pass := p.sign.pass;
            var s := Mutate.CertificateSecret(base, CertificateData(pass.csr, pass.key, extra));
            Guarded(p', h, if written then t + [Some(s)] else t, tokens, target)
  {
    var pass := p.sign.pass;
    var s := Mutate.CertificateSecret(base, CertificateData(pass.csr, pass.key, extra));
    assert WrittenAt(h, pass.csr.request, pass.csr.keyVersion);
    CertificateIsPaired(pass.csr, pass.key, extra, base);
    assert KeyToken(Some(s)) == Some(pass.csr.request) && Paired(s) && IsGeneratedKind(s.labels);
    assert !Settled(p);
    CsrStepTracked(p, p', h, tokens);
    assert TargetOk(p', if written then t + [Some(s)] else t, tokens);
  }

  lemma KeyDeletedGuarded(p: Part, p': Part, h: seq<Option<StoredSecret>>, t: seq<Option<StoredSecret>>, tokens: nat,
                          target: Key)
    requires Guarded(p, h, t, tokens, target) && p.sign.pass.DeletingKey?
    requires p' == p.(sign := p.sign.(pass := DeletingCsr(p.sign.pass.csr)))
    ensures Guarded(p', h + [None], t, tokens, target)
  {
    KeyDeleted(p, p', h, tokens);
    assert TargetOk(p', t, tokens);
  }

  // Every other step of the CSR controller and the signer.
  lemma RequestStepGuarded(p: Part, p': Part, h: seq<Option<StoredSecret>>, t: seq<Option<StoredSecret>>, tokens: nat,
                           target: Key)
    requires Guarded(p, h, t, tokens, target) && p' == p.(sign := p'.sign, csr := p'.csr)
    requires CsrMoves(p.csr, p'.csr) && CsrPassMoves(p, p'.sign.pass, h)
    requires p.sign.queue.seen <= p'.sign.queue.seen <= |p'.csr| && (Settled(p) ==> Settled(p'))
    requires p'.csr != p.csr && Last(p'.csr).None? ==> p.sign.pass.DeletingCsr? && p'.sign.pass.CsrIdle?
    requires p'.sign.pass.LoadingCert? && p'.sign.pass != p.sign.pass ==>
               var version := p.sign.pass.csr.keyVersion;
               version.Some? ==> version.value <= p'.sign.pass.keyVersion
    requires p'.sign.pass.DeletingKey? || p'.sign.pass.DeletingCsr? ==> p'.sign.pass == p.sign.pass
    ensures Guarded(p', h, t, tokens, target)
  {
    CsrStepTracked(p, p', h, tokens);
    LatestMoves(p.csr, p'.csr);
    forall i: nat | Readable(p'.sign.queue, p'.csr, i) && p'.csr[i].Some?
      ensures Known(p'.csr[i].value, p', h, target)
    {
      var seenAs := if i < |p.csr| then i else |p.csr| - 1;
      assert Readable(p.sign.queue, p.csr, seenAs);
      assert Known(p.csr[seenAs].value, p, h, target);
    }
    assert TargetOk(p', t, tokens);
  }

  lemma LatestMoves(o: seq<Option<Csr>>, n: seq<Option<Csr>>)
    requires |o| > 0 && CsrMoves(o, n)
    ensures Latest(n).Some? == Latest(o).Some?
    ensures Latest(o).Some? ==> Latest(n).value.request == Latest(o).value.request
  {
    assert n != o ==> n[..|n| - 1] == o;
  }

  lemma CertificateStepGuarded(w: World, id: Key, p: Part, s: CsrStep, e: Effect, name: string)
    requires NowGuarded(w, id, p, name) && CsrNext(w, id, p, s) == Some(e) && s.CsrStore?
    requires !e.part.sign.pass.CsrIdle?
    ensures StaysGuarded(w, id, e, name)
  {
    var target := Key(id.namespace, name);
    var h, t, pass := History(w, KeySecret(id)), History(w, Plain(target)), p.sign.pass;
    CsrShape(w, id, p, s, e);
    CertificateWriteShape(w, id, p, s, e);
    assert pass.csr.target == target;
    CertificateStored(p, e.part, h, t, t[pass.base], s.extra, e.write.Some?, w.tokens, target);
  }

  lemma SigningGuarded(w: World, id: Key, p: Part, s: CsrStep, e: Effect, name: string)
    requires NowGuarded(w, id, p, name) && CsrNext(w, id, p, s) == Some(e)
    requires CarefulStep(w.parts, id, Sign(s), name) && id in w.parts && w.parts[id] == p
    ensures StaysGuarded(w, id, e, name)
  {
    var target := Key(id.namespace, name);
    var h, t := History(w, KeySecret(id)), History(w, Plain(target));
    CsrShape(w, id, p, s, e);
    if s.CsrStore? && !e.part.sign.pass.CsrIdle? {
      CertificateStepGuarded(w, id, p, s, e, name);
    } else if s.CsrDeleteKey? && e.write.Some? {
      KeyDeletionShape(w, id, p, s, e);
      KeyDeletedGuarded(p, e.part, h, t, w.tokens, target);
    } else {
      if s.CsrStore? {
        CertificateWriteShape(w, id, p, s, e);
      }
      if Settled(p) {
        SettledStays(w, id, p, s, e);
      }
      CsrDeletingShape(w, id, p, s, e);
      RequestStepGuarded(p, e.part, h, t, w.tokens, target);
    }
  }

  lemma CsrDeletingShape(w: World, id: Key, p: Part, s: CsrStep, e: Effect)
    requires |p.csr| > 0 && CsrNext(w, id, p, s) == Some(e)
    requires e.part.sign.pass.CsrIdle? || !(s.CsrStore? || (s.CsrDeleteKey? && e.write.Some?))
    ensures e.part.sign.pass.DeletingKey? || e.part.sign.pass.DeletingCsr? ==> e.part.sign.pass == p.sign.pass
  {
  }

  lemma MetadataGuarded(w: World, id: Key, p: Part, m: MetadataStep, e: Effect, name: string)
    requires NowGuarded(w, id, p, name) && MetadataNext(w, id, p, m) == Some(e)
    ensures StaysGuarded(w, id, e, name)
  {
    var target := Key(id.namespace, name);
    var h, t := History(w, KeySecret(id)), History(w, Plain(target));
    MetadataEffect(w, id, p, m, e);
    if e.write.Some? {
      MetadataWriteShape(w, id, p, m, e);
      assert Cluster(p.qsec[p.meta.pass.v].obj.spec, name);
      TargetSynced(p, e.part, h, t, e.write.value.content.value, w.tokens, target);
    } else {
      OutsideGuarded(p, e.part, h, t, w.tokens, target);
    }
  }

  lemma OthersGuarded(w: World, id: Key, p: Part, step: Step, e: Effect, name: string)
    requires NowGuarded(w, id, p, name) && PartNext(w, id, p, step) == Some(e)
    requires !step.Generate? && !step.Sign? && !step.SyncMetadata?
    requires step.EditSpec? ==> Cluster(step.spec, name)
    ensures StaysGuarded(w, id, e, name)
  {
    var target := Key(id.namespace, name);
    OutsideEffect(w, id, p, step, e);
    if step.Copy? {
      CopyEffect(w, id, p, step.c, e);
    }
    OutsideGuarded(p, e.part, History(w, KeySecret(id)), History(w, Plain(target)), w.tokens, target);
  }

  lemma StepGuarded(w: World, id: Key, step: Step, e: Effect, name: string)
    requires id in w.parts && NowGuarded(w, id, w.parts[id], name)
    requires PartNext(w, id, w.parts[id], step) == Some(e) && CarefulStep(w.parts, id, step, name)
    ensures StaysGuarded(w, id, e, name)
  {
    match step {
      case Generate(g) => GenerationGuarded(w, id, w.parts[id], g, e, name);
      case Sign(s) => SigningGuarded(w, id, w.parts[id], s, e, name);
      case SyncMetadata(m) => MetadataGuarded(w, id, w.parts[id], m, e, name);
      case _ => OthersGuarded(w, id, w.parts[id], step, e, name);
    }
  }

  // ---- Runs -----------------------------------------------------------------

  ghost predicate WorldGuarded(w: World, id: Key, name: string) {
    if id in w.parts then NowGuarded(w, id, w.parts[id], name)
    else History(w, KeySecret(id)) == [None] && History(w, Plain(Key(id.namespace, name))) == [None]
  }

  lemma MoreCallsGuarded(p: Part, h: seq<Option<StoredSecret>>, t: seq<Option<StoredSecret>>, tokens: nat, more: nat,
                         target: Key)
    requires Guarded(p, h, t, tokens, target) && tokens <= more
    ensures Guarded(p, h, t, more, target)
  {
    MoreCallsTracked(p, h, tokens, more);
  }

  lemma NewPartGuarded(annotations: StringMap, spec: Spec, tokens: nat, target: Key)
    requires Cluster(spec, target.name)
    ensures Guarded(NewPart(annotations, spec, tokens), [None], [None], tokens, target)
  {
    NewPartTracked(annotations, spec, tokens);
  }

  lemma AppliedGuarded(w: World, id: Key, e: Effect, name: string)
    requires StaysGuarded(w, id, e, name)
    ensures WorldGuarded(Apply(w, id, e), id, name)
  {
    HistoryAfter(w, id, e, KeySecret(id));
    HistoryAfter(w, id, e, Plain(Key(id.namespace, name)));
  }

  lemma OwnStepGuarded(w: World, id: Key, step: Step, w': World, name: string)
    requires WorldGuarded(w, id, name) && Next(w, On(id, step)) == Some(w') && CarefulStep(w.parts, id, step, name)
    ensures WorldGuarded(w', id, name)
  {
    var e := PartNext(w, id, w.parts[id], step).value;
    StepGuarded(w, id, step, e, name);
    AppliedGuarded(w, id, e, name);
  }

  lemma FrameGuarded(w: World, w': World, id: Key, name: string)
    requires WorldGuarded(w, id, name) && w.tokens <= w'.tokens
    requires (id in w.parts <==> id in w'.parts) && (id in w.parts ==> w'.parts[id] == w.parts[id])
    requires History(w', KeySecret(id)) == History(w, KeySecret(id))
    requires History(w', Plain(Key(id.namespace, name))) == History(w, Plain(Key(id.namespace, name)))
    ensures WorldGuarded(w', id, name)
  {
    if id in w.parts {
      MoreCallsGuarded(w.parts[id], History(w, KeySecret(id)), History(w, Plain(Key(id.namespace, name))), w.tokens,
                       w'.tokens, Key(id.namespace, name));
    }
  }

  lemma ActionGuarded(w: World, a: Action, w': World, id: Key, name: string)
    requires WorldGuarded(w, id, name) && Next(w, a) == Some(w') && Careful(w, a, w', id, name)
    ensures WorldGuarded(w', id, name)
  {
    if a.On? && a.id == id {
      OwnStepGuarded(w, id, a.step, w', name);
    } else if a.CreateQuarksSecret? && a.id == id {
      NewPartGuarded(a.annotations, a.spec, w.tokens, Key(id.namespace, name));
    } else {
      OthersLeaveAlone(w, a, w', id);
      FrameGuarded(w, w', id, name);
    }
  }

  lemma {:induction false} GuardedAlongRun(run: seq<World>, acts: seq<Action>, i: nat, id: Key, name: string)
    requires IsRun(run, acts) && Initial(run[0]) && i < |run|
    requires forall j :: 0 <= j < |acts| ==> Careful(run[j], acts[j], run[j + 1], id, name)
    ensures WorldGuarded(run[i], id, name)
  {
    if i > 0 {
      GuardedAlongRun(run, acts, i - 1, id, name);
      assert Next(run[i - 1], acts[i - 1]) == Some(run[i]);
      assert Careful(run[i - 1], acts[i - 1], run[i - 1 + 1], id, name);
      ActionGuarded(run[i - 1], acts[i - 1], run[i], id, name);
    }
  }

  // Every version of the certificate secret that was ever stored holds the
  // private key whose request its certificate signs.
  lemma CertificatesArePaired(run: seq<World>, acts: seq<Action>, i: nat, id: Key, name: string, j: nat)
    requires IsRun(run, acts) && Initial(run[0]) && i < |run|
    requires forall j :: 0 <= j < |acts| ==> Careful(run[j], acts[j], run[j + 1], id, name)
    requires j < |History(run[i], Plain(Key(id.namespace, name)))|
    ensures var s := History(run[i], Plain(Key(id.namespace, name)))[j];
            s.Some? && "certificate" in s.value.data && s.value.data["certificate"].Signed? ==> Paired(s.value)
  {
    GuardedAlongRun(run, acts, i, id, name);
  }

  // Whatever fails between two calls: from the creation of a request on, until
  // the next one is created, its private key is stored.
  lemma KeyIsNeverLost(run: seq<World>, acts: seq<Action>, i: nat, id: Key, name: string)
    requires IsRun(run, acts) && Initial(run[0]) && i < |run| && id in run[i].parts
    requires forall j :: 0 <= j < |acts| ==> Careful(run[j], acts[j], run[j + 1], id, name)
    ensures var request := Latest(run[i].parts[id].csr);
            request.Some? ==>
              || KeyToken(Current(run[i], KeySecret(id))) == Some(request.value.request)
              || KeyToken(Current(run[i], Plain(Key(id.namespace, name)))) == Some(request.value.request)
  {
    GuardedAlongRun(run, acts, i, id, name);
  }
}
