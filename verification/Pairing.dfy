// When the certificate and the private key of a cluster-signed secret belong
// together: exactly when the CSR pass read the version of the key secret that
// the generation pass wrote before it created the request.
module Pairing {
  import opened Types
  import opened Operator
  import opened Effects
  import Mutate

  // The generator call whose private key this secret holds.
  function KeyToken(s: Option<StoredSecret>): Option<nat> {
    if s.Some? && "private_key" in s.value.data then
      var d := s.value.data["private_key"];
      if d.Made? && d.part == "private_key" then Some(d.token) else None
    else None
  }

  // The certificate signs the request that was made from the private key.
  predicate Paired(s: StoredSecret) {
    "certificate" in s.data && s.data["certificate"].Signed?
    && KeyToken(Some(s)) == Some(s.data["certificate"].request)
  }

  // Version `at` of the key secret, and no other, holds this call's key.
  ghost predicate WrittenAt(h: seq<Option<StoredSecret>>, token: nat, at: Option<nat>) {
    && (at.Some? ==> at.value < |h|)
    && forall j :: 0 <= j < |h| ==> (KeyToken(h[j]) == Some(token) <==> at == Some(j))
  }

  ghost predicate CsrTracked(c: Csr, h: seq<Option<StoredSecret>>, limit: nat) {
    && c.request < limit && WrittenAt(h, c.request, c.keyVersion)
    && (c.certificate.Some? ==> c.certificate.value == c.request)
  }

  // The call whose key and request the running pass has not stored yet.
  function InHand(pass: GenerationPass): Option<nat> {
    match pass
    case Checking(_, t) => Some(t)
    case Loading(_, t) => Some(t)
    case Storing(_, t, _) => Some(t)
    case ReadingCsr(_, t, _) => Some(t)
    case CreatingCsr(_, t, _) => Some(t)
    case _ => None
  }

  function WroteVersion(pass: GenerationPass): Option<nat> {
    if pass.ReadingCsr? || pass.CreatingCsr? then pass.wrote else None
  }

  ghost predicate GenTracked(p: Part, h: seq<Option<StoredSecret>>, tokens: nat) {
    var v, t := ReadBy(p.gen.pass), InHand(p.gen.pass);
    && (v.Some? ==> v.value < |p.qsec|)
    && (t.Some? ==> t.value < tokens && Producible(p.qsec[v.value].obj.spec)
                    && WrittenAt(h, t.value, WroteVersion(p.gen.pass)))
  }

  // Every request is older than the call in hand.
  function Limit(p: Part, tokens: nat): nat {
    InHand(p.gen.pass).GetOr(tokens)
  }

  ghost predicate SignTracked(p: Part, h: seq<Option<StoredSecret>>, limit: nat) {
    var pass := p.sign.pass;
    && (pass.AwaitingKey? || pass.LoadingCert? || pass.WritingCert? ==>
          CsrTracked(pass.csr, h, limit) && pass.csr.certificate.Some?)
    && (pass.LoadingCert? || pass.WritingCert? ==>
          pass.keyVersion < |h| && h[pass.keyVersion] == Some(pass.key))
  }

  ghost predicate Tracked(p: Part, h: seq<Option<StoredSecret>>, tokens: nat) {
    && |p.qsec| > 0 && |p.csr| > 0
    && (forall j :: 0 <= j < |h| && KeyToken(h[j]).Some? ==> KeyToken(h[j]).value < tokens)
    && (forall i :: 0 <= i < |p.csr| && p.csr[i].Some? ==> CsrTracked(p.csr[i].value, h, Limit(p, tokens)))
    && GenTracked(p, h, tokens) && SignTracked(p, h, Limit(p, tokens))
  }

  // ---- The key secret grows ----------------------------------------------

  lemma StillTracked(c: Csr, h: seq<Option<StoredSecret>>, x: Option<StoredSecret>, limit: nat)
    requires CsrTracked(c, h, limit) && KeyToken(x) != Some(c.request)
    ensures CsrTracked(c, h + [x], limit)
  {
    var h' := h + [x];
    forall j | 0 <= j < |h'| ensures KeyToken(h'[j]) == Some(c.request) <==> c.keyVersion == Some(j) {
      if j < |h| {
        assert h'[j] == h[j];
      }
    }
  }

  // A version that holds no request's key, or the key in hand, disturbs no request.
  lemma RequestsStillTracked(p: Part, h: seq<Option<StoredSecret>>, x: Option<StoredSecret>, tokens: nat)
    requires Tracked(p, h, tokens)
    requires KeyToken(x) == None || KeyToken(x) == InHand(p.gen.pass)
    ensures forall i :: 0 <= i < |p.csr| && p.csr[i].Some? ==>
              CsrTracked(p.csr[i].value, h + [x], Limit(p, tokens))
    ensures SignTracked(p, h + [x], Limit(p, tokens))
  {
    forall i | 0 <= i < |p.csr| && p.csr[i].Some?
      ensures CsrTracked(p.csr[i].value, h + [x], Limit(p, tokens))
    {
      StillTracked(p.csr[i].value, h, x, Limit(p, tokens));
    }
    var pass := p.sign.pass;
    if pass.AwaitingKey? || pass.LoadingCert? || pass.WritingCert? {
      StillTracked(pass.csr, h, x, Limit(p, tokens));
    }
  }

  lemma WantedKey(spec: Spec, token: nat, wanted: Mutate.Wanted<Datum>, base: Option<StoredSecret>)
    requires IsWanted(spec, token, wanted)
    requires ClusterSigned(spec) && Producible(spec)
    ensures KeyToken(Some(Mutate.Result(base, wanted))) == Some(token)
  {
    assert spec.secretType == Certificate && "private_key" in GeneratedEntries(spec);
  }

  lemma KeyWritten(p: Part, p': Part, h: seq<Option<StoredSecret>>, s: StoredSecret, tokens: nat)
    requires Tracked(p, h, tokens) && p.gen.pass.Storing?
    requires KeyToken(Some(s)) == Some(p.gen.pass.token)
    requires p' == p.(gen := p.gen.(pass := ReadingCsr(p.gen.pass.v, p.gen.pass.token, Some(|h|))))
    ensures Tracked(p', h + [Some(s)], tokens)
  {
    RequestsStillTracked(p, h, Some(s), tokens);
  }

  lemma KeyDeleted(p: Part, p': Part, h: seq<Option<StoredSecret>>, tokens: nat)
    requires Tracked(p, h, tokens)
    requires p' == p.(sign := p'.sign) && p'.sign.pass.DeletingCsr?
    ensures Tracked(p', h + [None], tokens)
  {
    RequestsStillTracked(p, h, None, tokens);
    var t, h' := InHand(p.gen.pass), h + [None];
    if t.Some? {
      var wrote := WroteVersion(p.gen.pass);
      forall j | 0 <= j < |h'| ensures KeyToken(h'[j]) == t <==> wrote == Some(j) {
        if j < |h| {
          assert h'[j] == h[j];
        }
      }
      assert WrittenAt(h', t.value, wrote);
    }
  }

  // ---- Steps --------------------------------------------------------------

  ghost predicate StaysTracked(w: World, id: Key, e: Effect) {
    Tracked(e.part, After(History(w, KeySecret(id)), e, KeySecret(id)), w.tokens + e.calls)
  }

  // The pass gives up its call or keeps it in hand as it was.
  lemma PassMoves(p: Part, p': Part, h: seq<Option<StoredSecret>>, tokens: nat)
    requires Tracked(p, h, tokens) && p' == p.(gen := p'.gen)
    requires var v := ReadBy(p'.gen.pass); v.Some? ==> v.value < |p.qsec|
    requires InHand(p'.gen.pass).Some? ==>
               && InHand(p'.gen.pass) == InHand(p.gen.pass) && ReadBy(p'.gen.pass) == ReadBy(p.gen.pass)
               && WroteVersion(p'.gen.pass) == WroteVersion(p.gen.pass)
    ensures Tracked(p', h, tokens)
  {
  }

  lemma KeyStored(p: Part, h: seq<Option<StoredSecret>>, result: StoredSecret, owner: Key, o: StoreOutcome,
                  e: Effect, tokens: nat)
    requires Tracked(p, h, tokens) && p.gen.pass.Storing? && p.gen.pass.v < |p.qsec|
    requires ClusterSigned(p.qsec[p.gen.pass.v].obj.spec)
    requires KeyToken(Some(result)) == Some(p.gen.pass.token)
    requires StoreEndsAs(o, p, h, KeySecret(owner), result, e)
    ensures Tracked(e.part, After(h, e, KeySecret(owner)), tokens)
  {
    if o.WrittenNow? {
      KeyWritten(p, e.part, h, result, tokens);
    } else {
      assert WrittenAt(h, p.gen.pass.token, None);
      PassMoves(p, e.part, h, tokens);
    }
  }

  // The secret of another type is not the key secret.
  lemma StoredElsewhere(p: Part, h: seq<Option<StoredSecret>>, t: seq<Option<StoredSecret>>, result: StoredSecret,
                        name: SecretName, owner: Key, o: StoreOutcome, e: Effect, tokens: nat)
    requires Tracked(p, h, tokens) && p.gen.pass.Storing? && p.gen.pass.v < |p.qsec|
    requires !ClusterSigned(p.qsec[p.gen.pass.v].obj.spec) && name.Plain?
    requires StoreEndsAs(o, p, t, name, result, e)
    ensures Tracked(e.part, After(h, e, KeySecret(owner)), tokens)
  {
    PassMoves(p, e.part, h, tokens);
  }

  lemma StoreTracked(w: World, id: Key, p: Part, wanted: Mutate.Wanted<Datum>, retryAt: nat, e: Effect)
    requires Tracked(p, History(w, KeySecret(id)), w.tokens)
    requires p.gen.pass.Storing? && StoreSecret(w, id, p, wanted, retryAt) == Some(e)
    ensures StaysTracked(w, id, e)
  {
    var Storing(v, token, base) := p.gen.pass;
    var spec := p.qsec[v].obj.spec;
    var o := StoreOutcomes(w, id, p, wanted, retryAt, e);
    var h := History(w, KeySecret(id));
    if ClusterSigned(spec) {
      WantedKey(spec, token, wanted, h[base]);
      KeyStored(p, h, Mutate.Result(h[base], wanted), id, o, e, w.tokens);
    } else {
      var t := History(w, Target(id, spec));
      StoredElsewhere(p, h, t, Mutate.Result(t[base], wanted), Target(id, spec), id, o, e, w.tokens);
    }
  }

  lemma ProduceTracked(w: World, p: Part, h: seq<Option<StoredSecret>>, v: nat, p': Part)
    requires Tracked(p, h, w.tokens) && p.gen.pass == Resolving(v) && Producible(p.qsec[v].obj.spec)
    requires p' == p.(gen := p.gen.(pass := Checking(v, w.tokens)))
    ensures Tracked(p', h, w.tokens + 1)
  {
  }

  lemma CsrCreated(w: World, id: Key, p: Part, retryAt: nat, h: seq<Option<StoredSecret>>, e: Effect)
    requires Tracked(p, h, w.tokens) && p.gen.pass.CreatingCsr?
    requires CreateCsr(id, p, retryAt) == Some(e)
    ensures Tracked(e.part, h, w.tokens)
  {
  }

  predicate KeepsInHand(g: GenerationStep) {
    !g.GenStore? && !g.GenProduce? && !g.GenCreateCsr? && !g.GenAcknowledge?
  }

  lemma PassShape(w: World, id: Key, p: Part, g: GenerationStep, e: Effect)
    requires |p.qsec| > 0 && |p.csr| > 0 && KeepsInHand(g) && GenerationNext(w, id, p, g) == Some(e)
    requires var v := ReadBy(p.gen.pass); v.Some? ==> v.value < |p.qsec|
    ensures e.write == None && e.calls == 0 && e.part == p.(gen := e.part.gen)
    ensures var v := ReadBy(e.part.gen.pass); v.Some? ==> v.value < |p.qsec|
    ensures InHand(e.part.gen.pass).Some? ==>
              && InHand(e.part.gen.pass) == InHand(p.gen.pass) && ReadBy(e.part.gen.pass) == ReadBy(p.gen.pass)
              && WroteVersion(e.part.gen.pass) == WroteVersion(p.gen.pass)
  {
  }

  lemma GenerationTracked(w: World, id: Key, p: Part, g: GenerationStep, e: Effect)
    requires Tracked(p, History(w, KeySecret(id)), w.tokens)
    requires GenerationNext(w, id, p, g) == Some(e)
    ensures StaysTracked(w, id, e)
  {
    var h := History(w, KeySecret(id));
    if KeepsInHand(g) {
      PassShape(w, id, p, g, e);
      PassMoves(p, e.part, h, w.tokens);
    } else {
      match g {
        case GenStore(wanted, retryAt) => StoreTracked(w, id, p, wanted, retryAt, e);
        case GenProduce => ProduceTracked(w, p, h, p.gen.pass.v, e.part);
        case GenCreateCsr(retryAt) => CsrCreated(w, id, p, retryAt, h, e);
        case GenAcknowledge => AcknowledgeTracked(w, p, h, e);
      }
    }
  }

  lemma AcknowledgeTracked(w: World, p: Part, h: seq<Option<StoredSecret>>, e: Effect)
    requires Tracked(p, h, w.tokens) && p.gen.pass.Acknowledging? && Acknowledge(w, p) == Some(e)
    ensures e.write == None && e.calls == 0 && Tracked(e.part, h, w.tokens)
  {
  }

  // Nothing the tracking looks at has changed, or a pass ended.
  lemma StillTrackedOutside(p: Part, p': Part, h: seq<Option<StoredSecret>>, tokens: nat)
    requires Tracked(p, h, tokens)
    requires p.qsec <= p'.qsec && p'.csr == p.csr && p'.gen.pass == p.gen.pass && p'.sign.pass == p.sign.pass
    ensures Tracked(p', h, tokens)
  {
  }

  lemma CsrStepTracked(p: Part, p': Part, h: seq<Option<StoredSecret>>, tokens: nat)
    requires Tracked(p, h, tokens) && p' == p.(sign := p'.sign, csr := p'.csr)
    requires CsrMoves(p.csr, p'.csr) && CsrPassMoves(p, p'.sign.pass, h)
    ensures Tracked(p', h, tokens)
  {
    forall i | 0 <= i < |p'.csr| && p'.csr[i].Some?
      ensures CsrTracked(p'.csr[i].value, h, Limit(p, tokens))
    {
      if i == |p.csr| {
        assert CsrTracked(Last(p.csr).value, h, Limit(p, tokens));
      }
    }
  }

  lemma SigningTracked(w: World, id: Key, p: Part, s: CsrStep, e: Effect)
    requires Tracked(p, History(w, KeySecret(id)), w.tokens)
    requires CsrNext(w, id, p, s) == Some(e)
    ensures StaysTracked(w, id, e)
  {
    var h := History(w, KeySecret(id));
    CsrShape(w, id, p, s, e);
    if s.CsrDeleteKey? && e.write.Some? {
      KeyDeleted(p, e.part, h, w.tokens);
    } else {
      CsrStepTracked(p, e.part, h, w.tokens);
    }
  }

  lemma OutsideTracked(w: World, id: Key, p: Part, step: Step, e: Effect)
    requires Tracked(p, History(w, KeySecret(id)), w.tokens)
    requires !step.Generate? && !step.Sign? && PartNext(w, id, p, step) == Some(e)
    ensures StaysTracked(w, id, e)
  {
    OutsideEffect(w, id, p, step, e);
    StillTrackedOutside(p, e.part, History(w, KeySecret(id)), w.tokens);
  }

  lemma StepTracked(w: World, id: Key, p: Part, step: Step, e: Effect)
    requires Tracked(p, History(w, KeySecret(id)), w.tokens)
    requires PartNext(w, id, p, step) == Some(e)
    ensures StaysTracked(w, id, e)
  {
    match step {
      case Generate(g) => GenerationTracked(w, id, p, g, e);
      case Sign(s) => SigningTracked(w, id, p, s, e);
      case _ => OutsideTracked(w, id, p, step, e);
    }
  }

  ghost predicate WorldTracked(w: World, id: Key) {
    var h := History(w, KeySecret(id));
    if id in w.parts then Tracked(w.parts[id], h, w.tokens) else h == [None]
  }

  lemma MoreCallsTracked(p: Part, h: seq<Option<StoredSecret>>, tokens: nat, more: nat)
    requires Tracked(p, h, tokens) && tokens <= more
    ensures Tracked(p, h, more)
  {
  }

  lemma NewPartTracked(annotations: StringMap, spec: Spec, tokens: nat)
    ensures Tracked(NewPart(annotations, spec, tokens), [None], tokens)
  {
  }

  lemma ActionTracked(w: World, a: Action, w': World, id: Key)
    requires WorldTracked(w, id) && Next(w, a) == Some(w')
    ensures WorldTracked(w', id)
  {
    var h := History(w, KeySecret(id));
    match a {
      case On(other, step) =>
        var e := PartNext(w, other, w.parts[other], step).value;
        HistoryAfter(w, other, e, KeySecret(id));
        if other == id {
          StepTracked(w, id, w.parts[id], step, e);
        } else {
          KeySecretHasOneOwner(w, other, step, e, id);
          if id in w.parts {
            MoreCallsTracked(w.parts[id], h, w.tokens, w'.tokens);
          }
        }
      case CreateQuarksSecret(other, annotations, spec) =>
        NewPartTracked(annotations, spec, w.tokens);
      case _ =>
    }
  }

  lemma {:induction false} TrackedAlongRun(run: seq<World>, acts: seq<Action>, i: nat, id: Key)
    requires IsRun(run, acts) && Initial(run[0]) && i < |run|
    ensures WorldTracked(run[i], id)
  {
    if i > 0 {
      TrackedAlongRun(run, acts, i - 1, id);
      assert Next(run[i - 1], acts[i - 1]) == Some(run[i]);
      ActionTracked(run[i - 1], acts[i - 1], run[i], id);
    }
  }

  lemma CertificateIsPaired(c: Csr, key: StoredSecret, extra: StringMap, stored: Option<StoredSecret>)
    requires c.certificate == Some(c.request)
    ensures var s := Mutate.CertificateSecret(stored, CertificateData(c, key, extra));
            && KeyToken(Some(s)) == KeyToken(Some(key))
            && (Paired(s) <==> KeyToken(Some(key)) == Some(c.request))
  {
  }

  // In every state of every run: the certificate secret that a CSR pass is
  // about to write holds a certificate and a private key that belong together
  // if and only if the pass read the very version of the key secret that the
  // generation pass wrote before it created the request.
  lemma PairedExactlyWhen(run: seq<World>, acts: seq<Action>, i: nat, id: Key, extra: StringMap,
                          stored: Option<StoredSecret>)
    requires IsRun(run, acts) && Initial(run[0]) && i < |run| && id in run[i].parts
    requires run[i].parts[id].sign.pass.WritingCert?
    ensures var pass := run[i].parts[id].sign.pass;
            Paired(Mutate.CertificateSecret(stored, CertificateData(pass.csr, pass.key, extra)))
            <==> pass.csr.keyVersion == Some(pass.keyVersion)
  {
    TrackedAlongRun(run, acts, i, id);
    var pass := run[i].parts[id].sign.pass;
    CertificateIsPaired(pass.csr, pass.key, extra, stored);
  }

  predicate KeyStoredSomewhere(w: World, id: Key, c: Csr) {
    KeyToken(Current(w, KeySecret(id))) == Some(c.request) || KeyToken(Current(w, Plain(c.target))) == Some(c.request)
  }

  // The step of a hand-over that deletes the key secret.
  lemma DeleteKeyStep(w: World, id: Key, retryAt: nat, target: Key, w': World)
    requires Next(w, On(id, Sign(CsrDeleteKey(retryAt)))) == Some(w')
    requires id in w'.parts && w'.parts[id].sign.pass.DeletingCsr?
    ensures w.parts[id].sign.pass.DeletingKey?
    ensures Current(w', KeySecret(id)) == None && Current(w', Plain(target)) == Current(w, Plain(target))
  {
    var e := PartNext(w, id, w.parts[id], Sign(CsrDeleteKey(retryAt))).value;
    HistoryAfter(w, id, e, Plain(target));
    HistoryAfter(w, id, e, KeySecret(id));
  }

  // The certificate secret holds what a pass for this request stores, whatever its
  // labels are.
  predicate InPlace(w: World, c: Csr, key: StoredSecret, extra: StringMap) {
    var s := Current(w, Plain(c.target));
    s.Some? && s.value.data == CertificateData(c, key, extra)
  }

  // In every run: a pass has the certificate to write at time i, and at time j it
  // deletes the key secret. With what it had to write still in place, whatever else
  // went on in between, the key of the request is kept if and only if the pass read
  // the version of the key secret that was written for the request.
  lemma KeyKeptExactlyWhen(run: seq<World>, acts: seq<Action>, i: nat, j: nat, id: Key, c: Csr, key: StoredSecret,
                           keyVersion: nat, base: nat, extra: StringMap, retryAt: nat)
    requires IsRun(run, acts) && Initial(run[0]) && i < j < |acts| && id in run[i].parts
    requires run[i].parts[id].sign.pass == WritingCert(c, key, keyVersion, base)
    requires acts[j] == On(id, Sign(CsrDeleteKey(retryAt))) && InPlace(run[j], c, key, extra)
    requires id in run[j + 1].parts && run[j + 1].parts[id].sign.pass == DeletingCsr(c)
    ensures KeyStoredSomewhere(run[j + 1], id, c) <==> c.keyVersion == Some(keyVersion)
  {
    assert Next(run[j], acts[j]) == Some(run[j + 1]);
    DeleteKeyStep(run[j], id, retryAt, c.target, run[j + 1]);
    PairedExactlyWhen(run, acts, i, id, extra, None);
    TrackedAlongRun(run, acts, i, id);
    CertificateIsPaired(c, key, extra, None);
  }
}
