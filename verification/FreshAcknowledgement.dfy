// A quarks secret is acknowledged as generated again only after its secret
// holds values from a generator call made after the rotation.
module FreshAcknowledgement {
  import opened Types
  import opened Operator
  import opened Effects
  import Mutate

  // The run concerns a locally produced secret with a fixed name that nothing
  // but this quarks secret writes.
  ghost predicate OwnsItsName(w: World, a: Action, w': World, id: Key, name: string) {
    var secret := Plain(Key(id.namespace, name));
    match a
    case On(other, step) =>
      if other == id then step.EditSpec? ==> Local(step.spec, name)
      else History(w', secret) == History(w, secret)
    case CreateQuarksSecret(other, _, spec) => other == id ==> Local(spec, name)
    case _ => History(w', secret) == History(w, secret)
  }

  predicate Local(spec: Spec, name: string) {
    spec.secretName == name && !ClusterSigned(spec)
  }

  predicate Holds(s: StoredSecret, token: nat) {
    exists k :: k in s.data && s.data[k].Made? && s.data[k].token == token
  }

  // Every generated entry comes from this generator call.
  predicate Fresh(s: Option<StoredSecret>, spec: Spec, token: nat) {
    forall k :: k in GeneratedEntries(spec) ==>
      s.Some? && k in s.value.data && s.value.data[k] == Made(token, k)
  }

  ghost predicate VersionsInOrder(p: Part, name: string, tokens: nat) {
    && |p.qsec| > 0 && p.csr == [None] && (p.sign.pass.CsrIdle? || p.sign.pass.CsrFetching?)
    && (forall i :: 0 <= i < |p.qsec| ==> Local(p.qsec[i].obj.spec, name) && p.qsec[i].stamp <= tokens)
    && (forall i, j :: 0 <= i < j < |p.qsec| ==> p.qsec[i].stamp <= p.qsec[j].stamp)
  }

  ghost predicate SecretsKnown(h: seq<Option<StoredSecret>>, tokens: nat) {
    forall i :: 0 <= i < |h| && h[i].Some? ==>
      IsGeneratedKind(h[i].value.labels) && forall t: nat :: Holds(h[i].value, t) ==> t < tokens
  }

  ghost predicate Unwritten(h: seq<Option<StoredSecret>>, token: nat) {
    forall i :: 0 <= i < |h| && h[i].Some? ==> !Holds(h[i].value, token)
  }

  ghost predicate PassInOrder(p: Part, h: seq<Option<StoredSecret>>, tokens: nat)
    requires |h| > 0
  {
    match p.gen.pass
    case GenIdle => true
    case GenFetching => true
    case Resolving(v) => v < |p.qsec|
    case Checking(v, t) => v < |p.qsec| && p.qsec[v].stamp <= t < tokens && Unwritten(h, t)
    case Loading(v, t) => v < |p.qsec| && p.qsec[v].stamp <= t < tokens && Unwritten(h, t)
    case Storing(v, t, _) => v < |p.qsec| && p.qsec[v].stamp <= t < tokens && Unwritten(h, t)
    case ReadingCsr(_, _, _) => false
    case CreatingCsr(_, _, _) => false
    case Acknowledging(v, t) =>
      v < |p.qsec| && p.qsec[v].stamp <= t < tokens && Fresh(Last(h), p.qsec[v].obj.spec, t)
  }

  ghost predicate InOrder(p: Part, h: seq<Option<StoredSecret>>, tokens: nat, name: string)
    requires |h| > 0
  {
    VersionsInOrder(p, name, tokens) && SecretsKnown(h, tokens) && PassInOrder(p, h, tokens)
  }

  lemma WantedIsMade(spec: Spec, token: nat, wanted: Mutate.Wanted<Datum>, base: Option<StoredSecret>)
    requires IsWanted(spec, token, wanted)
    ensures var r := Mutate.Result(base, wanted);
            && IsGeneratedKind(r.labels) && Fresh(Some(r), spec, token)
            && forall t: nat :: Holds(r, t) ==> t == token || (base.Some? && Holds(base.value, t))
  {
  }

  ghost predicate StaysInOrder(w: World, id: Key, e: Effect, name: string) {
    var secret := Plain(Key(id.namespace, name));
    && (e.write.Some? ==> e.write.value.name == secret)
    && InOrder(e.part, After(History(w, secret), e, secret), w.tokens + e.calls, name)
  }

  lemma StoreInOrder(w: World, id: Key, p: Part, wanted: Mutate.Wanted<Datum>, retryAt: nat, e: Effect, name: string)
    requires p.gen.pass.Storing? && p.gen.pass.v < |p.qsec|
    requires InOrder(p, History(w, Plain(Key(id.namespace, name))), w.tokens, name)
    requires StoreSecret(w, id, p, wanted, retryAt) == Some(e)
    ensures StaysInOrder(w, id, e, name)
  {
    var Storing(v, token, base) := p.gen.pass;
    var spec := p.qsec[v].obj.spec;
    var h := History(w, Plain(Key(id.namespace, name)));
    assert Local(spec, name);
    if base < |h| {
      WantedIsMade(spec, token, wanted, h[base]);
      if h[base] == Some(Mutate.Result(h[base], wanted)) {
        forall k | k in GeneratedEntries(spec) ensures false {
          assert Holds(h[base].value, token);
        }
      }
    }
  }

  lemma AcknowledgeInOrder(w: World, p: Part, e: Effect, h: seq<Option<StoredSecret>>, name: string)
    requires |h| > 0 && p.gen.pass.Acknowledging? && p.gen.pass.v < |p.qsec|
    requires InOrder(p, h, w.tokens, name) && Acknowledge(w, p) == Some(e)
    ensures e.write == None && e.calls == 0 && InOrder(e.part, h, w.tokens, name)
  {
  }

  lemma MidPassInOrder(w: World, id: Key, p: Part, g: GenerationStep, e: Effect, name: string)
    requires MidPass(g) && !g.GenStore?
    requires InOrder(p, History(w, Plain(Key(id.namespace, name))), w.tokens, name)
    requires GenerationNext(w, id, p, g) == Some(e)
    ensures e.write == None
    ensures InOrder(e.part, History(w, Plain(Key(id.namespace, name))), w.tokens + e.calls, name)
  {
    MidPassEffect(w, id, p, g, e);
    assert VersionsInOrder(e.part, name, w.tokens + e.calls);
    if g.GenCheck? {
      assert Local(p.qsec[p.gen.pass.v].obj.spec, name);
    }
  }

  lemma EndsInOrder(w: World, id: Key, p: Part, g: GenerationStep, e: Effect, name: string)
    requires !MidPass(g) && !g.GenAcknowledge?
    requires InOrder(p, History(w, Plain(Key(id.namespace, name))), w.tokens, name)
    requires GenerationNext(w, id, p, g) == Some(e)
    ensures e.write == None && e.calls == 0
    ensures InOrder(e.part, History(w, Plain(Key(id.namespace, name))), w.tokens, name)
  {
    assert VersionsInOrder(e.part, name, w.tokens);
  }

  lemma GenerationInOrder(w: World, id: Key, p: Part, g: GenerationStep, e: Effect, name: string)
    requires InOrder(p, History(w, Plain(Key(id.namespace, name))), w.tokens, name)
    requires GenerationNext(w, id, p, g) == Some(e)
    ensures StaysInOrder(w, id, e, name)
  {
    if g.GenStore? {
      StoreInOrder(w, id, p, g.wanted, g.retryAt, e, name);
    } else if MidPass(g) {
      MidPassInOrder(w, id, p, g, e, name);
    } else if g.GenAcknowledge? {
      AcknowledgeInOrder(w, p, e, History(w, Plain(Key(id.namespace, name))), name);
    } else {
      EndsInOrder(w, id, p, g, e, name);
    }
  }

  // A new version written now keeps the order of stamps.
  lemma NewVersionInOrder(p: Part, p': Part, h: seq<Option<StoredSecret>>, tokens: nat, name: string)
    requires |h| > 0 && InOrder(p, h, tokens, name)
    requires p'.csr == p.csr && p'.gen.pass == p.gen.pass && p'.sign == p.sign
    requires p'.qsec == p.qsec
             || (|p'.qsec| > 0 && p'.qsec == p.qsec + [Last(p'.qsec)]
                 && Last(p'.qsec).stamp == tokens && Local(Last(p'.qsec).obj.spec, name))
    ensures InOrder(p', h, tokens, name)
  {
  }

  lemma MetadataInOrder(w: World, id: Key, p: Part, m: MetadataStep, e: Effect, name: string)
    requires InOrder(p, History(w, Plain(Key(id.namespace, name))), w.tokens, name)
    requires MetadataNext(w, id, p, m) == Some(e)
    ensures StaysInOrder(w, id, e, name)
  {
    MetadataEffect(w, id, p, m, e);
    var h := History(w, Plain(Key(id.namespace, name)));
    NewVersionInOrder(p, e.part, h, w.tokens, name);
    if m.MetaWrite? && e.write.Some? {
      var v := p.meta.pass.v;
      assert Local(p.qsec[v].obj.spec, name);
      SyncedInOrder(e.part, p.qsec[v].obj.spec, h, w.tokens, name);
    }
  }

  // The metadata controller changes neither data nor kind.
  lemma SyncedInOrder(p: Part, spec: Spec, h: seq<Option<StoredSecret>>, tokens: nat, name: string)
    requires |h| > 0 && Last(h).Some? && InOrder(p, h, tokens, name)
    ensures InOrder(p, h + [Some(Synced(spec, Last(h).value))], tokens, name)
  {
    var s := Synced(spec, Last(h).value);
    forall t: nat ensures Holds(s, t) == Holds(Last(h).value, t) {
      assert s.data == Last(h).value.data;
    }
  }

  lemma OtherInOrder(w: World, id: Key, p: Part, step: Step, e: Effect, name: string)
    requires InOrder(p, History(w, Plain(Key(id.namespace, name))), w.tokens, name)
    requires !step.Generate? && !step.SyncMetadata? && PartNext(w, id, p, step) == Some(e)
    requires step.EditSpec? ==> Local(step.spec, name)
    ensures StaysInOrder(w, id, e, name)
  {
    if step.Sign? {
      IdleSignerInOrder(w, id, p, step.s, e, name);
    } else {
      if step.Copy? {
        CopyEffect(w, id, p, step.c, e);
      }
      NewVersionInOrder(p, e.part, History(w, Plain(Key(id.namespace, name))), w.tokens, name);
    }
  }

  // Without a signing request the CSR controller has nothing to do.
  lemma IdleSignerInOrder(w: World, id: Key, p: Part, s: CsrStep, e: Effect, name: string)
    requires InOrder(p, History(w, Plain(Key(id.namespace, name))), w.tokens, name)
    requires CsrNext(w, id, p, s) == Some(e)
    ensures StaysInOrder(w, id, e, name)
  {
    assert p.csr[0] == None;
  }

  ghost predicate WorldInOrder(w: World, id: Key, name: string) {
    var h := History(w, Plain(Key(id.namespace, name)));
    if id in w.parts then InOrder(w.parts[id], h, w.tokens, name) else h == [None]
  }

  lemma AppliedInOrder(w: World, id: Key, e: Effect, name: string)
    requires StaysInOrder(w, id, e, name)
    ensures WorldInOrder(Apply(w, id, e), id, name)
  {
    HistoryAfter(w, id, e, Plain(Key(id.namespace, name)));
  }

  lemma PartInOrder(w: World, id: Key, step: Step, e: Effect, name: string)
    requires id in w.parts && WorldInOrder(w, id, name) && PartNext(w, id, w.parts[id], step) == Some(e)
    requires step.EditSpec? ==> Local(step.spec, name)
    ensures StaysInOrder(w, id, e, name)
  {
    match step {
      case Generate(g) => GenerationInOrder(w, id, w.parts[id], g, e, name);
      case SyncMetadata(m) => MetadataInOrder(w, id, w.parts[id], m, e, name);
      case _ => OtherInOrder(w, id, w.parts[id], step, e, name);
    }
  }

  lemma OwnStepInOrder(w: World, id: Key, step: Step, w': World, name: string)
    requires WorldInOrder(w, id, name) && Next(w, On(id, step)) == Some(w')
    requires step.EditSpec? ==> Local(step.spec, name)
    ensures WorldInOrder(w', id, name)
  {
    var e := PartNext(w, id, w.parts[id], step).value;
    PartInOrder(w, id, step, e, name);
    AppliedInOrder(w, id, e, name);
  }

  lemma MoreCallsInOrder(p: Part, h: seq<Option<StoredSecret>>, tokens: nat, more: nat, name: string)
    requires |h| > 0 && InOrder(p, h, tokens, name) && tokens <= more
    ensures InOrder(p, h, more, name)
  {
  }

  // Generator calls by others disturb nothing.
  lemma OthersInOrder(w: World, a: Action, w': World, id: Key, name: string)
    requires WorldInOrder(w, id, name) && Next(w, a) == Some(w') && OwnsItsName(w, a, w', id, name)
    requires !(a.On? && a.id == id)
    ensures WorldInOrder(w', id, name)
  {
    if id in w.parts {
      MoreCallsInOrder(w.parts[id], History(w, Plain(Key(id.namespace, name))), w.tokens, w'.tokens, name);
    }
  }

  lemma {:induction false} InOrderAlongRun(run: seq<World>, acts: seq<Action>, i: nat, id: Key, name: string)
    requires IsRun(run, acts) && Initial(run[0]) && i < |run|
    requires forall j :: 0 <= j < |acts| ==> OwnsItsName(run[j], acts[j], run[j + 1], id, name)
    ensures WorldInOrder(run[i], id, name)
  {
    if i > 0 {
      InOrderAlongRun(run, acts, i - 1, id, name);
      var a := acts[i - 1];
      assert Next(run[i - 1], a) == Some(run[i]);
      assert OwnsItsName(run[i - 1], acts[i - 1], run[i - 1 + 1], id, name);
      if a.On? && a.id == id {
        OwnStepInOrder(run[i - 1], id, a.step, run[i], name);
      } else {
        OthersInOrder(run[i - 1], a, run[i], id, name);
      }
    }
  }

  // Only the generation controller's status write turns a secret that is not
  // generated into a generated one.
  lemma AcknowledgedBy(w: World, id: Key, p: Part, step: Step, e: Effect)
    requires |p.qsec| > 0 && |p.csr| > 0 && PartNext(w, id, p, step) == Some(e)
    requires Last(p.qsec).obj.status.NotGenerated()
    requires |e.part.qsec| > 0 && Last(e.part.qsec).obj.status.IsGenerated()
    ensures step == Generate(GenAcknowledge) && p.gen.pass.Acknowledging? && p.gen.pass.v + 1 == |p.qsec|
    ensures e.write == None
  {
    match step {
      case Copy(c) => CopyEffect(w, id, p, c, e);
      case SyncMetadata(m) => MetadataEffect(w, id, p, m, e);
      case Sign(s) => CsrEffect(w, id, p, s, e);
      case Generate(g) =>
        if MidPass(g) {
          MidPassEffect(w, id, p, g, e);
        }
      case _ =>
    }
  }

  // This generator call came after the write of every one of these versions.
  ghost predicate CalledAfter(qsec: seq<Version>, token: nat) {
    forall r :: 0 <= r < |qsec| ==> qsec[r].stamp <= token
  }

  // In every run, whatever the other controllers interleave: when the flag
  // turns from false to true, one generator call made after every version the
  // quarks secret had so far, the one that rotated it included, is what the
  // secret holds.
  lemma FreshAcknowledgement(run: seq<World>, acts: seq<Action>, i: nat, id: Key, name: string)
    requires IsRun(run, acts) && Initial(run[0]) && i < |acts|
    requires forall j :: 0 <= j < |acts| ==> OwnsItsName(run[j], acts[j], run[j + 1], id, name)
    requires id in run[i].parts && |run[i].parts[id].qsec| > 0
    requires id in run[i + 1].parts && |run[i + 1].parts[id].qsec| > 0
    requires Last(run[i].parts[id].qsec).obj.status.NotGenerated()
    requires Last(run[i + 1].parts[id].qsec).obj.status.IsGenerated()
    ensures exists token: nat ::
              && CalledAfter(run[i].parts[id].qsec, token)
              && Fresh(Current(run[i + 1], Plain(Key(id.namespace, name))),
                       Last(run[i].parts[id].qsec).obj.spec, token)
  {
    InOrderAlongRun(run, acts, i, id, name);
    var p := run[i].parts[id];
    assert Next(run[i], acts[i]) == Some(run[i + 1]);
    assert acts[i].On? && acts[i].id == id;
    var e := PartNext(run[i], id, p, acts[i].step).value;
    AcknowledgedBy(run[i], id, p, acts[i].step, e);
    HistoryAfter(run[i], id, e, Plain(Key(id.namespace, name)));
    assert CalledAfter(p.qsec, p.gen.pass.token) by {
      assert p.qsec[|p.qsec| - 1].stamp <= p.gen.pass.token;
    }
  }
}
