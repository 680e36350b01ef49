// A generation pass that nothing disturbs, up to its acknowledgement.
module CleanPass {
  import opened Types
  import opened Operator
  import Mutate

  // A call of a generation pass that works.
  predicate Clean(a: Action) {
    a.On? && a.step.Generate? && a.step.g !in {GenCrash, GenAcknowledgeLost} && !a.step.g.GenAbort?
  }

  // The key is queued for version n - 1, nothing is delayed or undelivered, and
  // the secret was never generated.
  predicate QueuedFor(p: Part, n: nat) {
    && |p.qsec| == n && n > 0 && |p.csr| > 0 && Producible(p.qsec[n - 1].obj.spec)
    && p.qsec[n - 1].obj.status.lastReconcile == None
    && p.gen == GenerationSide(Queue(n, true, None), GenIdle)
  }

  function At(p: Part, n: nat, pass: GenerationPass): Part {
    p.(gen := GenerationSide(Queue(n, false, None), pass))
  }

  lemma Produces(w: World, id: Key, n: nat) returns (acts: seq<Action>, w': World)
    requires id in w.parts && QueuedFor(w.parts[id], n)
    ensures Leads(w, acts, w') && forall a :: a in acts ==> Clean(a)
    ensures w'.secrets == w.secrets && w'.clock == w.clock
    ensures w'.parts == w.parts[id := At(w.parts[id], n, Checking(n - 1, w.tokens))]
  {
    var a1, a2, a3 := On(id, Generate(GenPop)), On(id, Generate(GenFetch(n - 1))), On(id, Generate(GenProduce));
    var w1 := Next(w, a1).value;
    var w2 := Next(w1, a2).value;
    w' := Next(w2, a3).value;
    OneStep(w, a1, w1);
    LeadsOneMore(w, [a1], w1, a2, w2);
    LeadsOneMore(w, [a1] + [a2], w2, a3, w');
    acts := [a1] + [a2] + [a3];
  }

  lemma ChecksAndLoads(w: World, id: Key, n: nat, token: nat) returns (acts: seq<Action>, w': World)
    requires id in w.parts
    requires var p := w.parts[id];
             && |p.qsec| == n && n > 0 && |p.csr| > 0 && p == At(p, n, Checking(n - 1, token))
             && History(w, Target(id, p.qsec[n - 1].obj.spec)) == [None]
             && History(w, Destination(id, p.qsec[n - 1].obj.spec)) == [None]
    ensures Leads(w, acts, w') && forall a :: a in acts ==> Clean(a)
    ensures w'.secrets == w.secrets && w'.clock == w.clock
    ensures w'.parts == w.parts[id := At(w.parts[id], n, Storing(n - 1, token, 0))]
  {
    var a1, a2 := On(id, Generate(GenCheck(Some(0)))), On(id, Generate(GenLoad(0)));
    var w1 := Next(w, a1).value;
    w' := Next(w1, a2).value;
    OneStep(w, a1, w1);
    LeadsOneMore(w, [a1], w1, a2, w');
    acts := [a1] + [a2];
  }

  lemma Stores(w: World, id: Key, n: nat, token: nat) returns (acts: seq<Action>, w': World)
    requires id in w.parts
    requires var p := w.parts[id];
             && |p.qsec| == n && n > 0 && |p.csr| > 0 && !ClusterSigned(p.qsec[n - 1].obj.spec)
             && p == At(p, n, Storing(n - 1, token, 0)) && History(w, Target(id, p.qsec[n - 1].obj.spec)) == [None]
    ensures Leads(w, acts, w') && forall a :: a in acts ==> Clean(a)
    ensures w'.parts == w.parts[id := At(w.parts[id], n, Acknowledging(n - 1, token))]
    ensures var spec := w.parts[id].qsec[n - 1].obj.spec;
            History(w', Target(id, spec)) == [None, Some(Mutate.Created(SomeWanted(spec, token)))]
  {
    var spec := w.parts[id].qsec[n - 1].obj.spec;
    var a := On(id, Generate(GenStore(SomeWanted(spec, token), w.clock)));
    w' := Next(w, a).value;
    OneStep(w, a, w');
    acts := [a];
  }

  lemma RunsToAcknowledgement(w: World, id: Key, n: nat) returns (acts: seq<Action>, w': World)
    requires id in w.parts && QueuedFor(w.parts[id], n) && !ClusterSigned(w.parts[id].qsec[n - 1].obj.spec)
    requires History(w, Target(id, w.parts[id].qsec[n - 1].obj.spec)) == [None]
    ensures Leads(w, acts, w') && forall a :: a in acts ==> Clean(a)
    ensures w'.parts == w.parts[id := At(w.parts[id], n, Acknowledging(n - 1, w.tokens))]
    ensures var spec := w.parts[id].qsec[n - 1].obj.spec;
            History(w', Target(id, spec)) == [None, Some(Mutate.Created(SomeWanted(spec, w.tokens)))]
  {
    var target := Target(id, w.parts[id].qsec[n - 1].obj.spec);
    var first, w1 := Produces(w, id, n);
    assert History(w1, target) == History(w, target);
    var second, w2 := ChecksAndLoads(w1, id, n, w.tokens);
    assert History(w2, target) == History(w, target);
    var third, w3 := Stores(w2, id, n, w.tokens);
    LeadsOn(w, first, w1, second, w2);
    LeadsOn(w, first + second, w2, third, w3);
    acts, w' := first + second + third, w3;
  }

  // A quarks secret is created, and its event arrives.
  lemma CreatedAndQueued(w: World, id: Key, spec: Spec) returns (acts: seq<Action>, w': World)
    requires id !in w.parts && Producible(spec)
    ensures Leads(w, acts, w') && w'.secrets == w.secrets && w'.tokens == w.tokens
    ensures forall a :: a in acts ==> a.CreateQuarksSecret? || (a.On? && a.step.Deliver?)
    ensures w'.parts ==
            w.parts[id := NewPart(map[], spec, w.tokens).(gen := GenerationSide(Queue(1, true, None), GenIdle))]
    ensures QueuedFor(w'.parts[id], 1) && w'.parts[id].qsec[0].obj.spec == spec
  {
    var a1, a2 := CreateQuarksSecret(id, map[], spec), On(id, Deliver(GenerationController, 1, false));
    var w1 := Next(w, a1).value;
    w' := Next(w1, a2).value;
    OneStep(w, a1, w1);
    LeadsOneMore(w, [a1], w1, a2, w');
    acts := [a1] + [a2];
  }

  // No call fails and nothing crashes.
  predicate Works(a: Action) {
    a.On? ==>
      match a.step
      case Generate(g) => g !in {GenCrash, GenAcknowledgeLost} && !g.GenAbort?
      case Copy(c) => c !in {CopyClear(false), CopyMark(false), CopyCrash} && !c.CopyAbort?
      case SyncMetadata(m) => !m.MetaAbort? && !m.MetaCrash?
      case _ => true
  }

  // One more step.
  lemma ThenApply(w: World, acts: seq<Action>, mid: World, id: Key, step: Step, e: Effect)
    returns (acts': seq<Action>, w': World)
    requires Leads(w, acts, mid) && (forall a :: a in acts ==> Works(a)) && Works(On(id, step))
    requires id in mid.parts && |mid.parts[id].qsec| > 0 && |mid.parts[id].csr| > 0
    requires PartNext(mid, id, mid.parts[id], step) == Some(e)
    ensures Leads(w, acts', w') && (forall a :: a in acts' ==> Works(a)) && acts' == acts + [On(id, step)]
    ensures w' == Apply(mid, id, e)
  {
    acts', w' := acts + [On(id, step)], Next(mid, On(id, step)).value;
    LeadsOneMore(w, acts, mid, On(id, step), w');
  }

  // One more step, which writes no secret.
  lemma Then(w: World, acts: seq<Action>, mid: World, id: Key, step: Step, p: Part)
    returns (acts': seq<Action>, w': World)
    requires Leads(w, acts, mid) && (forall a :: a in acts ==> Works(a)) && Works(On(id, step))
    requires id in mid.parts && |mid.parts[id].qsec| > 0 && |mid.parts[id].csr| > 0
    requires PartNext(mid, id, mid.parts[id], step) == Only(p)
    ensures Leads(w, acts', w') && (forall a :: a in acts' ==> Works(a)) && acts' == acts + [On(id, step)]
    ensures w' == mid.(parts := mid.parts[id := p])
  {
    acts', w' := ThenApply(w, acts, mid, id, step, Effect(p, None, 0));
  }

  lemma CleanWorks(acts: seq<Action>)
    requires forall a :: a in acts ==> Clean(a) || a.CreateQuarksSecret? || (a.On? && a.step.Deliver?)
    ensures forall a :: a in acts ==> Works(a)
  {
  }

  // From the start to the first acknowledgement.
  lemma FirstPass(w: World, id: Key, spec: Spec) returns (acts: seq<Action>, w': World)
    requires Initial(w) && Producible(spec) && !ClusterSigned(spec)
    ensures Leads(w, acts, w') && forall a :: a in acts ==> Works(a)
    ensures w'.parts == map[id := At(NewPart(map[], spec, w.tokens), 1, Acknowledging(0, w.tokens))]
    ensures History(w', Target(id, spec)) == [None, Some(Mutate.Created(SomeWanted(spec, w.tokens)))]
  {
    var first, w1 := CreatedAndQueued(w, id, spec);
    var second, w2 := RunsToAcknowledgement(w1, id, 1);
    LeadsOn(w, first, w1, second, w2);
    acts, w' := first + second, w2;
    CleanWorks(acts);
  }
}
