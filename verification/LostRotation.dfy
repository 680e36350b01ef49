// No rotation is lost: a quarks secret that is stored as not generated is
// queued, delayed, being processed, or about to be queued by an event.
module LostRotation {
  import opened Types
  import opened Operator
  import opened Effects
  import opened CleanPass

  ghost predicate Due(p: Part) {
    |p.qsec| > 0 && Last(p.qsec).obj.status.NotGenerated() && !Last(p.qsec).obj.spec.secretType.SecretCopy?
  }

  // What the property promises.
  ghost predicate NotLost(p: Part) {
    Due(p) ==>
      || p.gen.queue.dirty
      || p.gen.queue.waiting.Some?
      || !p.gen.pass.GenIdle?
      || (p.gen.queue.seen < |p.qsec| && |p.qsec| > 1 && forall o :: GenerationWatch(o, Last(p.qsec).obj))
  }

  predicate ReadVersion(pass: GenerationPass, v: nat) {
    match pass
    case GenIdle => false
    case GenFetching => true
    case _ => pass.v == v
  }

  // The key comes back without the pass that is running.
  predicate Backed(p: Part) {
    p.gen.queue.seen < |p.qsec| || p.gen.queue.dirty || p.gen.queue.waiting.Some?
  }

  ghost predicate WellFormed(p: Part) {
    && |p.qsec| > 0 && |p.csr| > 0
    && p.qsec[0].obj.status.generated == None
    && p.gen.queue.seen <= |p.qsec|
    && (p.gen.pass.GenIdle? || p.gen.pass.GenFetching? || p.gen.pass.v < |p.qsec|)
  }

  // The inductive form: a running pass only counts if it read the last version.
  ghost predicate Kept(p: Part) {
    WellFormed(p) && (Due(p) ==> Backed(p) || ReadVersion(p.gen.pass, |p.qsec| - 1))
  }

  // The steps that lose a rotation: a crash, a status write that fails for
  // another reason than a conflict, and a meltdown with a requeue delay of
  // zero, each with nothing else left to bring the key back.
  ghost predicate Loses(w: World, id: Key, a: Action) {
    id in w.parts && a.On? && a.id == id && a.step.Generate? &&
    var p := w.parts[id];
    Due(p) && p.gen.queue.seen == |p.qsec| &&
    match a.step.g
    case GenCrash => true
    case GenAcknowledgeLost => p.gen.pass.Acknowledging? && !p.gen.queue.dirty && p.gen.queue.waiting.None?
    case GenFetch(v) =>
      && !p.gen.queue.dirty && p.gen.queue.waiting.None? && w.config.meltdownRequeueAfter == 0
      && InMeltdown(w.config.meltdownDuration, Last(p.qsec).obj.status.lastReconcile, w.clock)
    case _ => false
  }

  lemma GenerationStepKeeps(w: World, id: Key, p: Part, g: GenerationStep, e: Effect)
    requires id in w.parts && w.parts[id] == p && Kept(p)
    requires GenerationNext(w, id, p, g) == Some(e)
    ensures WellFormed(e.part)
    ensures Kept(e.part) <==> !Loses(w, id, On(id, Generate(g)))
  {
    if MidPass(g) {
      MidPassEffect(w, id, p, g, e);
    }
  }

  lemma OtherStepKeeps(w: World, id: Key, p: Part, step: Step, e: Effect)
    requires Kept(p) && !step.Generate? && PartNext(w, id, p, step) == Some(e)
    ensures Kept(e.part)
  {
    match step {
      case Copy(c) => CopyEffect(w, id, p, c, e);
      case SyncMetadata(m) => MetadataEffect(w, id, p, m, e);
      case Sign(s) => CsrEffect(w, id, p, s, e);
      case _ =>
    }
  }

  // The rotation is lost: it is due, but nothing is pending and no event is left.
  ghost predicate Gone(p: Part) {
    WellFormed(p) && Due(p) && p.gen == GenerationSide(Queue(|p.qsec|, false, None), GenIdle)
  }

  // A losing step leaves nothing at all of the rotation.
  lemma LossIsComplete(w: World, id: Key, a: Action, w': World)
    requires id in w.parts && WellFormed(w.parts[id]) && Next(w, a) == Some(w') && Loses(w, id, a)
    ensures id in w'.parts && Gone(w'.parts[id]) && !NotLost(w'.parts[id])
  {
  }

  lemma GoneStaysOrWrites(w: World, id: Key, p: Part, step: Step, e: Effect)
    requires Gone(p) && PartNext(w, id, p, step) == Some(e)
    ensures e.part.gen == p.gen && |e.part.csr| > 0
    ensures e.part.qsec == p.qsec
            || (|e.part.qsec| == |p.qsec| + 1 && e.part.qsec[..|p.qsec|] == p.qsec)
  {
    match step {
      case Copy(c) => CopyEffect(w, id, p, c, e);
      case SyncMetadata(m) => MetadataEffect(w, id, p, m, e);
      case Sign(s) => CsrEffect(w, id, p, s, e);
      case _ =>
    }
  }

  // From there on: any step keeps it lost if and only if it stores no new version
  // of the quarks secret. The event of a version that is still to be generated
  // would pass the watch and bring it back.
  lemma GoneUntilNextVersion(w: World, a: Action, w': World, id: Key)
    requires id in w.parts && Gone(w.parts[id]) && Next(w, a) == Some(w')
    ensures id in w'.parts && w'.parts[id].gen == w.parts[id].gen
    ensures Gone(w'.parts[id]) <==> w'.parts[id].qsec == w.parts[id].qsec
    ensures w'.parts[id].qsec != w.parts[id].qsec ==> NotLost(w'.parts[id])
  {
    if a.On? && a.id == id {
      GoneStaysOrWrites(w, id, w.parts[id], a.step, PartNext(w, id, w.parts[id], a.step).value);
    }
  }

  // Whatever else goes on, for as long as it gets no new version no pass starts
  // and nothing is queued.
  lemma {:induction false} GoneForGood(run: seq<World>, acts: seq<Action>, i: nat, id: Key)
    requires IsRun(run, acts) && i < |run| && id in run[0].parts && Gone(run[0].parts[id])
    requires forall j :: 0 <= j <= i && id in run[j].parts ==> run[j].parts[id].qsec == run[0].parts[id].qsec
    ensures id in run[i].parts && Gone(run[i].parts[id]) && run[i].parts[id].gen == run[0].parts[id].gen
  {
    if i > 0 {
      GoneForGood(run, acts, i - 1, id);
      assert Next(run[i - 1], acts[i - 1]) == Some(run[i]);
      GoneUntilNextVersion(run[i - 1], acts[i - 1], run[i], id);
    }
  }

  lemma KeptExactly(w: World, a: Action, w': World, id: Key)
    requires id in w.parts && Kept(w.parts[id]) && Next(w, a) == Some(w')
    ensures id in w'.parts && (Kept(w'.parts[id]) <==> !Loses(w, id, a))
  {
    if a.On? && a.id == id {
      var e := PartNext(w, id, w.parts[id], a.step).value;
      if a.step.Generate? {
        GenerationStepKeeps(w, id, w.parts[id], a.step.g, e);
      } else {
        OtherStepKeeps(w, id, w.parts[id], a.step, e);
      }
    }
  }

  lemma KeptIsNotLost(p: Part)
    requires Kept(p)
    ensures NotLost(p)
  {
  }

  lemma {:induction false} KeptAlongRun(run: seq<World>, acts: seq<Action>, i: nat, id: Key)
    requires IsRun(run, acts) && Initial(run[0]) && i < |run|
    requires forall j :: 0 <= j < i ==> !Loses(run[j], id, acts[j])
    ensures id in run[i].parts ==> Kept(run[i].parts[id])
  {
    if i > 0 {
      KeptAlongRun(run, acts, i - 1, id);
      assert Next(run[i - 1], acts[i - 1]) == Some(run[i]);
      if id in run[i - 1].parts {
        KeptExactly(run[i - 1], acts[i - 1], run[i], id);
      }
    }
  }

  // In every run without a losing step so far, the next step loses the rotation
  // of this quarks secret if and only if it is a losing step.
  lemma LostExactlyBy(run: seq<World>, acts: seq<Action>, i: nat, id: Key)
    requires IsRun(run, acts) && Initial(run[0]) && i < |acts| && id in run[i].parts
    requires forall j :: 0 <= j < i ==> !Loses(run[j], id, acts[j])
    ensures id in run[i + 1].parts
    ensures NotLost(run[i + 1].parts[id]) <==> !Loses(run[i], id, acts[i])
  {
    KeptAlongRun(run, acts, i, id);
    assert Next(run[i], acts[i]) == Some(run[i + 1]);
    KeptExactly(run[i], acts[i], run[i + 1], id);
    if Loses(run[i], id, acts[i]) {
      LossIsComplete(run[i], id, acts[i], run[i + 1]);
    } else {
      KeptIsNotLost(run[i + 1].parts[id]);
    }
  }

  // No operator restart, and a status write fails only by a version conflict.
  predicate Reliable(a: Action) {
    a.On? && a.step.Generate? ==> a.step.g != GenCrash && a.step.g != GenAcknowledgeLost
  }

  lemma {:induction false} ConfigIsFixed(run: seq<World>, acts: seq<Action>, i: nat)
    requires IsRun(run, acts) && i < |run|
    ensures run[i].config == run[0].config
  {
    if i > 0 {
      ConfigIsFixed(run, acts, i - 1);
      assert Next(run[i - 1], acts[i - 1]) == Some(run[i]);
    }
  }

  // In every state of every run, for every quarks secret.
  lemma NoLostRotation(run: seq<World>, acts: seq<Action>, i: nat, id: Key)
    requires IsRun(run, acts) && Initial(run[0]) && i < |run|
    requires run[0].config.meltdownRequeueAfter > 0
    requires forall j :: 0 <= j < |acts| ==> Reliable(acts[j])
    ensures id in run[i].parts ==> NotLost(run[i].parts[id])
  {
    forall j | 0 <= j < |acts| ensures !Loses(run[j], id, acts[j]) {
      ConfigIsFixed(run, acts, j);
      assert Reliable(acts[j]);
    }
    KeptAlongRun(run, acts, i, id);
  }

  // ---- Losing steps do come up -------------------------------------------

  predicate Simple(spec: Spec) {
    spec.secretType == Password
  }

  // The quarks secret is created and rotated, and both events arrive. A flag
  // that is unset does not stop the rotation.
  lemma RotatedAndQueued(w: World, id: Key, spec: Spec) returns (acts: seq<Action>, w': World)
    requires Initial(w) && Simple(spec)
    ensures Leads(w, acts, w') && forall a :: a in acts ==> Reliable(a)
    ensures id in w'.parts && w'.secrets == map[] && WellFormed(w'.parts[id])
    ensures var p := w'.parts[id];
            && |p.qsec| == 2 && |p.csr| > 0 && Due(p)
            && p.qsec[1].obj.spec == spec && p.qsec[1].obj.status.lastReconcile == None
            && p.gen == GenerationSide(Queue(2, true, None), GenIdle)
  {
    var a1, a2 := CreateQuarksSecret(id, map[], spec), On(id, Rotate);
    var a3 := On(id, Deliver(GenerationController, 2, false));
    var a0 := On(id, Deliver(GenerationController, 1, true));
    var w1 := Next(w, a1).value;
    var w2 := Next(w1, a2).value;
    var w3 := Next(w2, a0).value;
    w' := Next(w3, a3).value;
    OneStep(w, a1, w1);
    LeadsOneMore(w, [a1], w1, a2, w2);
    LeadsOneMore(w, [a1] + [a2], w2, a0, w3);
    LeadsOneMore(w, [a1] + [a2] + [a0], w3, a3, w');
    acts := [a1] + [a2] + [a0] + [a3];
  }

  lemma ReadyToAcknowledge(w: World, id: Key, spec: Spec) returns (acts: seq<Action>, w': World)
    requires Initial(w) && Simple(spec)
    ensures Leads(w, acts, w') && forall a :: a in acts ==> Reliable(a)
    ensures id in w'.parts && Loses(w', id, On(id, Generate(GenAcknowledgeLost))) && WellFormed(w'.parts[id])
  {
    var first, w1 := RotatedAndQueued(w, id, spec);
    var second, w2 := RunsToAcknowledgement(w1, id, 2);
    LeadsOn(w, first, w1, second, w2);
    forall a | a in second ensures Reliable(a) {
      assert Clean(a);
    }
    acts, w' := first + second, w2;
  }

  // From the start, with every step reliable but the last: one status write
  // that fails for another reason than a conflict, and the rotation is gone.
  lemma OneFailedWriteLosesARotation(w: World, id: Key, spec: Spec)
    returns (acts: seq<Action>, mid: World, w': World)
    requires Initial(w) && Simple(spec)
    ensures Leads(w, acts, mid) && forall a :: a in acts ==> Reliable(a)
    ensures Next(mid, On(id, Generate(GenAcknowledgeLost))) == Some(w')
    ensures id in w'.parts && Gone(w'.parts[id]) && !NotLost(w'.parts[id])
  {
    acts, mid := ReadyToAcknowledge(w, id, spec);
    w' := Next(mid, On(id, Generate(GenAcknowledgeLost))).value;
    LossIsComplete(mid, id, On(id, Generate(GenAcknowledgeLost)), w');
  }
}
