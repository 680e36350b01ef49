// When a quarks secret that has something to generate is forgotten: it was never
// generated, its generation input changed, or it was rotated, and yet no pass will
// start until it gets a new version.
module Forgetting {
  import opened Types
  import opened Operator
  import opened Effects
  import opened CleanPass

  // There is something to generate. `acked` is the spec of the acknowledgement that
  // was accepted last.
  predicate Needs(qsec: seq<Version>, acked: Option<Spec>)
    requires |qsec| > 0
  {
    var obj := Last(qsec).obj;
    && !obj.spec.secretType.SecretCopy?
    && (obj.status.NotGenerated() || acked.None? || !SameButMetadata(acked.value, obj.spec))
  }

  predicate Unqueued(q: Queue) {
    !q.dirty && q.waiting.None?
  }

  // One of the events to come can still pass the watch, whichever of them are merged.
  ghost predicate EventLeft(qsec: seq<Version>, seen: nat) {
    || seen == 0
    || exists a: nat, b: nat :: seen <= a + 1 && a < b < |qsec| && GenerationWatch(qsec[a].obj, qsec[b].obj)
  }

  ghost predicate NothingPending(p: Part) {
    p.gen.pass.GenIdle? && Unqueued(p.gen.queue) && !EventLeft(p.qsec, p.gen.queue.seen)
  }

  ghost predicate Forgotten(p: Part, acked: Option<Spec>) {
    |p.qsec| > 0 && Needs(p.qsec, acked) && NothingPending(p)
  }

  // ---- What it means -------------------------------------------------------

  ghost predicate Starts(w: World, w': World, id: Key) {
    && id in w.parts && id in w'.parts && w'.parts[id].qsec == w.parts[id].qsec
    && !w'.parts[id].gen.pass.GenIdle?
  }

  // A pass runs, or some schedule starts one without a new version.
  ghost predicate CanStart(w: World, id: Key) {
    exists acts, w' :: Leads(w, acts, w') && Starts(w, w', id)
  }

  ghost predicate Here(w: World, id: Key) {
    id in w.parts && |w.parts[id].qsec| > 0 && |w.parts[id].csr| > 0 && w.parts[id].gen.queue.seen <= |w.parts[id].qsec|
  }

  lemma StartsLater(w: World, a: Action, mid: World, id: Key)
    requires Next(w, a) == Some(mid) && id in w.parts && id in mid.parts && mid.parts[id].qsec == w.parts[id].qsec
    requires CanStart(mid, id)
    ensures CanStart(w, id)
  {
    var acts, w' :| Leads(mid, acts, w') && Starts(mid, w', id);
    OneStep(w, a, mid);
    LeadsOn(w, [a], mid, acts, w');
    assert Starts(w, w', id);
  }

  lemma QueuedStarts(w: World, id: Key)
    requires Here(w, id) && (w.parts[id].gen.pass.GenIdle? ==> w.parts[id].gen.queue.dirty)
    ensures CanStart(w, id)
  {
    if w.parts[id].gen.pass.GenIdle? {
      var w' := Next(w, On(id, Generate(GenPop))).value;
      OneStep(w, On(id, Generate(GenPop)), w');
      assert Starts(w, w', id);
    } else {
      assert Leads(w, [], w) && Starts(w, w, id);
    }
  }

  lemma {:induction false} DelayedStarts(w: World, id: Key)
    requires Here(w, id) && w.parts[id].gen.queue.waiting.Some?
    ensures CanStart(w, id)
    decreases if w.clock < w.parts[id].gen.queue.waiting.value then w.parts[id].gen.queue.waiting.value - w.clock else 0
  {
    if w.clock < w.parts[id].gen.queue.waiting.value {
      var mid := Next(w, Tick).value;
      DelayedStarts(mid, id);
      StartsLater(w, Tick, mid, id);
    } else {
      var mid := Next(w, On(id, Generate(GenTimer))).value;
      QueuedStarts(mid, id);
      StartsLater(w, On(id, Generate(GenTimer)), mid, id);
    }
  }

  // One event, delivered alone or merged with those before it.
  lemma DeliverStarts(w: World, id: Key, upto: nat)
    requires Here(w, id) && w.parts[id].gen.queue.seen < upto <= |w.parts[id].qsec|
    requires var p := w.parts[id];
             if p.gen.queue.seen == 0 then upto == 1
             else GenerationWatch(p.qsec[p.gen.queue.seen - 1].obj, p.qsec[upto - 1].obj)
    ensures CanStart(w, id)
  {
    var a := On(id, Deliver(GenerationController, upto, false));
    var mid := Next(w, a).value;
    QueuedStarts(mid, id);
    StartsLater(w, a, mid, id);
  }

  lemma PairStarts(w: World, id: Key, a: nat, b: nat)
    requires Here(w, id) && 0 < w.parts[id].gen.queue.seen < a + 1 && a < b < |w.parts[id].qsec|
    requires GenerationWatch(w.parts[id].qsec[a].obj, w.parts[id].qsec[b].obj)
    ensures CanStart(w, id)
  {
    var act := On(id, Deliver(GenerationController, a + 1, false));
    var mid := Next(w, act).value;
    assert mid.parts[id].gen.queue.seen == a + 1 && mid.parts[id].qsec == w.parts[id].qsec;
    DeliverStarts(mid, id, b + 1);
    StartsLater(w, act, mid, id);
  }

  lemma EventStarts(w: World, id: Key)
    requires Here(w, id) && EventLeft(w.parts[id].qsec, w.parts[id].gen.queue.seen)
    ensures CanStart(w, id)
  {
    var p := w.parts[id];
    if p.gen.queue.seen == 0 {
      DeliverStarts(w, id, 1);
    } else {
      var a: nat, b: nat :|
        p.gen.queue.seen <= a + 1 && a < b < |p.qsec| && GenerationWatch(p.qsec[a].obj, p.qsec[b].obj);
      if p.gen.queue.seen == a + 1 {
        DeliverStarts(w, id, b + 1);
      } else {
        PairStarts(w, id, a, b);
      }
    }
  }

  lemma {:induction false} VersionsGrowOn(w: World, acts: seq<Action>, w': World, id: Key)
    requires Leads(w, acts, w') && id in w.parts
    ensures id in w'.parts && w.parts[id].qsec <= w'.parts[id].qsec
    decreases |acts|
  {
    if acts != [] {
      VersionsGrow(w, acts[0], Next(w, acts[0]).value, id);
      VersionsGrowOn(Next(w, acts[0]).value, acts[1..], w', id);
    }
  }

  // The last version has the same flag, or the flag of a rotation.
  predicate KeepsFlag(o: Version, qsec: seq<Version>) {
    |qsec| > 0 && (Last(qsec).obj.status.generated == o.obj.status.generated || Last(qsec).obj.status.NotGenerated())
  }

  // A step of a part with nothing pending that stores no new version.
  lemma NothingStillPending(p: Part, w: World, id: Key, step: Step, e: Effect)
    requires |p.qsec| > 0 && |p.csr| > 0 && NothingPending(p) && PartNext(w, id, p, step) == Some(e)
    ensures e.part.gen.pass.GenIdle? && Unqueued(e.part.gen.queue)
    ensures p.gen.queue.seen <= |p.qsec| ==> p.gen.queue.seen <= e.part.gen.queue.seen <= |e.part.qsec|
    ensures e.part.qsec == p.qsec ==> NothingPending(e.part)
    ensures e.part.qsec != p.qsec ==> e.part.gen == p.gen && KeepsFlag(Last(p.qsec), e.part.qsec)
  {
    match step {
      case Copy(c) => CopyEffect(w, id, p, c, e);
      case SyncMetadata(m) => MetadataEffect(w, id, p, m, e);
      case Sign(s) => CsrEffect(w, id, p, s, e);
      case _ =>
    }
  }

  lemma NothingPendingStays(w: World, a: Action, w': World, id: Key)
    requires Here(w, id) && NothingPending(w.parts[id]) && Next(w, a) == Some(w')
    requires id in w'.parts && w'.parts[id].qsec == w.parts[id].qsec
    ensures Here(w', id) && NothingPending(w'.parts[id])
  {
    VersionsGrow(w, a, w', id);
    if a.On? && a.id == id {
      NothingStillPending(w.parts[id], w, id, a.step, PartNext(w, id, w.parts[id], a.step).value);
    }
  }

  lemma {:induction false} NothingStarts(w: World, acts: seq<Action>, w': World, id: Key)
    requires Here(w, id) && NothingPending(w.parts[id]) && Leads(w, acts, w')
    ensures !Starts(w, w', id)
    decreases |acts|
  {
    if acts != [] {
      var mid := Next(w, acts[0]).value;
      VersionsGrow(w, acts[0], mid, id);
      VersionsGrowOn(mid, acts[1..], w', id);
      if mid.parts[id].qsec == w.parts[id].qsec {
        NothingPendingStays(w, acts[0], mid, id);
        NothingStarts(mid, acts[1..], w', id);
      }
    }
  }

  // Nothing is pending if and only if no schedule starts a pass without a new
  // version of the quarks secret.
  lemma NothingPendingExactlyWhen(w: World, id: Key)
    requires Here(w, id)
    ensures NothingPending(w.parts[id]) <==> !CanStart(w, id)
  {
    var p := w.parts[id];
    if NothingPending(p) {
      forall acts, w' | Leads(w, acts, w') ensures !Starts(w, w', id) {
        NothingStarts(w, acts, w', id);
      }
    } else if !p.gen.pass.GenIdle? || p.gen.queue.dirty {
      QueuedStarts(w, id);
    } else if p.gen.queue.waiting.Some? {
      DelayedStarts(w, id);
    } else {
      EventStarts(w, id);
    }
  }

  // ---- Steps ----------------------------------------------------------------

  // The status write of a generation pass goes through.
  predicate Accepted(w: World, a: Action, id: Key) {
    && a == On(id, Generate(GenAcknowledge)) && id in w.parts
    && var p := w.parts[id]; p.gen.pass.Acknowledging? && p.gen.pass.v + 1 == |p.qsec|
  }

  function AckedAfter(w: World, a: Action, id: Key, acked: Option<Spec>): Option<Spec> {
    if Accepted(w, a, id) then Some(Last(w.parts[id].qsec).obj.spec) else acked
  }

  // A flag that is set is never unset again.
  predicate FlagsStay(qsec: seq<Version>) {
    forall a, b :: 0 <= a <= b < |qsec| && qsec[a].obj.status.generated.Some? ==> qsec[b].obj.status.generated.Some?
  }

  predicate Sound(p: Part, acked: Option<Spec>) {
    && |p.qsec| > 0 && |p.csr| > 0 && p.gen.queue.seen <= |p.qsec|
    && (var v := ReadBy(p.gen.pass); v.Some? ==> v.value < |p.qsec|)
    && FlagsStay(p.qsec) && (acked.Some? ==> Last(p.qsec).obj.status.generated.Some?)
  }

  predicate EventPasses(p: Part, upto: nat, ownsSecret: bool) {
    if p.gen.queue.seen == 0 then !ownsSecret
    else p.gen.queue.seen < upto <= |p.qsec|
         && GenerationWatch(p.qsec[p.gen.queue.seen - 1].obj, p.qsec[upto - 1].obj)
  }

  // The steps that forget what is to be generated, each with nothing else left to
  // bring the key back: a crash; a status write that fails, by a conflict or not; a
  // pass that ends in a meltdown with a requeue delay of zero, or because it read a
  // version of the copy type; an event that the watch drops; and an edit that gives
  // a quarks secret of the copy type, never generated, another type.
  ghost predicate Forgets(w: World, id: Key, a: Action, acked: Option<Spec>) {
    && id in w.parts && a.On? && a.id == id && |w.parts[id].qsec| > 0
    && var p := w.parts[id];
       match a.step
       case Generate(g) => Needs(p.qsec, acked) && !EventLeft(p.qsec, p.gen.queue.seen) && PassForgets(w, p, g)
       case Deliver(to, upto, ownsSecret) =>
         && to.GenerationController? && Needs(p.qsec, acked) && p.gen.pass.GenIdle? && Unqueued(p.gen.queue)
         && !EventPasses(p, upto, ownsSecret) && !EventLeft(p.qsec, upto)
       case EditSpec(_, spec) =>
         && Last(p.qsec).obj.spec.secretType.SecretCopy? && !spec.secretType.SecretCopy?
         && Last(p.qsec).obj.status.generated.None? && NothingPending(p)
       case _ => false
  }

  predicate PassForgets(w: World, p: Part, g: GenerationStep) {
    match g
    case GenCrash => true
    case GenAcknowledgeLost => p.gen.pass.Acknowledging? && Unqueued(p.gen.queue)
    case GenAcknowledge => p.gen.pass.Acknowledging? && Unqueued(p.gen.queue) && p.gen.pass.v + 1 != |p.qsec|
    case GenFetch(v) =>
      && Unqueued(p.gen.queue) && v < |p.qsec|
      && if InMeltdown(w.config.meltdownDuration, p.qsec[v].obj.status.lastReconcile, w.clock)
         then w.config.meltdownRequeueAfter == 0 else p.qsec[v].obj.spec.secretType.SecretCopy?
    case _ => false
  }

  lemma AcknowledgeForgets(w: World, id: Key, p: Part, e: Effect, acked: Option<Spec>)
    requires id in w.parts && w.parts[id] == p && Sound(p, acked) && !Forgotten(p, acked)
    requires GenerationNext(w, id, p, GenAcknowledge) == Some(e)
    ensures var a := On(id, Generate(GenAcknowledge));
            && Sound(e.part, AckedAfter(w, a, id, acked))
            && (Forgotten(e.part, AckedAfter(w, a, id, acked)) <==> Forgets(w, id, a, acked))
  {
  }

  lemma GenerationForgets(w: World, id: Key, p: Part, g: GenerationStep, e: Effect, acked: Option<Spec>)
    requires id in w.parts && w.parts[id] == p && Sound(p, acked) && !Forgotten(p, acked) && !g.GenAcknowledge?
    requires GenerationNext(w, id, p, g) == Some(e)
    ensures Sound(e.part, acked)
    ensures Forgotten(e.part, acked) <==> Forgets(w, id, On(id, Generate(g)), acked)
  {
    if MidPass(g) {
      MidPassEffect(w, id, p, g, e);
    }
  }

  lemma DeliverForgets(w: World, id: Key, p: Part, step: Step, e: Effect, acked: Option<Spec>)
    requires id in w.parts && w.parts[id] == p && Sound(p, acked) && !Forgotten(p, acked)
    requires step.Deliver? && PartNext(w, id, p, step) == Some(e)
    ensures Sound(e.part, acked) && (Forgotten(e.part, acked) <==> Forgets(w, id, On(id, step), acked))
  {
  }

  // The event of a version that follows the last one.
  lemma LastEventLeft(qsec: seq<Version>, n: Version, seen: nat)
    requires |qsec| > 0 && seen <= |qsec|
    requires seen == 0 || GenerationWatch(Last(qsec).obj, n.obj) || EventLeft(qsec, seen)
    ensures EventLeft(qsec + [n], seen)
  {
    var all := qsec + [n];
    if seen > 0 && EventLeft(qsec, seen) {
      var a: nat, b: nat :| seen <= a + 1 && a < b < |qsec| && GenerationWatch(qsec[a].obj, qsec[b].obj);
      assert all[a] == qsec[a] && all[b] == qsec[b];
    } else if seen > 0 {
      assert all[|qsec| - 1] == Last(qsec) && all[|qsec|] == n;
    }
  }

  lemma FlagsStillStay(qsec: seq<Version>, n: Version)
    requires |qsec| > 0 && FlagsStay(qsec)
    requires Last(qsec).obj.status.generated.Some? ==> n.obj.status.generated.Some?
    ensures FlagsStay(qsec + [n])
  {
  }

  // A new version leaves an event, or nothing to generate, unless the quarks secret
  // was of the copy type and never generated.
  lemma VersionNotForgotten(p: Part, p': Part, n: Version, acked: Option<Spec>)
    requires Sound(p, acked) && !Forgotten(p, acked)
    requires p'.gen == p.gen && p'.qsec == p.qsec + [n] && |p'.csr| > 0
    requires n.obj.status.generated == Last(p.qsec).obj.status.generated || n.obj.status.NotGenerated()
    ensures Sound(p', acked)
    ensures Forgotten(p', acked) ==>
              && Last(p.qsec).obj.spec.secretType.SecretCopy? && !n.obj.spec.secretType.SecretCopy?
              && Last(p.qsec).obj.status.generated.None? && n.obj.status.generated.None? && NothingPending(p)
  {
    FlagsStillStay(p.qsec, n);
    var flag := Last(p.qsec).obj.status.generated;
    assert flag.Some? ==> flag == Some(if flag.value then true else false);
    if GenerationWatch(Last(p.qsec).obj, n.obj) || EventLeft(p.qsec, p.gen.queue.seen) {
      LastEventLeft(p.qsec, n, p.gen.queue.seen);
    }
  }

  // With the flag unset no edit passes the watch.
  lemma UnsetEditPasses(p: Part, n: Version)
    requires |p.qsec| > 0 && FlagsStay(p.qsec) && NothingPending(p)
    requires Last(p.qsec).obj.status.generated.None? && n.obj.status.generated.None?
    ensures !EventLeft(p.qsec + [n], p.gen.queue.seen)
  {
    var all := p.qsec + [n];
    forall a: nat, b: nat | p.gen.queue.seen <= a + 1 && a < b < |all|
      ensures !GenerationWatch(all[a].obj, all[b].obj)
    {
      assert all[a] == p.qsec[a];
      if b < |p.qsec| {
        assert all[b] == p.qsec[b];
      }
    }
  }

  lemma EditForgets(w: World, id: Key, p: Part, annotations: StringMap, spec: Spec, e: Effect, acked: Option<Spec>)
    requires id in w.parts && w.parts[id] == p && Sound(p, acked) && !Forgotten(p, acked)
    requires PartNext(w, id, p, EditSpec(annotations, spec)) == Some(e)
    ensures Sound(e.part, acked)
    ensures Forgotten(e.part, acked) <==> Forgets(w, id, On(id, EditSpec(annotations, spec)), acked)
  {
    var n := Last(e.part.qsec);
    VersionNotForgotten(p, e.part, n, acked);
    if Forgets(w, id, On(id, EditSpec(annotations, spec)), acked) {
      UnsetEditPasses(p, n);
    }
  }

  // Rotations, the other controllers and the watch of secrets forget nothing.
  lemma OthersForgetNothing(w: World, id: Key, p: Part, step: Step, e: Effect, acked: Option<Spec>)
    requires Sound(p, acked) && !Forgotten(p, acked) && PartNext(w, id, p, step) == Some(e)
    requires !step.Generate? && !step.Deliver? && !step.EditSpec?
    ensures Sound(e.part, acked) && !Forgotten(e.part, acked)
  {
    PartGrows(w, id, p, step, e);
    match step {
      case Copy(c) => CopyEffect(w, id, p, c, e);
      case SyncMetadata(m) => MetadataEffect(w, id, p, m, e);
      case Sign(s) => CsrEffect(w, id, p, s, e);
      case _ =>
    }
    if e.part.qsec != p.qsec {
      VersionNotForgotten(p, e.part, Last(e.part.qsec), acked);
    }
  }

  lemma StepForgets(w: World, id: Key, step: Step, e: Effect, acked: Option<Spec>)
    requires id in w.parts && Sound(w.parts[id], acked) && !Forgotten(w.parts[id], acked)
    requires PartNext(w, id, w.parts[id], step) == Some(e)
    ensures var acked' := AckedAfter(w, On(id, step), id, acked);
            Sound(e.part, acked') && (Forgotten(e.part, acked') <==> Forgets(w, id, On(id, step), acked))
  {
    var p := w.parts[id];
    match step {
      case Generate(g) =>
        if g.GenAcknowledge? {
          AcknowledgeForgets(w, id, p, e, acked);
        } else {
          GenerationForgets(w, id, p, g, e, acked);
        }
      case Deliver(_, _, _) => DeliverForgets(w, id, p, step, e, acked);
      case EditSpec(annotations, spec) => EditForgets(w, id, p, annotations, spec, e, acked);
      case _ => OthersForgetNothing(w, id, p, step, e, acked);
    }
  }

  lemma ActionForgets(w: World, a: Action, w': World, id: Key, acked: Option<Spec>)
    requires id in w.parts && Sound(w.parts[id], acked) && !Forgotten(w.parts[id], acked) && Next(w, a) == Some(w')
    ensures var acked' := AckedAfter(w, a, id, acked);
            && id in w'.parts && Sound(w'.parts[id], acked')
            && (Forgotten(w'.parts[id], acked') <==> Forgets(w, id, a, acked))
  {
    if a.On? && a.id == id {
      StepForgets(w, id, a.step, PartNext(w, id, w.parts[id], a.step).value, acked);
    } else {
      OthersLeaveAlone(w, a, w', id);
    }
  }

  // ---- Once it is forgotten ------------------------------------------------------

  // If the event of the last version is dropped, so is that of every older one: the
  // flags from there on are all unset, or all true with the same input.
  lemma OlderEventsLeft(p: Part, n: Version)
    requires |p.qsec| > 0 && FlagsStay(p.qsec) && 0 < p.gen.queue.seen && NothingPending(p)
    requires !GenerationWatch(Last(p.qsec).obj, n.obj)
    ensures !EventLeft(p.qsec + [n], p.gen.queue.seen)
  {
    var all := p.qsec + [n];
    forall a: nat, b: nat | p.gen.queue.seen <= a + 1 && a < b < |all|
      ensures !GenerationWatch(all[a].obj, all[b].obj)
    {
      assert all[a] == p.qsec[a];
      if b < |p.qsec| {
        assert all[b] == p.qsec[b];
      } else if a < |p.qsec| - 1 {
        assert !GenerationWatch(p.qsec[a].obj, p.qsec[|p.qsec| - 1].obj);
        var flag := Last(p.qsec).obj.status.generated;
        assert flag.Some? ==> flag == Some(if flag.value then true else false);
      }
    }
  }

  lemma VersionPends(p: Part, p': Part, n: Version)
    requires |p.qsec| > 0 && FlagsStay(p.qsec) && p.gen.queue.seen <= |p.qsec| && NothingPending(p)
    requires p'.gen == p.gen && p'.qsec == p.qsec + [n]
    ensures NothingPending(p') <==> !GenerationWatch(Last(p.qsec).obj, n.obj)
  {
    if GenerationWatch(Last(p.qsec).obj, n.obj) {
      LastEventLeft(p.qsec, n, p.gen.queue.seen);
    } else {
      OlderEventsLeft(p, n);
    }
  }

  lemma ForgottenStep(w: World, id: Key, p: Part, step: Step, e: Effect, acked: Option<Spec>)
    requires Sound(p, acked) && NothingPending(p) && PartNext(w, id, p, step) == Some(e)
    ensures Sound(e.part, acked)
    ensures NothingPending(e.part) <==>
            e.part.qsec == p.qsec || !GenerationWatch(Last(p.qsec).obj, Last(e.part.qsec).obj)
  {
    PartGrows(w, id, p, step, e);
    NothingStillPending(p, w, id, step, e);
    if e.part.qsec != p.qsec {
      var n := Last(e.part.qsec);
      assert e.part.qsec == p.qsec + [n];
      FlagsStillStay(p.qsec, n);
      VersionPends(p, e.part, n);
    }
  }

  lemma NothingPendingUntil(w: World, a: Action, w': World, id: Key, acked: Option<Spec>)
    requires id in w.parts && Sound(w.parts[id], acked) && NothingPending(w.parts[id]) && Next(w, a) == Some(w')
    ensures id in w'.parts && Sound(w'.parts[id], acked) && AckedAfter(w, a, id, acked) == acked
    ensures NothingPending(w'.parts[id]) <==>
            || w'.parts[id].qsec == w.parts[id].qsec
            || !GenerationWatch(Last(w.parts[id].qsec).obj, Last(w'.parts[id].qsec).obj)
  {
    if a.On? && a.id == id {
      ForgottenStep(w, id, w.parts[id], a.step, PartNext(w, id, w.parts[id], a.step).value, acked);
    } else {
      OthersLeaveAlone(w, a, w', id);
    }
  }

  // ---- Runs --------------------------------------------------------------------

  // The spec of the acknowledgement that was accepted last before time i.
  ghost function LastAcknowledged(run: seq<World>, acts: seq<Action>, i: nat, id: Key): Option<Spec>
    requires |run| == |acts| + 1 && i <= |acts|
  {
    if i == 0 then None else AckedAfter(run[i - 1], acts[i - 1], id, LastAcknowledged(run, acts, i - 1, id))
  }

  ghost predicate SoundAt(run: seq<World>, acts: seq<Action>, i: nat, id: Key)
    requires |run| == |acts| + 1 && i <= |acts|
  {
    var acked := LastAcknowledged(run, acts, i, id);
    if id in run[i].parts then Sound(run[i].parts[id], acked) else acked.None?
  }

  lemma ActionSound(w: World, a: Action, w': World, id: Key, acked: Option<Spec>)
    requires Next(w, a) == Some(w') && if id in w.parts then Sound(w.parts[id], acked) else acked.None?
    ensures var acked' := AckedAfter(w, a, id, acked);
            if id in w'.parts then Sound(w'.parts[id], acked') else acked'.None?
  {
    if id in w.parts {
      if Forgotten(w.parts[id], acked) {
        NothingPendingUntil(w, a, w', id, acked);
      } else {
        ActionForgets(w, a, w', id, acked);
      }
    } else if !(a.CreateQuarksSecret? && a.id == id) {
      OthersLeaveAlone(w, a, w', id);
    }
  }

  lemma {:induction false} SoundAlongRun(run: seq<World>, acts: seq<Action>, i: nat, id: Key)
    requires IsRun(run, acts) && Initial(run[0]) && i < |run|
    ensures SoundAt(run, acts, i, id)
  {
    if i > 0 {
      SoundAlongRun(run, acts, i - 1, id);
      assert Next(run[i - 1], acts[i - 1]) == Some(run[i]);
      ActionSound(run[i - 1], acts[i - 1], run[i], id, LastAcknowledged(run, acts, i - 1, id));
    }
  }

  ghost predicate ForgottenAt(run: seq<World>, acts: seq<Action>, i: nat, id: Key)
    requires |run| == |acts| + 1 && i <= |acts|
  {
    id in run[i].parts && Forgotten(run[i].parts[id], LastAcknowledged(run, acts, i, id))
  }

  // In every run: a step forgets what a quarks secret has to generate if and only if
  // it is one of the listed steps, with nothing else pending.
  lemma ForgottenExactlyBy(run: seq<World>, acts: seq<Action>, i: nat, id: Key)
    requires IsRun(run, acts) && Initial(run[0]) && i < |acts| && !ForgottenAt(run, acts, i, id)
    ensures ForgottenAt(run, acts, i + 1, id) <==>
            Forgets(run[i], id, acts[i], LastAcknowledged(run, acts, i, id))
  {
    SoundAlongRun(run, acts, i, id);
    assert Next(run[i], acts[i]) == Some(run[i + 1]);
    if id in run[i].parts {
      ActionForgets(run[i], acts[i], run[i + 1], id, LastAcknowledged(run, acts, i, id));
    } else if !(acts[i].CreateQuarksSecret? && acts[i].id == id) {
      OthersLeaveAlone(run[i], acts[i], run[i + 1], id);
    }
  }

  // It stays forgotten for as long as no new version passes the watch against the
  // version before, or takes the need away.
  lemma ForgottenUntil(run: seq<World>, acts: seq<Action>, i: nat, id: Key)
    requires IsRun(run, acts) && Initial(run[0]) && i < |acts| && ForgottenAt(run, acts, i, id)
    ensures id in run[i + 1].parts && |run[i + 1].parts[id].qsec| > 0
    ensures var o, n := run[i].parts[id].qsec, run[i + 1].parts[id].qsec;
            ForgottenAt(run, acts, i + 1, id) <==>
            o == n || (!GenerationWatch(Last(o).obj, Last(n).obj) && Needs(n, LastAcknowledged(run, acts, i, id)))
  {
    SoundAlongRun(run, acts, i, id);
    assert Next(run[i], acts[i]) == Some(run[i + 1]);
    NothingPendingUntil(run[i], acts[i], run[i + 1], id, LastAcknowledged(run, acts, i, id));
  }

  ghost predicate NeverFlagged(w: World, id: Key) {
    && id in w.parts && |w.parts[id].qsec| > 0
    && Last(w.parts[id].qsec).obj.status.generated.None? && NothingPending(w.parts[id])
  }

  lemma StaysUnflagged(w: World, a: Action, w': World, id: Key, acked: Option<Spec>)
    requires NeverFlagged(w, id) && Sound(w.parts[id], acked) && Next(w, a) == Some(w') && a != On(id, Rotate)
    ensures NeverFlagged(w', id)
  {
    NothingPendingUntil(w, a, w', id, acked);
    if a.On? && a.id == id && !a.step.EditSpec? {
      var e := PartNext(w, id, w.parts[id], a.step).value;
      match a.step {
        case Generate(g) => GenerationGrows(w, id, w.parts[id], g, e);
        case Copy(c) => CopyEffect(w, id, w.parts[id], c, e);
        case SyncMetadata(m) => MetadataEffect(w, id, w.parts[id], m, e);
        case Sign(s) => CsrEffect(w, id, w.parts[id], s, e);
        case _ =>
      }
    }
  }

  lemma NeverFlaggedNeeds(run: seq<World>, acts: seq<Action>, j: nat, id: Key)
    requires IsRun(run, acts) && Initial(run[0]) && j < |run| && NeverFlagged(run[j], id)
    ensures ForgottenAt(run, acts, j, id) <==> !Last(run[j].parts[id].qsec).obj.spec.secretType.SecretCopy?
  {
    SoundAlongRun(run, acts, j, id);
  }

  // With the flag unset: however often the spec is edited and whatever else goes on,
  // only a rotation gets it generated.
  lemma {:induction false} OnlyARotationHelps(run: seq<World>, acts: seq<Action>, i: nat, j: nat, id: Key)
    requires IsRun(run, acts) && Initial(run[0]) && i <= j < |run| && NeverFlagged(run[i], id)
    requires forall k :: i <= k < j ==> acts[k] != On(id, Rotate)
    ensures NeverFlagged(run[j], id)
    ensures ForgottenAt(run, acts, j, id) <==> !Last(run[j].parts[id].qsec).obj.spec.secretType.SecretCopy?
  {
    if i < j {
      OnlyARotationHelps(run, acts, i, j - 1, id);
      SoundAlongRun(run, acts, j - 1, id);
      assert Next(run[j - 1], acts[j - 1]) == Some(run[j]);
      StaysUnflagged(run[j - 1], acts[j - 1], run[j], id, LastAcknowledged(run, acts, j - 1, id));
    }
    NeverFlaggedNeeds(run, acts, j, id);
  }

  // ---- It does come up ----------------------------------------------------------

  // From the start: the user edits the spec during the first pass. Its
  // acknowledgement is a conflict, which is only logged, and the watch drops the
  // event of the edit.
  lemma FirstAcknowledgementConflicts(w: World, id: Key, spec: Spec, edited: Spec)
    returns (run: seq<World>, acts: seq<Action>)
    requires Initial(w) && spec.secretType == Password
    requires !edited.secretType.SecretCopy? && !SameButMetadata(spec, edited)
    ensures IsRun(run, acts) && run[0] == w && forall a :: a in acts ==> Works(a)
    ensures NeverFlagged(run[|acts|], id) && ForgottenAt(run, acts, |acts|, id)
    ensures Last(run[|acts|].parts[id].qsec).obj.spec == edited
  {
    var w';
    acts, w' := EditedDuringThePass(w, id, spec, edited);
    run := RunOf(w, acts, w');
    NeverFlaggedNeeds(run, acts, |acts|, id);
  }

  lemma EditedDuringThePass(w: World, id: Key, spec: Spec, edited: Spec) returns (acts: seq<Action>, w': World)
    requires Initial(w) && spec.secretType == Password
    requires !edited.secretType.SecretCopy? && !SameButMetadata(spec, edited)
    ensures Leads(w, acts, w') && forall a :: a in acts ==> Works(a)
    ensures NeverFlagged(w', id) && Last(w'.parts[id].qsec).obj.spec == edited
  {
    var first, w0, rest;
    first, w0 := FirstPass(w, id, spec);
    rest, w' := EditConflicts(w0, id, edited);
    LeadsOn(w, first, w0, rest, w');
    acts := first + rest;
  }

  lemma EditConflicts(w: World, id: Key, edited: Spec) returns (acts: seq<Action>, w': World)
    requires id in w.parts && |w.parts[id].csr| > 0 && |w.parts[id].qsec| == 1
    requires var p := w.parts[id];
             && p.qsec[0].obj.status.generated.None? && p.qsec[0].obj.spec != edited
             && p.gen.queue == Queue(1, false, None) && p.gen.pass.Acknowledging? && p.gen.pass.v == 0
    ensures Leads(w, acts, w') && forall a :: a in acts ==> Works(a)
    ensures NeverFlagged(w', id) && Last(w'.parts[id].qsec).obj.spec == edited
  {
    var p := w.parts[id];
    p := p.(qsec := p.qsec + [Version(p.qsec[0].obj.(annotations := map[], spec := edited), w.tokens, UserEdit)]);
    acts, w' := Then(w, [], w, id, EditSpec(map[], edited), p);
    p := p.(gen := p.gen.(pass := GenIdle));
    acts, w' := Then(w, acts, w', id, Generate(GenAcknowledge), p);
    p := p.(gen := p.gen.(queue := Queue(2, false, None)));
    acts, w' := Then(w, acts, w', id, Deliver(GenerationController, 2, false), p);
  }

  // From the start: the user edits the spec right after the first acknowledgement,
  // and the events of both are merged into one, which the watch drops.
  lemma MergedEventsAreDropped(w: World, id: Key, spec: Spec, edited: Spec)
    returns (run: seq<World>, acts: seq<Action>)
    requires Initial(w) && spec.secretType == Password
    requires !edited.secretType.SecretCopy? && !SameButMetadata(spec, edited)
    ensures IsRun(run, acts) && run[0] == w && forall a :: a in acts ==> Works(a)
    ensures ForgottenAt(run, acts, |acts|, id)
    ensures Last(run[|acts|].parts[id].qsec).obj.spec == edited
    ensures Last(run[|acts|].parts[id].qsec).obj.status.IsGenerated()
  {
    var first, w0, rest, w';
    first, w0 := FirstPass(w, id, spec);
    rest, w' := EditedAfterThePass(w0, id, edited);
    LeadsOn(w, first, w0, rest, w');
    acts := first + rest;
    run := RunOf(w, acts, w');
    var n := |first|;
    RunPasses(run, first, rest, w0);
    assert acts[n] == rest[0] && acts[n + 1] == rest[1] && acts[n + 2] == rest[2];
    assert LastAcknowledged(run, acts, n + 1, id) == Some(spec);
    assert LastAcknowledged(run, acts, n + 2, id) == Some(spec);
    assert LastAcknowledged(run, acts, n + 3, id) == Some(spec);
  }

  lemma EditedAfterThePass(w: World, id: Key, edited: Spec) returns (acts: seq<Action>, w': World)
    requires id in w.parts && |w.parts[id].csr| > 0 && |w.parts[id].qsec| == 1
    requires var p := w.parts[id];
             && p.qsec[0].obj.status.generated.None? && !SameButMetadata(p.qsec[0].obj.spec, edited)
             && p.gen.queue == Queue(1, false, None) && p.gen.pass.Acknowledging? && p.gen.pass.v == 0
    requires !edited.secretType.SecretCopy?
    ensures acts == [On(id, Generate(GenAcknowledge)), On(id, EditSpec(map[], edited)),
                     On(id, Deliver(GenerationController, 3, false))]
    ensures Leads(w, acts, w') && forall a :: a in acts ==> Works(a)
    ensures id in w'.parts && Forgotten(w'.parts[id], Some(w.parts[id].qsec[0].obj.spec))
    ensures Last(w'.parts[id].qsec).obj.spec == edited && Last(w'.parts[id].qsec).obj.status.IsGenerated()
  {
    var p := w.parts[id];
    var generated := p.qsec[0].obj.(status := Acknowledged(p.qsec[0].obj.status, w.clock));
    p := p.(gen := p.gen.(pass := GenIdle), qsec := p.qsec + [Version(generated, w.tokens, Generation)]);
    acts, w' := Then(w, [], w, id, Generate(GenAcknowledge), p);
    p := p.(qsec := p.qsec + [Version(generated.(annotations := map[], spec := edited), w'.tokens, UserEdit)]);
    acts, w' := Then(w, acts, w', id, EditSpec(map[], edited), p);
    p := p.(gen := p.gen.(queue := Queue(3, false, None)));
    acts, w' := Then(w, acts, w', id, Deliver(GenerationController, 3, false), p);
  }

  // A run passes through the states that its actions lead to.
  lemma {:induction false} RunPasses(run: seq<World>, first: seq<Action>, rest: seq<Action>, mid: World)
    requires IsRun(run, first + rest) && Leads(run[0], first, mid)
    ensures run[|first|] == mid
    decreases |first|
  {
    if first != [] {
      var acts := first + rest;
      assert Next(run[0], acts[0]) == Some(run[1]);
      assert acts[1..] == first[1..] + rest;
      forall i {:trigger Next(run[1..][i], acts[1..][i])} | 0 <= i < |acts| - 1
        ensures Next(run[1..][i], acts[1..][i]) == Some(run[1..][i + 1])
      {
        assert Next(run[i + 1], acts[i + 1]) == Some(run[i + 2]);
      }
      RunPasses(run[1..], first[1..], rest, mid);
    }
  }
}
