// After one rotation the generation and copy controllers come to rest, on
// every schedule, with everything generated and copied.
module Quiescence {
  import opened Types
  import opened Operator
  import opened Effects
  import Mutate

  // A type whose generation reads no other secret and needs no signer.
  predicate Independent(spec: Spec) {
    Producible(spec) && !ClusterSigned(spec) && !HasReferences(spec)
  }

  // Steps of the two controllers and their watches, without API errors, and
  // ticks of the clock. Loads for an update show the stored secret.
  predicate Smooth(w: World, id: Key, a: Action) {
    match a
    case Tick => true
    case On(other, step) =>
      other == id && id in w.parts && (
        match step
        case Deliver(to, _, _) => !to.SecretMetaController?
        case DeliverSecret(_) => true
        case Generate(g) =>
          (match g
           case GenAcknowledgeLost => false
           case GenAbort(_) => false
           case GenCrash => false
           case GenCheck(read) => read.Some?
           case GenLoad(i) =>
             w.parts[id].gen.pass.Loading? && w.parts[id].gen.pass.v < |w.parts[id].qsec| &&
             i + 1 == |History(w, Target(id, w.parts[id].qsec[w.parts[id].gen.pass.v].obj.spec))|
           case _ => true)
        case Copy(c) =>
          (match c
           case CopyClear(sent) => sent
           case CopyMark(sent) => sent
           case CopyAbort(_) => false
           case CopyCrash => false
           case _ => true)
        case _ => false)
    case _ => false
  }

  predicate AtRest(q: Queue) {
    !q.dirty && q.waiting.None?
  }

  predicate Flags(v: Version, generated: bool, copied: bool) {
    v.obj.status.generated == Some(generated) && v.obj.status.copied == Some(copied)
  }

  // Version n - 1 is the rotation of a secret that was generated and copied.
  predicate Rotated(p: Part, n: nat) {
    && 2 <= n <= |p.qsec|
    && Flags(p.qsec[n - 1], false, true)
    && Independent(p.qsec[n - 1].obj.spec)
    && forall i :: n - 2 <= i < |p.qsec| ==> p.qsec[i].obj.spec == p.qsec[n - 1].obj.spec
  }

  // Every version of the source secret is the operator's own.
  predicate SourceGenerated(w: World, id: Key, spec: Spec) {
    var h := History(w, Target(id, spec));
    forall i :: 0 <= i < |h| && h[i].Some? ==> IsGeneratedKind(h[i].value.labels)
  }

  // Waiting for generation: the event, the queue, the delay or the pass has it.
  predicate Generating(w: World, id: Key, p: Part, n: nat)
    requires n > 0
  {
    && |p.qsec| == n
    && p.copy.pass == CopyIdle && AtRest(p.copy.queue) && n - 1 <= p.copy.queue.seen <= n
    && (Last(p.qsec).obj.status.lastReconcile.Some? ==> Last(p.qsec).obj.status.lastReconcile.value <= w.clock)
    && var q, pass := p.gen.queue, p.gen.pass;
       if q.seen == n - 1 then pass == GenIdle && AtRest(q)
       else
         && q.seen == n
         && (q.waiting.Some? ==>
               pass == GenIdle && !q.dirty && q.waiting.value <= w.clock + w.config.meltdownRequeueAfter)
         && (q.dirty ==> pass == GenIdle)
         && (q.dirty || q.waiting.Some? || !pass.GenIdle?)
         && (match pass
             case GenIdle => true
             case GenFetching => true
             case ReadingCsr(_, _, _) => false
             case CreatingCsr(_, _, _) => false
             case Storing(v, _, base) =>
               v == n - 1 && base + 1 == |History(w, Target(id, Last(p.qsec).obj.spec))|
             case _ => pass.v == n - 1)
  }

  // Generated; waiting for the copies.
  predicate Copying(p: Part, n: nat) {
    && |p.qsec| == n + 1 && Flags(p.qsec[n], true, false)
    && p.gen.pass == GenIdle && AtRest(p.gen.queue) && n <= p.gen.queue.seen <= n + 1
    && var q, pass := p.copy.queue, p.copy.pass;
       && q.waiting.None?
       && if q.seen <= n then n - 1 <= q.seen && pass == CopyIdle && !q.dirty
          else
            && q.seen == n + 1 && (q.dirty <==> pass == CopyIdle)
            && (pass == CopyIdle || pass == CopyFetching || pass == Clearing(n) || pass == CopyingAll(n)
                || (pass.Marking? && pass.v == n))
  }

  // Everything is done; the last events are on their way.
  predicate Finishing(p: Part, n: nat) {
    && |p.qsec| == n + 2 && Flags(p.qsec[n], true, false) && Flags(p.qsec[n + 1], true, true)
    && p.gen.pass == GenIdle && AtRest(p.gen.queue) && n <= p.gen.queue.seen <= n + 2
    && p.copy.pass == CopyIdle && AtRest(p.copy.queue) && n + 1 <= p.copy.queue.seen <= n + 2
  }

  predicate Phased(w: World, id: Key, n: nat) {
    && id in w.parts && |w.parts[id].csr| > 0 && w.config.meltdownRequeueAfter > 0
    && Rotated(w.parts[id], n) && SourceGenerated(w, id, w.parts[id].qsec[n - 1].obj.spec)
    && (Generating(w, id, w.parts[id], n) || Copying(w.parts[id], n) || Finishing(w.parts[id], n))
  }

  predicate Final(p: Part, n: nat) {
    Finishing(p, n) && p.gen.queue.seen == |p.qsec| && p.copy.queue.seen == |p.qsec|
  }

  // ---- The work that is left ------------------------------------------------

  function Remaining(status: Status, duration: nat, now: nat): nat {
    if status.lastReconcile.Some? && now < status.lastReconcile.value + duration
    then status.lastReconcile.value + duration - now else 0
  }

  function Later(a: nat, b: nat): nat {
    if a < b then b else a
  }

  // The meltdown time left when the key is looked at next.
  function MeltdownLeft(w: World, p: Part): nat
    requires |p.qsec| > 0
  {
    Remaining(Last(p.qsec).obj.status, w.config.meltdownDuration,
              if p.gen.queue.waiting.Some? then Later(p.gen.queue.waiting.value, w.clock) else w.clock)
  }

  function GenerationWork(w: World, p: Part, n: nat): nat {
    var q := p.gen.queue;
    if q.seen < n then 12
    else if q.waiting.Some? then 12 + (Later(q.waiting.value, w.clock) - w.clock)
    else
      match p.gen.pass
      case GenIdle => 11
      case GenFetching => 10
      case Resolving(_) => 9
      case Checking(_, _) => 8
      case Loading(_, _) => 7
      case Storing(_, _, _) => 6
      case _ => 5
  }

  function CopyWork(p: Part, n: nat): nat {
    if p.copy.queue.seen <= n then 10 + (n - p.copy.queue.seen)
    else
      match p.copy.pass
      case CopyIdle => 9
      case CopyFetching => 8
      case Clearing(_) => 7
      case CopyingAll(_) => 6
      case Marking(_, _) => 5
  }

  function Behind(p: Part, q: Queue): nat {
    if q.seen <= |p.qsec| then |p.qsec| - q.seen else 0
  }

  // Zero exactly when all is done.
  function Work(w: World, p: Part, n: nat): nat
    requires |p.qsec| > 0
  {
    if |p.qsec| <= n then
      30 + MeltdownLeft(w, p) * (w.config.meltdownRequeueAfter + 10) + GenerationWork(w, p, n) + Behind(p, p.copy.queue)
    else if |p.qsec| == n + 1 then 4 + CopyWork(p, n) + Behind(p, p.gen.queue)
    else Behind(p, p.gen.queue) + Behind(p, p.copy.queue)
  }

  lemma TimesLess(a: nat, b: nat, y: nat)
    requires a < b
    ensures a * y + y <= b * y
  {
    assert (b - a - 1) * y >= 0;
    assert b * y == a * y + y + (b - a - 1) * y;
  }

  lemma TimesNotMore(a: nat, b: nat, y: nat)
    requires a <= b
    ensures a * y <= b * y
  {
    assert b * y == a * y + (b - a) * y;
  }

  // ---- Every step does some of it -----------------------------------------

  // The outcome of a step from a phase: still in a phase, with less to do.
  ghost predicate Advances(w: World, id: Key, e: Effect, n: nat)
    requires id in w.parts && |w.parts[id].qsec| > 0
  {
    var w' := Apply(w, id, e);
    Phased(w', id, n) && Work(w', e.part, n) < Work(w, w.parts[id], n)
  }

  // In the meltdown window the key waits, and the wait eats up the window.
  lemma FetchAdvances(w: World, id: Key, v: nat, e: Effect, n: nat)
    requires Phased(w, id, n) && Generating(w, id, w.parts[id], n)
    requires GenerationNext(w, id, w.parts[id], GenFetch(v)) == Some(e)
    ensures Advances(w, id, e, n)
  {
    var p, y := w.parts[id], w.config.meltdownRequeueAfter + 10;
    assert v == n - 1;
    if e.part.gen.pass.GenIdle? {
      TimesLess(MeltdownLeft(w, e.part), MeltdownLeft(w, p), y);
    }
  }

  lemma AcknowledgeAdvances(w: World, id: Key, e: Effect, n: nat)
    requires Phased(w, id, n) && Generating(w, id, w.parts[id], n)
    requires GenerationNext(w, id, w.parts[id], GenAcknowledge) == Some(e)
    ensures Advances(w, id, e, n)
  {
    var p := w.parts[id];
    assert e.part.qsec == p.qsec + [Last(e.part.qsec)];
    assert MeltdownLeft(w, p) * (w.config.meltdownRequeueAfter + 10) >= 0;
  }

  lemma StoreShape(w: World, id: Key, wanted: Mutate.Wanted<Datum>, retryAt: nat, e: Effect, n: nat)
    requires Phased(w, id, n) && Generating(w, id, w.parts[id], n)
    requires GenerationNext(w, id, w.parts[id], GenStore(wanted, retryAt)) == Some(e)
    ensures e.part == w.parts[id].(gen := w.parts[id].gen.(pass := Acknowledging(n - 1, w.parts[id].gen.pass.token)))
    ensures SourceGenerated(Apply(w, id, e), id, w.parts[id].qsec[n - 1].obj.spec)
  {
    var p := w.parts[id];
    var target := Target(id, p.qsec[n - 1].obj.spec);
    var o := StoreOutcomes(w, id, p, wanted, retryAt, e);
    HistoryAfter(w, id, e, target);
  }

  lemma StoreAdvances(w: World, id: Key, wanted: Mutate.Wanted<Datum>, retryAt: nat, e: Effect, n: nat)
    requires Phased(w, id, n) && Generating(w, id, w.parts[id], n)
    requires GenerationNext(w, id, w.parts[id], GenStore(wanted, retryAt)) == Some(e)
    ensures Advances(w, id, e, n)
  {
    StoreShape(w, id, wanted, retryAt, e, n);
    AcknowledgingAdvances(w, id, e, n);
  }

  lemma AcknowledgingAdvances(w: World, id: Key, e: Effect, n: nat)
    requires Phased(w, id, n) && Generating(w, id, w.parts[id], n) && w.parts[id].gen.pass.Storing?
    requires e.part == w.parts[id].(gen := w.parts[id].gen.(pass := Acknowledging(n - 1, w.parts[id].gen.pass.token)))
    requires SourceGenerated(Apply(w, id, e), id, w.parts[id].qsec[n - 1].obj.spec)
    ensures Advances(w, id, e, n)
  {
  }

  // The key leaves the queue or the delay.
  lemma QueueAdvances(w: World, id: Key, g: GenerationStep, e: Effect, n: nat)
    requires Phased(w, id, n) && (g.GenPop? || g.GenTimer?)
    requires GenerationNext(w, id, w.parts[id], g) == Some(e)
    ensures Advances(w, id, e, n)
  {
    assert MeltdownLeft(w, e.part) == MeltdownLeft(w, w.parts[id]);
  }

  // The pass makes one more call.
  lemma PassAdvances(w: World, id: Key, g: GenerationStep, e: Effect, n: nat)
    requires Phased(w, id, n) && Smooth(w, id, On(id, Generate(g)))
    requires !g.GenPop? && !g.GenTimer? && !g.GenFetch? && !g.GenAcknowledge? && !g.GenStore?
    requires GenerationNext(w, id, w.parts[id], g) == Some(e)
    ensures Advances(w, id, e, n)
  {
    var p := w.parts[id];
    assert MidPass(g) && Generating(w, id, p, n);
    MidPassEffect(w, id, p, g, e);
    assert e.part == p.(gen := e.part.gen) && e.write == None && e.part.gen.pass != GenIdle;
    HistoryAfter(w, id, e, Target(id, p.qsec[n - 1].obj.spec));
    assert MeltdownLeft(w, e.part) == MeltdownLeft(w, p);
  }

  lemma GenerationAdvances(w: World, id: Key, g: GenerationStep, e: Effect, n: nat)
    requires Phased(w, id, n) && Smooth(w, id, On(id, Generate(g)))
    requires GenerationNext(w, id, w.parts[id], g) == Some(e)
    ensures Advances(w, id, e, n)
  {
    match g {
      case GenPop => QueueAdvances(w, id, g, e, n);
      case GenTimer => QueueAdvances(w, id, g, e, n);
      case GenFetch(v) => FetchAdvances(w, id, v, e, n);
      case GenAcknowledge => AcknowledgeAdvances(w, id, e, n);
      case GenStore(wanted, retryAt) => StoreAdvances(w, id, wanted, retryAt, e, n);
      case _ => PassAdvances(w, id, g, e, n);
    }
  }

  lemma MarkAdvances(w: World, id: Key, e: Effect, n: nat)
    requires Phased(w, id, n) && CopyNext(w, id, w.parts[id], CopyMark(true)) == Some(e)
    ensures Advances(w, id, e, n)
  {
    var p := w.parts[id];
    assert Copying(p, n) && p.copy.pass.Marking? && p.copy.pass.v == n;
    assert e.part.qsec == p.qsec + [Last(e.part.qsec)];
    assert Rotated(e.part, n) && Finishing(e.part, n);
  }

  // The other steps write nothing: the flag was cleared with the acknowledgement.
  lemma CopyPassAdvances(w: World, id: Key, c: CopyStep, e: Effect, n: nat)
    requires Phased(w, id, n) && Smooth(w, id, On(id, Copy(c))) && !c.CopyMark?
    requires CopyNext(w, id, w.parts[id], c) == Some(e)
    ensures Advances(w, id, e, n)
  {
    var p := w.parts[id];
    assert Copying(p, n);
    assert e.part == p.(copy := e.part.copy) && e.write == None;
    assert Copying(e.part, n) && Rotated(e.part, n);
    assert CopyWork(e.part, n) < CopyWork(p, n);
    HistoryAfter(w, id, e, Target(id, p.qsec[n - 1].obj.spec));
    assert SourceGenerated(Apply(w, id, e), id, p.qsec[n - 1].obj.spec);
  }

  lemma CopyAdvances(w: World, id: Key, c: CopyStep, e: Effect, n: nat)
    requires Phased(w, id, n) && Smooth(w, id, On(id, Copy(c)))
    requires CopyNext(w, id, w.parts[id], c) == Some(e)
    ensures Advances(w, id, e, n)
  {
    if c.CopyMark? {
      MarkAdvances(w, id, e, n);
    } else {
      CopyPassAdvances(w, id, c, e, n);
    }
  }

  lemma GenerationEventAdvances(w: World, id: Key, upto: nat, ownsSecret: bool, e: Effect, n: nat)
    requires Phased(w, id, n)
    requires DeliverNext(w.parts[id], GenerationController, upto, ownsSecret) == Some(e)
    ensures Advances(w, id, e, n)
  {
    var p := w.parts[id];
    assert MeltdownLeft(w, e.part) == MeltdownLeft(w, p);
    var o, v := p.qsec[p.gen.queue.seen - 1].obj, p.qsec[upto - 1].obj;
    assert o.spec == v.spec;
  }

  lemma CopyEventAdvances(w: World, id: Key, upto: nat, ownsSecret: bool, e: Effect, n: nat)
    requires Phased(w, id, n)
    requires DeliverNext(w.parts[id], CopiesController, upto, ownsSecret) == Some(e)
    ensures Advances(w, id, e, n)
  {
    var p := w.parts[id];
    assert e.write == None && e.part == p.(copy := p.copy.(queue := e.part.copy.queue));
    HistoryAfter(w, id, e, Target(id, p.qsec[n - 1].obj.spec));
    assert MeltdownLeft(w, e.part) == MeltdownLeft(w, p);
  }

  // The copy controller's watch of secrets lets no version of the source through.
  lemma SecretWatchIsSilent(w: World, id: Key, i: nat, n: nat)
    requires Phased(w, id, n)
    ensures PartNext(w, id, w.parts[id], DeliverSecret(i)) == None
  {
    assert Target(id, Last(w.parts[id].qsec).obj.spec) == Target(id, w.parts[id].qsec[n - 1].obj.spec);
  }

  lemma StepAdvances(w: World, id: Key, step: Step, w': World, n: nat)
    requires Phased(w, id, n) && Smooth(w, id, On(id, step)) && Next(w, On(id, step)) == Some(w')
    ensures Phased(w', id, n) && Work(w', w'.parts[id], n) < Work(w, w.parts[id], n)
  {
    var e := PartNext(w, id, w.parts[id], step).value;
    match step {
      case Generate(g) => GenerationAdvances(w, id, g, e, n);
      case Copy(c) => CopyAdvances(w, id, c, e, n);
      case Deliver(to, upto, ownsSecret) =>
        if to.GenerationController? {
          GenerationEventAdvances(w, id, upto, ownsSecret, e, n);
        } else {
          CopyEventAdvances(w, id, upto, ownsSecret, e, n);
        }
      case DeliverSecret(i) => SecretWatchIsSilent(w, id, i, n);
    }
  }

  lemma TickIsHarmless(w: World, id: Key, n: nat)
    requires Phased(w, id, n)
    ensures var w' := w.(clock := w.clock + 1);
            && Phased(w', id, n) && Work(w', w.parts[id], n) <= Work(w, w.parts[id], n)
            && (var t := w.parts[id].gen.queue.waiting;
                t.Some? && w.clock < t.value ==> Work(w', w.parts[id], n) < Work(w, w.parts[id], n))
  {
    var w', p := w.(clock := w.clock + 1), w.parts[id];
    var target := Target(id, p.qsec[n - 1].obj.spec);
    assert History(w', target) == History(w, target);
    assert SourceGenerated(w', id, p.qsec[n - 1].obj.spec);
    TimesNotMore(MeltdownLeft(w', p), MeltdownLeft(w, p), w.config.meltdownRequeueAfter + 10);
  }

  // ---- There is always a next step ------------------------------------------

  function NextGeneration(w: World, id: Key, p: Part, n: nat): Action
    requires 0 < n <= |p.qsec|
  {
    if p.gen.queue.seen < n then On(id, Deliver(GenerationController, n, false))
    else if p.gen.queue.dirty then On(id, Generate(GenPop))
    else if p.gen.queue.waiting.Some? then
      if p.gen.queue.waiting.value <= w.clock then On(id, Generate(GenTimer)) else Tick
    else
      var spec := p.qsec[n - 1].obj.spec;
      On(id, Generate(
        match p.gen.pass
        case GenFetching => GenFetch(n - 1)
        case Resolving(_) => GenProduce
        case Checking(_, _) => GenCheck(Some(0))
        case Loading(_, _) => GenLoad(|History(w, Target(id, spec))| - 1)
        case Storing(_, token, _) => GenStore(SomeWanted(spec, token), w.clock)
        case _ => GenAcknowledge))
  }

  function NextCopy(p: Part, id: Key, n: nat): Action {
    if p.copy.queue.seen <= n then On(id, Deliver(CopiesController, n + 1, false))
    else
      On(id, Copy(
        match p.copy.pass
        case CopyIdle => CopyPop
        case CopyFetching => CopyFetch(n)
        case Clearing(_) => CopyClear(true)
        case CopyingAll(_) => CopyAll(0)
        case Marking(_, _) => CopyMark(true)))
  }

  function NextAction(w: World, id: Key, p: Part, n: nat): Action
    requires 0 < n <= |p.qsec|
  {
    if |p.qsec| == n then NextGeneration(w, id, p, n)
    else if |p.qsec| == n + 1 then NextCopy(p, id, n)
    else if p.gen.queue.seen < |p.qsec| then On(id, Deliver(GenerationController, |p.qsec|, false))
    else On(id, Deliver(CopiesController, |p.qsec|, false))
  }

  lemma GenerationIsEnabled(w: World, id: Key, n: nat)
    requires Phased(w, id, n) && Generating(w, id, w.parts[id], n)
    ensures var a := NextGeneration(w, id, w.parts[id], n);
            Smooth(w, id, a) && Next(w, a).Some?
  {
  }

  lemma CopyIsEnabled(w: World, id: Key, n: nat)
    requires Phased(w, id, n) && Copying(w.parts[id], n)
    ensures var a := NextCopy(w.parts[id], id, n);
            Smooth(w, id, a) && Next(w, a).Some?
  {
  }

  // Short of the end, some step can be taken now and brings the end nearer.
  lemma NeverStuck(w: World, id: Key, n: nat)
    requires Phased(w, id, n) && !Final(w.parts[id], n)
    ensures var a := NextAction(w, id, w.parts[id], n);
            Smooth(w, id, a) && Next(w, a).Some? &&
            var w' := Next(w, a).value;
            Phased(w', id, n) && Work(w', w'.parts[id], n) < Work(w, w.parts[id], n)
  {
    var p := w.parts[id];
    var a := NextAction(w, id, p, n);
    if |p.qsec| == n {
      GenerationIsEnabled(w, id, n);
    } else if |p.qsec| == n + 1 {
      CopyIsEnabled(w, id, n);
    }
    if a.Tick? {
      TickIsHarmless(w, id, n);
    } else {
      StepAdvances(w, id, a.step, Next(w, a).value, n);
    }
  }

  lemma NothingLeftIsFinal(w: World, id: Key, n: nat)
    requires Phased(w, id, n)
    ensures Work(w, w.parts[id], n) == 0 <==> Final(w.parts[id], n)
  {
  }

  // ---- Schedules --------------------------------------------------------------

  // The rotation has just been written; everything before it has settled, and the
  // source secret is a generated one.
  predicate JustRotated(w: World, id: Key, n: nat) {
    && id in w.parts && w.config.meltdownRequeueAfter > 0
    && var p := w.parts[id];
       && |p.csr| > 0 && |p.qsec| == n && Rotated(p, n) && SourceGenerated(w, id, p.qsec[n - 1].obj.spec)
       && p.gen == GenerationSide(Queue(n - 1, false, None), GenIdle)
       && p.copy == CopySide(Queue(n - 1, false, None), CopyIdle)
       && (var t := Last(p.qsec).obj.status.lastReconcile; t.Some? ==> t.value <= w.clock)
  }

  function Busy(acts: seq<Action>): nat {
    if acts == [] then 0 else Busy(acts[..|acts| - 1]) + (if Last(acts).Tick? then 0 else 1)
  }

  lemma JustRotatedIsPhased(w: World, id: Key, n: nat)
    requires JustRotated(w, id, n)
    ensures Phased(w, id, n)
  {
  }

  function WorkOf(w: World, id: Key, n: nat): nat {
    if id in w.parts && |w.parts[id].qsec| > 0 then Work(w, w.parts[id], n) else 0
  }

  lemma SmoothAction(w: World, id: Key, a: Action, w': World, n: nat)
    requires Phased(w, id, n) && Smooth(w, id, a) && Next(w, a) == Some(w')
    ensures Phased(w', id, n)
    ensures WorkOf(w', id, n) + (if a.Tick? then 0 else 1) <= WorkOf(w, id, n)
  {
    if a.Tick? {
      TickIsHarmless(w, id, n);
    } else {
      StepAdvances(w, id, a.step, w', n);
    }
  }

  lemma {:induction false} WorkShrinks(run: seq<World>, acts: seq<Action>, i: nat, id: Key, n: nat)
    requires IsRun(run, acts) && Phased(run[0], id, n) && i < |run|
    requires forall j :: 0 <= j < |acts| ==> Smooth(run[j], id, acts[j])
    ensures Phased(run[i], id, n) && Busy(acts[..i]) + WorkOf(run[i], id, n) <= WorkOf(run[0], id, n)
  {
    if i > 0 {
      WorkShrinks(run, acts, i - 1, id, n);
      assert acts[..i][..i - 1] == acts[..i - 1];
      assert Smooth(run[i - 1], id, acts[i - 1]);
      SmoothAction(run[i - 1], id, acts[i - 1], run[i - 1 + 1], n);
    }
  }

  // All is generated, copied and delivered, or some step can be taken that
  // leaves less to do.
  ghost predicate FinalOrGoesOn(w: World, id: Key, n: nat) {
    id in w.parts && (
      Final(w.parts[id], n)
      || exists a :: Smooth(w, id, a) && Next(w, a).Some? && Phased(Next(w, a).value, id, n)
                     && WorkOf(Next(w, a).value, id, n) < WorkOf(w, id, n))
  }

  lemma GoesOnUntilFinal(w: World, id: Key, n: nat)
    requires Phased(w, id, n)
    ensures FinalOrGoesOn(w, id, n)
  {
    if !Final(w.parts[id], n) {
      NeverStuck(w, id, n);
    }
  }

  // On every schedule: at most so many steps that are not ticks, and a
  // schedule that cannot go on has reached the end.
  lemma QuiescesOnEverySchedule(run: seq<World>, acts: seq<Action>, id: Key, n: nat)
    requires IsRun(run, acts) && JustRotated(run[0], id, n)
    requires forall j :: 0 <= j < |acts| ==> Smooth(run[j], id, acts[j])
    ensures Busy(acts) + WorkOf(Last(run), id, n) <= WorkOf(run[0], id, n)
    ensures FinalOrGoesOn(Last(run), id, n)
  {
    JustRotatedIsPhased(run[0], id, n);
    WorkShrinks(run, acts, |acts|, id, n);
    assert acts[..|acts|] == acts;
    GoesOnUntilFinal(Last(run), id, n);
  }
}
