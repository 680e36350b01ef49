// When the copy controller comes to rest by itself: exactly when its pass starts
// from Copied=false. Otherwise the first status write of the pass gets through
// the controller's own watch, and it can go round for ever.
module CopyLoop {
  import opened Types
  import opened Operator

  // The key is queued, no pass runs, nothing is delayed, all events are delivered.
  predicate Queued(w: World, id: Key) {
    && id in w.parts
    && var p := w.parts[id];
       && |p.qsec| > 0 && |p.csr| > 0
       && p.copy == CopySide(Queue(|p.qsec|, true, None), CopyIdle)
  }

  function CopiedFlag(w: World, id: Key): Option<bool>
    requires id in w.parts && |w.parts[id].qsec| > 0
  {
    Last(w.parts[id].qsec).obj.status.copied
  }

  // Only the copy controller and its watch of quarks secrets act, and no call
  // fails.
  predicate CopyControllerOnly(a: Action, id: Key) {
    && a.On? && a.id == id
    && ((a.step.Deliver? && a.step.to.CopiesController?)
        || (a.step.Copy? && a.step.c !in {CopyClear(false), CopyMark(false), CopyCrash} && !a.step.c.CopyAbort?))
  }

  ghost predicate Schedule(w: World, id: Key, acts: seq<Action>, w': World) {
    Leads(w, acts, w') && forall a :: a in acts ==> CopyControllerOnly(a, id)
  }

  ghost predicate AtMost(w: World, id: Key, bound: nat) {
    forall acts, w' :: Schedule(w, id, acts, w') ==> |acts| <= bound
  }

  ghost predicate ComesToRest(w: World, id: Key) {
    exists bound: nat :: AtMost(w, id, bound)
  }

  lemma AndThen(w: World, id: Key, acts: seq<Action>, mid: World, a: Action, w': World)
    requires Schedule(w, id, acts, mid) && CopyControllerOnly(a, id) && Next(mid, a) == Some(w')
    ensures Schedule(w, id, acts + [a], w')
  {
    LeadsOneMore(w, acts, mid, a, w');
  }

  lemma Join(w: World, id: Key, acts: seq<Action>, mid: World, more: seq<Action>, w': World)
    requires Schedule(w, id, acts, mid) && Schedule(mid, id, more, w')
    ensures Schedule(w, id, acts + more, w')
  {
    LeadsOn(w, acts, mid, more, w');
  }

  // ---- Round and round ------------------------------------------------------

  // The pass reads the quarks secret.
  lemma Fetches(w: World, id: Key) returns (acts: seq<Action>, w': World)
    requires Queued(w, id)
    ensures Schedule(w, id, acts, w') && |acts| == 2 && id in w'.parts
    ensures var p := w.parts[id];
            w'.parts[id] == p.(copy := CopySide(Queue(|p.qsec|, false, None), Clearing(|p.qsec| - 1)))
  {
    var n := |w.parts[id].qsec|;
    var a1, a2 := On(id, Copy(CopyPop)), On(id, Copy(CopyFetch(n - 1)));
    var w1 := Next(w, a1).value;
    w' := Next(w1, a2).value;
    OneStep(w, a1, w1);
    AndThen(w, id, [a1], w1, a2, w');
    acts := [a1] + [a2];
  }

  // A flag that is not false already is cleared, which makes a new version.
  lemma Clears(w: World, id: Key, n: nat) returns (a: Action, w': World)
    requires id in w.parts && |w.parts[id].qsec| == n > 0 && |w.parts[id].csr| > 0
    requires w.parts[id].copy == CopySide(Queue(n, false, None), Clearing(n - 1))
    requires CopiedFlag(w, id) != Some(false)
    ensures CopyControllerOnly(a, id) && Next(w, a) == Some(w') && id in w'.parts
    ensures |w'.parts[id].qsec| == n + 1 && |w'.parts[id].csr| > 0 && CopiedFlag(w', id) == Some(false)
    ensures w'.parts[id].copy == CopySide(Queue(n, false, None), CopyingAll(n))
  {
    a := On(id, Copy(CopyClear(true)));
    w' := Next(w, a).value;
  }

  // That version passes the watch and queues the key again.
  lemma QueuesItself(w: World, id: Key, n: nat) returns (a: Action, w': World)
    requires id in w.parts && |w.parts[id].qsec| == n + 1 && n > 0 && |w.parts[id].csr| > 0
    requires CopiedFlag(w, id) == Some(false)
    requires w.parts[id].copy == CopySide(Queue(n, false, None), CopyingAll(n))
    ensures CopyControllerOnly(a, id) && Next(w, a) == Some(w') && id in w'.parts
    ensures w'.parts[id] == w.parts[id].(copy := CopySide(Queue(n + 1, true, None), CopyingAll(n)))
  {
    a := On(id, Deliver(CopiesController, n + 1, false));
    w' := Next(w, a).value;
  }

  // The copies are made and marked.
  lemma Marks(w: World, id: Key, n: nat) returns (acts: seq<Action>, w': World)
    requires id in w.parts && |w.parts[id].qsec| == n + 1 && n > 0 && |w.parts[id].csr| > 0
    requires CopiedFlag(w, id) == Some(false) && w.parts[id].copy.pass == CopyingAll(n)
    ensures Schedule(w, id, acts, w') && |acts| == 2 && id in w'.parts
    ensures |w'.parts[id].qsec| == n + 2 && |w'.parts[id].csr| > 0 && CopiedFlag(w', id) == Some(true)
    ensures w'.parts[id].copy == CopySide(w.parts[id].copy.queue, CopyIdle)
  {
    var a1, a2 := On(id, Copy(CopyAll(0))), On(id, Copy(CopyMark(true)));
    var w1 := Next(w, a1).value;
    w' := Next(w1, a2).value;
    OneStep(w, a1, w1);
    AndThen(w, id, [a1], w1, a2, w');
    acts := [a1] + [a2];
  }

  lemma SeesTheEnd(w: World, id: Key, n: nat, dirty: bool) returns (a: Action, w': World)
    requires id in w.parts && |w.parts[id].qsec| == n + 2 && n > 0 && |w.parts[id].csr| > 0
    requires CopiedFlag(w, id) == Some(true)
    requires w.parts[id].copy.pass == CopyIdle && w.parts[id].copy.queue.dirty == dirty
    requires n <= w.parts[id].copy.queue.seen <= n + 1 && w.parts[id].copy.queue.waiting == None
    ensures CopyControllerOnly(a, id) && Next(w, a) == Some(w') && id in w'.parts
    ensures w'.parts[id] == w.parts[id].(copy := CopySide(Queue(n + 2, dirty, None), CopyIdle))
  {
    a := On(id, Deliver(CopiesController, n + 2, false));
    w' := Next(w, a).value;
  }

  // One round: seven steps, two status writes, and the key is queued again.
  lemma GoesRound(w: World, id: Key) returns (acts: seq<Action>, w': World)
    requires Queued(w, id) && CopiedFlag(w, id) != Some(false)
    ensures Schedule(w, id, acts, w') && |acts| == 7
    ensures Queued(w', id) && CopiedFlag(w', id) != Some(false)
  {
    var n := |w.parts[id].qsec|;
    var first, w1 := Fetches(w, id);
    var a2, w2 := Clears(w1, id, n);
    AndThen(w, id, first, w1, a2, w2);
    var a3, w3 := QueuesItself(w2, id, n);
    AndThen(w, id, first + [a2], w2, a3, w3);
    var more, w4 := Marks(w3, id, n);
    Join(w, id, first + [a2] + [a3], w3, more, w4);
    var a5, w5 := SeesTheEnd(w4, id, n, true);
    AndThen(w, id, first + [a2] + [a3] + more, w4, a5, w5);
    acts, w' := first + [a2] + [a3] + more + [a5], w5;
  }

  lemma {:induction false} GoesRoundAndRound(w: World, id: Key, rounds: nat)
    requires Queued(w, id) && CopiedFlag(w, id) != Some(false)
    ensures exists acts, w' :: Schedule(w, id, acts, w') && |acts| == 7 * rounds && Queued(w', id)
                               && CopiedFlag(w', id) != Some(false)
    decreases rounds
  {
    if rounds == 0 {
      assert Schedule(w, id, [], w);
    } else {
      var first, w1 := GoesRound(w, id);
      GoesRoundAndRound(w1, id, rounds - 1);
      var rest, w' :| Schedule(w1, id, rest, w') && |rest| == 7 * (rounds - 1) && Queued(w', id)
                      && CopiedFlag(w', id) != Some(false);
      Join(w, id, first, w1, rest, w');
    }
  }

  // It need not: when the watch merges both events of a pass into one, the
  // controller comes to rest after that pass.
  lemma MergedEventsStopIt(w: World, id: Key) returns (acts: seq<Action>, w': World)
    requires Queued(w, id) && CopiedFlag(w, id) != Some(false)
    ensures Schedule(w, id, acts, w') && id in w'.parts && |w'.parts[id].qsec| > 0 && CopiedFlag(w', id) == Some(true)
    ensures w'.parts[id].copy == CopySide(Queue(|w'.parts[id].qsec|, false, None), CopyIdle)
  {
    var n := |w.parts[id].qsec|;
    var first, w1 := Fetches(w, id);
    var a2, w2 := Clears(w1, id, n);
    AndThen(w, id, first, w1, a2, w2);
    var more, w3 := Marks(w2, id, n);
    Join(w, id, first + [a2], w2, more, w3);
    var a4, w4 := SeesTheEnd(w3, id, n, false);
    AndThen(w, id, first + [a2] + more, w3, a4, w4);
    acts, w' := first + [a2] + more + [a4], w4;
  }

  // ---- To an end ----------------------------------------------------------------

  // The steps left in a pass that found Copied=false in version n - 1 and writes
  // one new version.
  function StepsLeft(p: Part, n: nat): Option<nat>
    requires n > 0
  {
    var q, pass := p.copy.queue, p.copy.pass;
    if q.waiting.Some? || |p.qsec| < n then None
    else if |p.qsec| == n then
      if q.seen != n || p.qsec[n - 1].obj.status.copied != Some(false) then None
      else if q.dirty then if pass == CopyIdle then Some(6) else None
      else
        match pass
        case CopyFetching => Some(5)
        case Clearing(v) => if v == n - 1 then Some(4) else None
        case CopyingAll(v) => if v == n - 1 then Some(3) else None
        case Marking(v, _) => if v == n - 1 then Some(2) else None
        case CopyIdle => None
    else if |p.qsec| == n + 1 && pass == CopyIdle && !q.dirty && p.qsec[n].obj.status.copied == Some(true) then
      if q.seen == n then Some(1) else if q.seen == n + 1 then Some(0) else None
    else None
  }

  lemma OneStepLess(w: World, id: Key, n: nat, a: Action, w': World)
    requires n > 0 && id in w.parts && StepsLeft(w.parts[id], n).Some?
    requires CopyControllerOnly(a, id) && Next(w, a) == Some(w')
    ensures id in w'.parts && StepsLeft(w'.parts[id], n).Some?
    ensures StepsLeft(w'.parts[id], n).value < StepsLeft(w.parts[id], n).value
  {
  }

  lemma {:induction false} NoMoreThanLeft(w: World, id: Key, n: nat, acts: seq<Action>, w': World)
    requires n > 0 && id in w.parts && StepsLeft(w.parts[id], n).Some? && Schedule(w, id, acts, w')
    ensures |acts| <= StepsLeft(w.parts[id], n).value
    decreases |acts|
  {
    if acts != [] {
      var w1 := Next(w, acts[0]).value;
      assert CopyControllerOnly(acts[0], id);
      OneStepLess(w, id, n, acts[0], w1);
      NoMoreThanLeft(w1, id, n, acts[1..], w');
    }
  }

  // The exact condition.
  lemma ComesToRestExactlyFromFalse(w: World, id: Key)
    requires Queued(w, id)
    ensures ComesToRest(w, id) <==> CopiedFlag(w, id) == Some(false)
  {
    if CopiedFlag(w, id) == Some(false) {
      forall acts, w' | Schedule(w, id, acts, w') ensures |acts| <= 6 {
        NoMoreThanLeft(w, id, |w.parts[id].qsec|, acts, w');
      }
      assert AtMost(w, id, 6);
    } else {
      forall bound: nat ensures !AtMost(w, id, bound) {
        GoesRoundAndRound(w, id, bound + 1);
      }
    }
  }
}
