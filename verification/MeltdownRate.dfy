// The meltdown window bounds how often a quarks secret is generated.
module MeltdownRate {
  import opened Types
  import opened Operator
  import opened Effects

  // The window of this status has passed.
  predicate Passed(status: Status, duration: nat, now: nat) {
    status.lastReconcile.Some? ==> status.lastReconcile.value + duration <= now
  }

  // What each version recorded, compared with the version before it.
  ghost predicate Recorded(o: Version, n: Version, duration: nat, now: nat) {
    if n.writer == Generation then
      && n.obj.status.lastReconcile.Some?
      && n.obj.status.lastReconcile.value <= now
      && Passed(o.obj.status, duration, n.obj.status.lastReconcile.value)
    else
      n.obj.status.lastReconcile == o.obj.status.lastReconcile
  }

  ghost predicate Paced(p: Part, duration: nat, now: nat) {
    && |p.qsec| > 0 && |p.csr| > 0
    && p.qsec[0].writer != Generation && p.qsec[0].obj.status.lastReconcile == None
    && (forall i :: 0 < i < |p.qsec| ==> Recorded(p.qsec[i - 1], p.qsec[i], duration, now))
    && var v := ReadBy(p.gen.pass);
       v.Some? ==> v.value < |p.qsec| && Passed(p.qsec[v.value].obj.status, duration, now)
  }

  lemma PacedGeneration(w: World, id: Key, p: Part, g: GenerationStep, e: Effect)
    requires Paced(p, w.config.meltdownDuration, w.clock)
    requires forall i :: 0 <= i < |p.qsec| ==> Passed(p.qsec[i].obj.status, 0, w.clock)
    requires GenerationNext(w, id, p, g) == Some(e)
    ensures Paced(e.part, w.config.meltdownDuration, w.clock)
  {
    if MidPass(g) {
      MidPassEffect(w, id, p, g, e);
    }
  }

  lemma {:induction false} TimesArePast(p: Part, duration: nat, now: nat, i: nat)
    requires Paced(p, duration, now) && i < |p.qsec|
    ensures Passed(p.qsec[i].obj.status, 0, now)
  {
    if i > 0 {
      TimesArePast(p, duration, now, i - 1);
      assert Recorded(p.qsec[i - 1], p.qsec[i], duration, now);
    }
  }

  // A version by anyone else carries the recorded time on.
  lemma PacedVersion(p: Part, p': Part, duration: nat, now: nat)
    requires Paced(p, duration, now) && |p'.csr| > 0 && ReadBy(p'.gen.pass) == ReadBy(p.gen.pass)
    requires p'.qsec == p.qsec
             || (|p'.qsec| > 0 && p'.qsec == p.qsec + [Last(p'.qsec)] && Last(p'.qsec).writer != Generation
                 && Last(p'.qsec).obj.status.lastReconcile == Last(p.qsec).obj.status.lastReconcile)
    ensures Paced(p', duration, now)
  {
  }

  lemma PacedOther(w: World, id: Key, p: Part, step: Step, e: Effect)
    requires Paced(p, w.config.meltdownDuration, w.clock) && !step.Generate?
    requires PartNext(w, id, p, step) == Some(e)
    ensures Paced(e.part, w.config.meltdownDuration, w.clock)
  {
    match step {
      case Copy(c) => CopyEffect(w, id, p, c, e);
      case SyncMetadata(m) => MetadataEffect(w, id, p, m, e);
      case Sign(s) => CsrEffect(w, id, p, s, e);
      case _ =>
    }
    PacedVersion(p, e.part, w.config.meltdownDuration, w.clock);
  }

  lemma PacedStep(w: World, id: Key, p: Part, step: Step, e: Effect)
    requires Paced(p, w.config.meltdownDuration, w.clock) && PartNext(w, id, p, step) == Some(e)
    ensures Paced(e.part, w.config.meltdownDuration, w.clock)
  {
    if step.Generate? {
      forall i | 0 <= i < |p.qsec| ensures Passed(p.qsec[i].obj.status, 0, w.clock) {
        TimesArePast(p, w.config.meltdownDuration, w.clock, i);
      }
      PacedGeneration(w, id, p, step.g, e);
    } else {
      PacedOther(w, id, p, step, e);
    }
  }

  lemma {:induction false} PacedAlongRun(run: seq<World>, acts: seq<Action>, i: nat, id: Key)
    requires IsRun(run, acts) && Initial(run[0]) && i < |run| && id in run[i].parts
    ensures Paced(run[i].parts[id], run[i].config.meltdownDuration, run[i].clock)
  {
    if i > 0 {
      var a := acts[i - 1];
      assert Next(run[i - 1], a) == Some(run[i]);
      if id in run[i - 1].parts {
        PacedAlongRun(run, acts, i - 1, id);
        if a.On? && a.id == id {
          PacedStep(run[i - 1], id, run[i - 1].parts[id], a.step,
                    PartNext(run[i - 1], id, run[i - 1].parts[id], a.step).value);
        }
      }
    }
  }

  // The times of the recorded generations, oldest first.
  function Times(qsec: seq<Version>): seq<nat> {
    if qsec == [] then []
    else
      var v := Last(qsec);
      Times(qsec[..|qsec| - 1]) +
      if v.writer == Generation && v.obj.status.lastReconcile.Some?
      then [v.obj.status.lastReconcile.value] else []
  }

  ghost predicate Spaced(times: seq<nat>, duration: nat) {
    forall i, j :: 0 <= i < j < |times| ==> times[i] + duration <= times[j]
  }

  // The last recorded time is the one the last version carries.
  lemma {:induction false} TimesAreSpaced(p: Part, duration: nat, now: nat, n: nat)
    requires Paced(p, duration, now) && 0 < n <= |p.qsec|
    ensures var times := Times(p.qsec[..n]);
            && Spaced(times, duration)
            && p.qsec[n - 1].obj.status.lastReconcile == (if times == [] then None else Some(Last(times)))
  {
    var prefix := p.qsec[..n];
    assert prefix[..n - 1] == p.qsec[..n - 1];
    if n == 1 {
      assert Times(prefix[..0]) == [];
    } else {
      TimesAreSpaced(p, duration, now, n - 1);
      assert Recorded(p.qsec[n - 2], p.qsec[n - 1], duration, now);
    }
  }

  function Within(times: seq<nat>, start: nat, length: nat): seq<nat> {
    if times == [] then []
    else Within(times[..|times| - 1], start, length) +
         if start <= Last(times) <= start + length then [Last(times)] else []
  }

  lemma {:induction false} WithinIsSpaced(times: seq<nat>, start: nat, length: nat, duration: nat)
    requires Spaced(times, duration)
    ensures var s := Within(times, start, length);
            && Spaced(s, duration)
            && (forall x :: x in s ==> x in times && start <= x <= start + length)
  {
    if times != [] {
      var rest := Within(times[..|times| - 1], start, length);
      WithinIsSpaced(times[..|times| - 1], start, length, duration);
      forall i | 0 <= i < |rest| ensures rest[i] + duration <= Last(times) {
        assert rest[i] in times[..|times| - 1];
      }
    }
  }

  lemma {:induction false} SpacedSpan(times: seq<nat>, duration: nat, n: nat)
    requires Spaced(times, duration) && 0 < n <= |times|
    ensures times[0] + (n - 1) * duration <= times[n - 1]
  {
    if n > 1 {
      SpacedSpan(times, duration, n - 1);
      assert times[n - 2] + duration <= times[n - 1];
      assert (n - 1) * duration == (n - 2) * duration + duration;
    }
  }

  // In every state of every run: two recorded generations of one quarks
  // secret are at least the meltdown duration apart, so a span of any length
  // that holds n of them has room for n - 1 durations.
  lemma MeltdownBoundsRate(run: seq<World>, acts: seq<Action>, i: nat, id: Key, start: nat, length: nat)
    requires IsRun(run, acts) && Initial(run[0]) && i < |run| && id in run[i].parts
    ensures var times := Times(run[i].parts[id].qsec);
            && Spaced(times, run[i].config.meltdownDuration)
            && var n := |Within(times, start, length)|;
               n > 0 ==> (n - 1) * run[i].config.meltdownDuration <= length
  {
    var p, duration := run[i].parts[id], run[i].config.meltdownDuration;
    PacedAlongRun(run, acts, i, id);
    assert p.qsec[..|p.qsec|] == p.qsec;
    TimesAreSpaced(p, duration, run[i].clock, |p.qsec|);
    var s := Within(Times(p.qsec), start, length);
    WithinIsSpaced(Times(p.qsec), start, length, duration);
    if s != [] {
      SpacedSpan(s, duration, |s|);
      assert s[0] in s && Last(s) in s;
    }
  }
}
