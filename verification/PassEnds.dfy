// How the passes of the four controllers end, and that a pass that fails comes back.
module PassEnds {
  import opened Types
  import opened Operator

  // ---- Queues ----------------------------------------------------------------------

  // Of two delayed requeues the earlier one counts, and a delay of zero is none.
  lemma RequeueExactly(q: Queue, now: nat, delay: nat)
    ensures Requeue(q, now + delay) ==
            Queue(q.seen, q.dirty,
                  Some(if q.waiting.Some? && q.waiting.value <= now + delay then q.waiting.value else now + delay))
    ensures RequeueAfter(q, now, delay) == if delay > 0 then Requeue(q, now + delay) else q
  {
  }

  // A delayed key comes back when its time has come, and not before.
  lemma TimerExactly(w: World, id: Key)
    requires id in w.parts && |w.parts[id].qsec| > 0 && |w.parts[id].csr| > 0
    ensures var p := w.parts[id];
            var due := p.gen.queue.waiting.Some? && w.clock >= p.gen.queue.waiting.value;
            Next(w, On(id, Generate(GenTimer))) ==
            if due then Some(w.(parts := w.parts[id := p.(gen := p.gen.(queue := Queue(p.gen.queue.seen, true, None)))]))
            else None
  {
  }

  // A pass that finds a secret missing ends, changes nothing, and is tried again after
  // five seconds or earlier.
  lemma NotReadyComesBack(w: World, id: Key, p: Part, e: Effect)
    requires |p.qsec| > 0 && |p.csr| > 0 && GenerationNext(w, id, p, GenNotReady) == Some(e)
    ensures e.write == None && e.calls == 0
    ensures var q := p.gen.queue;
            var at := if q.waiting.Some? && q.waiting.value <= w.clock + 5 then q.waiting.value else w.clock + 5;
            e.part == p.(gen := GenerationSide(Queue(q.seen, q.dirty, Some(at)), GenIdle))
  {
    RequeueExactly(p.gen.queue, w.clock, 5);
  }

  // ---- How passes end ------------------------------------------------------------------

  // The key comes back at this time or earlier.
  predicate ComesBack(o: Queue, n: Queue, at: nat) {
    n == Queue(o.seen, o.dirty, n.waiting) && n.waiting.Some? && n.waiting.value <= at
  }

  // A copy pass that does not get to its mark, but for a crash, is tried again.
  lemma CopyPassEnds(w: World, id: Key, p: Part, c: CopyStep, e: Effect)
    requires |p.qsec| > 0 && CopyNext(w, id, p, c) == Some(e)
    requires p.copy.pass != CopyIdle && e.part.copy.pass == CopyIdle
    ensures || c.CopyCrash?
            || (c.CopyMark? && e.part.copy.queue == p.copy.queue)
            || (c.CopyAbort? && e.part.qsec == p.qsec && ComesBack(p.copy.queue, e.part.copy.queue, c.retryAt))
  {
  }

  // A metadata pass ends with nothing to do, with the flag cleared, or is tried again.
  lemma MetadataPassEnds(w: World, id: Key, p: Part, m: MetadataStep, e: Effect)
    requires |p.qsec| > 0 && MetadataNext(w, id, p, m) == Some(e)
    requires p.meta.pass != MetaIdle && e.part.meta.pass == MetaIdle
    ensures || m.MetaCrash?
            || (m.MetaLoad? && e.part == p.(meta := p.meta.(pass := MetaIdle))
                && var spec := p.qsec[p.meta.pass.v].obj.spec;
                   var s := History(w, Target(id, spec))[m.i];
                   s.Some? && InSync(spec, s.value))
            || (m.MetaMark? && e.part.meta.queue == p.meta.queue && |e.part.qsec| > 0
                && Last(e.part.qsec).obj.status.copied == Some(false))
            || ((m.MetaLoad? || m.MetaWrite? || m.MetaMark? || m.MetaAbort?) && e.part.qsec == p.qsec
                && e.write == None && ComesBack(p.meta.queue, e.part.meta.queue, m.retryAt))
  {
  }

  // A CSR pass ends with no request, an approval, no root certificate, the request
  // deleted, or is tried again.
  lemma CsrPassEnds(w: World, id: Key, p: Part, s: CsrStep, e: Effect)
    requires |p.csr| > 0 && CsrNext(w, id, p, s) == Some(e)
    requires p.sign.pass != CsrIdle && e.part.sign.pass == CsrIdle
    ensures |e.part.csr| > 0
    ensures || s.CsrCrash?
            || (s.CsrFetch? && e.part.csr == p.csr && s.i < |p.csr| && p.csr[s.i] == None)
            || (s.CsrApprove? && Last(e.part.csr).Some? && Last(e.part.csr).value.approved)
            || (s.CsrNoRootCA? && e.part == p.(sign := p.sign.(pass := CsrIdle)))
            || (s.CsrDelete? && Last(e.part.csr) == None)
            || ((s.CsrApprove? || s.CsrReadKey? || s.CsrStore? || s.CsrDeleteKey? || s.CsrDelete? || s.CsrAbort?)
                && e.part.csr == p.csr && e.write == None && ComesBack(p.sign.queue, e.part.sign.queue, s.retryAt))
  {
  }

  // A generation pass ends without a way back only in an acknowledgement, for the copy
  // type, in a meltdown without delay, or in a crash.
  lemma GenerationPassEnds(w: World, id: Key, p: Part, g: GenerationStep, e: Effect)
    requires |p.qsec| > 0 && |p.csr| > 0 && GenerationNext(w, id, p, g) == Some(e)
    requires p.gen.pass != GenIdle && e.part.gen.pass == GenIdle
    ensures || g.GenCrash? || g.GenAcknowledge? || g.GenAcknowledgeLost?
            || (g.GenFetch? && e.part == p.(gen := p.gen.(pass := GenIdle))
                && (p.qsec[g.v].obj.spec.secretType == SecretCopy || w.config.meltdownRequeueAfter == 0))
            || (g.GenFetch? && e.part.qsec == p.qsec
                && ComesBack(p.gen.queue, e.part.gen.queue, w.clock + w.config.meltdownRequeueAfter))
            || (g.GenNotReady? && e.part.qsec == p.qsec && ComesBack(p.gen.queue, e.part.gen.queue, w.clock + 5))
            || ((g.GenStore? || g.GenCreateCsr? || g.GenAbort?) && e.part.qsec == p.qsec && e.write == None
                && ComesBack(p.gen.queue, e.part.gen.queue, g.retryAt))
  {
  }
}
