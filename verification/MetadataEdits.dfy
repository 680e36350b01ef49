// Once a secret is generated, edits of SecretLabels and SecretAnnotations
// never bring generation back and never touch the data or the kind label.
module MetadataEdits {
  import opened Types
  import opened Operator
  import opened Effects

  // The generation controller has nothing to do and no event will change that.
  // The version it saw last can be older than the acknowledgement.
  ghost predicate GenerationAtRest(p: Part) {
    && |p.qsec| > 0 && |p.csr| > 0
    && p.gen.pass == GenIdle && !p.gen.queue.dirty && p.gen.queue.waiting.None?
    && 0 < p.gen.queue.seen <= |p.qsec|
    && Last(p.qsec).obj.status.IsGenerated()
    && (forall i :: p.gen.queue.seen <= i < |p.qsec| ==> AsGenerated(p.qsec, i))
    && (p.qsec[p.gen.queue.seen - 1].obj.status.IsGenerated() ==>
          SameButMetadata(p.qsec[p.gen.queue.seen - 1].obj.spec, Last(p.qsec).obj.spec))
  }

  // A version of what the last version was generated for.
  predicate AsGenerated(qsec: seq<Version>, i: nat)
    requires i < |qsec|
  {
    qsec[i].obj.status.IsGenerated() && SameButMetadata(qsec[i].obj.spec, Last(qsec).obj.spec)
  }

  // It comes to rest with the acknowledgement, whose own event is still to come.
  lemma RestsOnceAcknowledged(w: World, id: Key, p: Part, e: Effect)
    requires |p.qsec| > 0 && |p.csr| > 0 && Last(p.qsec).obj.status.NotGenerated()
    requires p.gen.pass.Acknowledging? && p.gen.pass.v + 1 == |p.qsec|
    requires p.gen.queue == Queue(|p.qsec|, false, None)
    requires GenerationNext(w, id, p, GenAcknowledge) == Some(e)
    ensures GenerationAtRest(e.part) && e.part.gen.queue.seen < |e.part.qsec|
  {
  }

  // Metadata edits, the controllers they trigger, and anything that does not
  // concern this quarks secret and its secret.
  ghost predicate MetadataOnly(w: World, a: Action, w': World, id: Key, name: SecretName) {
    if a.On? && a.id == id then
      id in w.parts && |w.parts[id].qsec| > 0 &&
      match a.step
      case EditSpec(_, spec) => SameButMetadata(Last(w.parts[id].qsec).obj.spec, spec)
      case Rotate => false
      case Sign(_) => History(w', name) == History(w, name)
      case _ => true
    else History(w', name) == History(w, name)
  }

  // Same data and the same kind label.
  ghost predicate Untouched(o: StoredSecret, n: StoredSecret) {
    && n.data == o.data
    && (LABEL_KIND in o.labels ==> LABEL_KIND in n.labels && n.labels[LABEL_KIND] == o.labels[LABEL_KIND])
  }

  lemma RestVersions(p: Part, p': Part)
    requires GenerationAtRest(p) && |p'.csr| > 0 && p'.gen == p.gen
    requires p'.qsec == p.qsec
             || (|p'.qsec| > 0 && p'.qsec == p.qsec + [Last(p'.qsec)] && Last(p'.qsec).obj.status.IsGenerated()
                 && SameButMetadata(Last(p.qsec).obj.spec, Last(p'.qsec).obj.spec))
    ensures GenerationAtRest(p')
  {
    forall i | p'.gen.queue.seen <= i < |p'.qsec| ensures AsGenerated(p'.qsec, i) {
      if i < |p.qsec| {
        assert p'.qsec[i] == p.qsec[i] && AsGenerated(p.qsec, i);
      }
    }
  }

  // The watch of the generation controller lets none of these events through.
  lemma DeliveryAtRest(w: World, id: Key, p: Part, to: Controller, upto: nat, ownsSecret: bool, e: Effect)
    requires GenerationAtRest(p) && DeliverNext(p, to, upto, ownsSecret) == Some(e)
    ensures GenerationAtRest(e.part) && e.write == None
  {
    if to.GenerationController? {
      assert AsGenerated(p.qsec, upto - 1);
    }
  }

  lemma StepAtRest(w: World, id: Key, p: Part, step: Step, e: Effect)
    requires GenerationAtRest(p) && PartNext(w, id, p, step) == Some(e) && !step.Rotate?
    requires step.EditSpec? ==> SameButMetadata(Last(p.qsec).obj.spec, step.spec)
    ensures GenerationAtRest(e.part)
    ensures e.write.Some? ==> step.SyncMetadata? || step.Sign?
  {
    assert Last(p.qsec).obj.status.IsGenerated();
    match step {
      case Generate(g) =>
      case Deliver(to, upto, ownsSecret) => DeliveryAtRest(w, id, p, to, upto, ownsSecret, e);
      case Copy(c) =>
        CopyEffect(w, id, p, c, e);
        RestVersions(p, e.part);
      case SyncMetadata(m) =>
        MetadataEffect(w, id, p, m, e);
        RestVersions(p, e.part);
      case Sign(s) =>
        CsrShape(w, id, p, s, e);
        RestVersions(p, e.part);
      case _ => RestVersions(p, e.part);
    }
  }

  lemma SecretUntouched(w: World, id: Key, p: Part, step: Step, e: Effect, name: SecretName)
    requires GenerationAtRest(p) && PartNext(w, id, p, step) == Some(e) && !step.Rotate?
    requires step.EditSpec? ==> SameButMetadata(Last(p.qsec).obj.spec, step.spec)
    requires step.Sign? ==> After(History(w, name), e, name) == History(w, name)
    requires Current(w, name).Some?
    ensures var t := After(History(w, name), e, name);
            |t| > 0 && Last(t).Some? && Untouched(Current(w, name).value, Last(t).value)
  {
    StepAtRest(w, id, p, step, e);
    if step.SyncMetadata? && e.write.Some? {
      MetadataEffect(w, id, p, step.m, e);
      MetadataWriteShape(w, id, p, step.m, e);
    }
  }

  ghost predicate Undisturbed(w: World, id: Key, name: SecretName, start: StoredSecret) {
    && id in w.parts && GenerationAtRest(w.parts[id])
    && Current(w, name).Some? && Untouched(start, Current(w, name).value)
  }

  lemma OwnStepUndisturbed(w: World, step: Step, w': World, id: Key, name: SecretName, start: StoredSecret)
    requires Undisturbed(w, id, name, start) && Next(w, On(id, step)) == Some(w')
    requires MetadataOnly(w, On(id, step), w', id, name)
    ensures Undisturbed(w', id, name, start)
  {
    var p := w.parts[id];
    var e := PartNext(w, id, p, step).value;
    HistoryAfter(w, id, e, name);
    StepAtRest(w, id, p, step, e);
    SecretUntouched(w, id, p, step, e, name);
  }

  lemma ActionUndisturbed(w: World, a: Action, w': World, id: Key, name: SecretName, start: StoredSecret)
    requires Undisturbed(w, id, name, start) && Next(w, a) == Some(w') && MetadataOnly(w, a, w', id, name)
    ensures Undisturbed(w', id, name, start)
  {
    if a.On? && a.id == id {
      OwnStepUndisturbed(w, a.step, w', id, name, start);
    } else {
      assert !(a.CreateQuarksSecret? && a.id == id);
      OthersLeaveAlone(w, a, w', id);
    }
  }

  // From any state in which generation is at rest, for any such run.
  lemma {:induction false} MetadataEditsStayMetadata(run: seq<World>, acts: seq<Action>, i: nat, id: Key,
                                                     name: SecretName)
    requires IsRun(run, acts) && i < |run|
    requires id in run[0].parts && GenerationAtRest(run[0].parts[id]) && Current(run[0], name).Some?
    requires forall j :: 0 <= j < |acts| ==> MetadataOnly(run[j], acts[j], run[j + 1], id, name)
    ensures Undisturbed(run[i], id, name, Current(run[0], name).value)
  {
    if i > 0 {
      MetadataEditsStayMetadata(run, acts, i - 1, id, name);
      assert Next(run[i - 1], acts[i - 1]) == Some(run[i]);
      assert MetadataOnly(run[i - 1], acts[i - 1], run[i - 1 + 1], id, name);
      ActionUndisturbed(run[i - 1], acts[i - 1], run[i], id, name, Current(run[0], name).value);
    }
  }
}
