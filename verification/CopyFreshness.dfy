// When Copied=true is stored although the source secret has changed since the copies
// were made, and what repairs it.
module CopyFreshness {
  import opened Types
  import opened Operator
  import opened Effects
  import opened CleanPass
  import Mutate

  // The secret has newer versions than the one the copies were made from.
  predicate Stale(w: World, name: SecretName, source: nat) {
    source + 1 < |History(w, name)|
  }

  // ---- One pass --------------------------------------------------------------

  // All entries are copied, and the mark is still to come.
  predicate Marked(w: World, id: Key, v: nat, source: nat) {
    id in w.parts && w.parts[id].copy.pass == Marking(v, source)
  }

  predicate Reads(w: World, a: Action, id: Key, v: nat, source: nat) {
    && a == On(id, Copy(CopyAll(source))) && id in w.parts && v < |w.parts[id].qsec|
    && w.parts[id].copy.pass == CopyingAll(v)
    && source < |History(w, Target(id, w.parts[id].qsec[v].obj.spec))|
  }

  lemma OthersKeepThePass(w: World, id: Key, p: Part, step: Step, e: Effect)
    requires |p.qsec| > 0 && |p.csr| > 0 && !step.Copy? && PartNext(w, id, p, step) == Some(e)
    ensures e.part.copy.pass == p.copy.pass
    ensures !step.Deliver? && !step.DeliverSecret? ==> e.part.copy == p.copy
  {
    match step {
      case Generate(g) =>
        if MidPass(g) {
          MidPassEffect(w, id, p, g, e);
        }
      case SyncMetadata(m) => MetadataEffect(w, id, p, m, e);
      case Sign(s) => CsrEffect(w, id, p, s, e);
      case _ =>
    }
  }

  lemma MarkingStep(w: World, a: Action, w': World, id: Key, v: nat, source: nat)
    requires Next(w, a) == Some(w') && Marked(w', id, v, source)
    ensures Marked(w, id, v, source) || Reads(w, a, id, v, source)
  {
    if a.On? && a.id == id && !a.step.Copy? {
      OthersKeepThePass(w, id, w.parts[id], a.step, PartNext(w, id, w.parts[id], a.step).value);
    }
  }

  // The read behind a mark.
  lemma {:induction false} ReadBehind(run: seq<World>, acts: seq<Action>, j: nat, id: Key, v: nat, source: nat)
    returns (i: nat)
    requires IsRun(run, acts) && Initial(run[0]) && j < |run| && Marked(run[j], id, v, source)
    ensures i < j && Reads(run[i], acts[i], id, v, source)
    ensures forall k :: i < k <= j ==> Marked(run[k], id, v, source)
  {
    assert j > 0;
    assert Next(run[j - 1], acts[j - 1]) == Some(run[j]);
    MarkingStep(run[j - 1], acts[j - 1], run[j], id, v, source);
    if Marked(run[j - 1], id, v, source) {
      i := ReadBehind(run, acts, j - 1, id, v, source);
    } else {
      i := j - 1;
    }
  }

  lemma {:induction false} VersionsGrowAlong(run: seq<World>, acts: seq<Action>, i: nat, j: nat, id: Key)
    requires IsRun(run, acts) && i <= j < |run| && id in run[i].parts
    ensures id in run[j].parts && run[i].parts[id].qsec <= run[j].parts[id].qsec
  {
    if i < j {
      VersionsGrowAlong(run, acts, i, j - 1, id);
      assert Next(run[j - 1], acts[j - 1]) == Some(run[j]);
      VersionsGrow(run[j - 1], acts[j - 1], run[j], id);
    }
  }

  // Step k stores a version of the secret.
  ghost predicate Writes(run: seq<World>, k: nat, name: SecretName)
    requires k + 1 < |run|
  {
    |History(run[k], name)| < |History(run[k + 1], name)|
  }

  lemma {:induction false} StaleExactlyIfWritten(run: seq<World>, acts: seq<Action>, i: nat, j: nat, name: SecretName,
                                                 source: nat)
    requires IsRun(run, acts) && i <= j < |run| && source < |History(run[i], name)|
    ensures source < |History(run[j], name)|
    ensures Stale(run[j], name, source) <==>
            Stale(run[i], name, source) || exists k: nat :: i <= k < j && Writes(run, k, name)
  {
    if i < j {
      StaleExactlyIfWritten(run, acts, i, j - 1, name, source);
      assert Next(run[j - 1], acts[j - 1]) == Some(run[j]);
      HistoryGrows(run[j - 1], acts[j - 1], run[j], name);
      assert Writes(run, j - 1, name) <==> |History(run[j - 1], name)| < |History(run[j], name)|;
    }
  }

  // The writers of a secret that holds no key of a signing request. None of them
  // touches a quarks secret in the same step, so a version check on the quarks
  // secret does not notice them.
  lemma WritesAreUnnoticed(w: World, a: Action, w': World, name: SecretName)
    requires Next(w, a) == Some(w') && name.Plain? && |History(w, name)| < |History(w', name)|
    ensures || (a.EditSecret? && Plain(a.key) == name)
            || (a.On? && a.step.Generate? && a.step.g.GenStore?)
            || (a.On? && a.step.SyncMetadata? && a.step.m.MetaWrite?)
            || (a.On? && a.step.Sign? && a.step.s.CsrStore?)
    ensures w'.parts.Keys == w.parts.Keys && forall id :: id in w.parts ==> w'.parts[id].qsec == w.parts[id].qsec
  {
    if a.On? {
      var p := w.parts[a.id];
      var e := PartNext(w, a.id, p, a.step).value;
      HistoryAfter(w, a.id, e, name);
      match a.step {
        case Generate(g) => GenerationGrows(w, a.id, p, g, e); WriteBy(w, a.id, p, g, e);
        case Copy(c) => CopyEffect(w, a.id, p, c, e);
        case SyncMetadata(m) =>
          MetadataEffect(w, a.id, p, m, e);
          MetadataWriteShape(w, a.id, p, m, e);
        case Sign(s) => CsrShape(w, a.id, p, s, e); CsrEffect(w, a.id, p, s, e);
        case _ =>
      }
    }
  }

  lemma WriteBy(w: World, id: Key, p: Part, g: GenerationStep, e: Effect)
    requires |p.qsec| > 0 && |p.csr| > 0 && GenerationNext(w, id, p, g) == Some(e) && e.write.Some?
    ensures g.GenStore?
  {
    if MidPass(g) {
      MidPassEffect(w, id, p, g, e);
    }
  }

  // A status write of an object read as version v goes through.
  predicate Stored(w: World, id: Key, v: nat) {
    id in w.parts && v + 1 == |w.parts[id].qsec|
  }

  // In every run, for every mark that is stored, with the read behind it: the quarks
  // secret did not change since the read, and the mark is stale if and only if the
  // read showed an older version or the source secret was written in between.
  lemma MarkIsStaleExactlyWhen(run: seq<World>, acts: seq<Action>, j: nat, id: Key, v: nat, source: nat)
    returns (i: nat)
    requires IsRun(run, acts) && Initial(run[0]) && j < |acts| && acts[j] == On(id, Copy(CopyMark(true)))
    requires Marked(run[j], id, v, source) && Stored(run[j], id, v)
    ensures i < j && Reads(run[i], acts[i], id, v, source)
    ensures forall k :: i <= k <= j ==> id in run[k].parts && run[k].parts[id].qsec == run[i].parts[id].qsec
    ensures id in run[j + 1].parts && |run[j + 1].parts[id].qsec| > 0
    ensures Last(run[j + 1].parts[id].qsec).obj.status.IsCopied()
    ensures var name := Target(id, run[i].parts[id].qsec[v].obj.spec);
            && Target(id, Last(run[j + 1].parts[id].qsec).obj.spec) == name
            && (Stale(run[j + 1], name, source) <==>
                Stale(run[i], name, source) || exists k: nat :: i < k < j && Writes(run, k, name))
  {
    i := ReadBehind(run, acts, j, id, v, source);
    forall k | i <= k <= j ensures id in run[k].parts && run[k].parts[id].qsec == run[i].parts[id].qsec {
      VersionsGrowAlong(run, acts, i, k, id);
      VersionsGrowAlong(run, acts, k, j, id);
    }
    assert Next(run[j], acts[j]) == Some(run[j + 1]);
    MarkStored(run[j], id, v, source, run[j + 1]);
    StaleBetween(run, acts, i, j, Target(id, run[i].parts[id].qsec[v].obj.spec), source);
  }

  lemma StaleBetween(run: seq<World>, acts: seq<Action>, i: nat, j: nat, name: SecretName, source: nat)
    requires IsRun(run, acts) && i < j < |acts| && source < |History(run[i], name)|
    requires acts[i].On? && acts[i].step.Copy? && acts[j].On? && acts[j].step.Copy?
    ensures Stale(run[j + 1], name, source) <==>
            Stale(run[i], name, source) || exists k: nat :: i < k < j && Writes(run, k, name)
  {
    assert Next(run[i], acts[i]) == Some(run[i + 1]) && Next(run[j], acts[j]) == Some(run[j + 1]);
    CopyStepWritesNothing(run[i], acts[i], run[i + 1], name);
    CopyStepWritesNothing(run[j], acts[j], run[j + 1], name);
    StaleExactlyIfWritten(run, acts, i + 1, j, name, source);
  }

  lemma CopyStepWritesNothing(w: World, a: Action, w': World, name: SecretName)
    requires Next(w, a) == Some(w') && a.On? && a.step.Copy?
    ensures History(w', name) == History(w, name)
  {
    CopyEffect(w, a.id, w.parts[a.id], a.step.c, PartNext(w, a.id, w.parts[a.id], a.step).value);
  }

  lemma MarkStored(w: World, id: Key, v: nat, source: nat, w': World)
    requires Marked(w, id, v, source) && Stored(w, id, v)
    requires Next(w, On(id, Copy(CopyMark(true)))) == Some(w')
    ensures id in w'.parts && |w'.parts[id].qsec| > 0 && w'.parts[id].copy.pass == CopyIdle
    ensures Last(w'.parts[id].qsec).obj == Last(w.parts[id].qsec).obj.(
              status := Last(w.parts[id].qsec).obj.status.(copied := Some(true)))
  {
  }

  // ---- What repairs it ----------------------------------------------------------

  // The last version has the flag, and so has every one whose event is to come.
  predicate AllCopied(qsec: seq<Version>, seen: nat) {
    && |qsec| > 0 && Last(qsec).obj.status.IsCopied()
    && forall u :: seen <= u < |qsec| ==> qsec[u].obj.status.IsCopied()
  }

  // The flag is true, and nothing brings the copy controller back.
  ghost predicate RestsCopied(w: World, id: Key) {
    && id in w.parts
    && var p := w.parts[id];
       && |p.csr| > 0 && AllCopied(p.qsec, p.copy.queue.seen)
       && p.copy.pass.CopyIdle? && !p.copy.queue.dirty && p.copy.queue.waiting.None?
  }

  // The acknowledgement of a generation or the mark of a metadata pass is stored, or
  // the watch of secrets lets a user's version of the source through.
  predicate Reopens(w: World, a: Action, id: Key) {
    && id in w.parts && a.On? && a.id == id
    && match a.step
       case DeliverSecret(_) => true
       case Generate(g) => g.GenAcknowledge? && w.parts[id].gen.pass.Acknowledging? && Stored(w, id, w.parts[id].gen.pass.v)
       case SyncMetadata(m) => m.MetaMark? && w.parts[id].meta.pass.MetaMarking? && Stored(w, id, w.parts[id].meta.pass.v)
       case _ => false
  }

  lemma OneMoreCopied(qsec: seq<Version>, qsec': seq<Version>, seen: nat)
    requires AllCopied(qsec, seen) && qsec <= qsec' && |qsec'| <= |qsec| + 1
    ensures AllCopied(qsec', seen) <==> Last(qsec').obj.status.IsCopied()
  {
    if |qsec'| == |qsec| {
      assert qsec' == qsec;
    } else {
      assert qsec' == qsec + [Last(qsec')];
    }
  }

  lemma GenerationReopens(w: World, g: GenerationStep, w': World, id: Key)
    requires RestsCopied(w, id) && Next(w, On(id, Generate(g))) == Some(w') && id in w'.parts
    ensures Last(w'.parts[id].qsec).obj.status.IsCopied() <==> !Reopens(w, On(id, Generate(g)), id)
  {
    GenerationGrows(w, id, w.parts[id], g, GenerationNext(w, id, w.parts[id], g).value);
  }

  lemma MetadataReopens(w: World, m: MetadataStep, w': World, id: Key)
    requires RestsCopied(w, id) && Next(w, On(id, SyncMetadata(m))) == Some(w') && id in w'.parts
    ensures |w'.parts[id].qsec| > 0
    ensures Last(w'.parts[id].qsec).obj.status.IsCopied() <==> !Reopens(w, On(id, SyncMetadata(m)), id)
  {
  }

  lemma RestsUntil(w: World, a: Action, w': World, id: Key)
    requires RestsCopied(w, id) && Next(w, a) == Some(w')
    ensures RestsCopied(w', id) <==> !Reopens(w, a, id)
  {
    VersionsGrow(w, a, w', id);
    if a.On? && a.id == id {
      var p, e := w.parts[id], PartNext(w, id, w.parts[id], a.step).value;
      if !a.step.Copy? {
        OthersKeepThePass(w, id, p, a.step, e);
      }
      OneMoreCopied(p.qsec, e.part.qsec, p.copy.queue.seen);
      match a.step {
        case Generate(g) => GenerationReopens(w, g, w', id);
        case SyncMetadata(m) => MetadataReopens(w, m, w', id);
        case Sign(s) => CsrEffect(w, id, p, s, e);
        case _ =>
      }
    } else {
      OthersLeaveAlone(w, a, w', id);
    }
  }

  // In every run from such a state: it stays at rest, and the copies stay stale, as
  // long as and no longer than none of these steps comes.
  lemma {:induction false} StaleUntilReopened(run: seq<World>, acts: seq<Action>, i: nat, j: nat, id: Key,
                                              name: SecretName, source: nat)
    requires IsRun(run, acts) && i <= j < |run| && RestsCopied(run[i], id) && Stale(run[i], name, source)
    ensures Stale(run[j], name, source)
    ensures (forall k :: i <= k <= j ==> RestsCopied(run[k], id))
            <==> (forall k :: i <= k < j ==> !Reopens(run[k], acts[k], id))
  {
    if i < j {
      StaleUntilReopened(run, acts, i, j - 1, id, name, source);
      StepOfTheRun(run, acts, j - 1, id, name);
    }
  }

  lemma StepOfTheRun(run: seq<World>, acts: seq<Action>, k: nat, id: Key, name: SecretName)
    requires IsRun(run, acts) && k < |acts|
    ensures |History(run[k], name)| <= |History(run[k + 1], name)|
    ensures RestsCopied(run[k], id) ==> (RestsCopied(run[k + 1], id) <==> !Reopens(run[k], acts[k], id))
  {
    assert Next(run[k], acts[k]) == Some(run[k + 1]);
    HistoryGrows(run[k], acts[k], run[k + 1], name);
    if RestsCopied(run[k], id) {
      RestsUntil(run[k], acts[k], run[k + 1], id);
    }
  }

  // ---- It does come up --------------------------------------------------------

  // Generated once and then edited: the labels of the spec are not yet on the secret.
  ghost predicate Edited(w: World, id: Key, made: StoredSecret) {
    && id in w.parts
    && var p := w.parts[id];
       && |p.qsec| == 3 && |p.csr| > 0 && p.gen == GenerationSide(Queue(1, false, None), GenIdle)
       && p.qsec[0].obj.status.generated == None && Last(p.qsec).obj.status.IsGenerated()
       && Last(p.qsec).obj.status.copied == Some(false)
       && p.qsec[0].obj.spec.secretLabels != p.qsec[2].obj.spec.secretLabels
       && History(w, Target(id, p.qsec[2].obj.spec)) == [None, Some(made)]
       && Synced(p.qsec[2].obj.spec, made) != made && !InSync(p.qsec[2].obj.spec, made)
  }

  // The acknowledgement, and an edit of the labels right after it.
  lemma AcknowledgesAndEdits(w: World, id: Key, p: Part, edited: Spec, made: StoredSecret)
    returns (acts: seq<Action>, w': World)
    requires id in w.parts && w.parts[id] == p && |p.qsec| == 1 && |p.csr| > 0
    requires p.gen == GenerationSide(Queue(1, false, None), p.gen.pass) && p.gen.pass.Acknowledging? && p.gen.pass.v == 0
    requires edited == p.qsec[0].obj.spec.(secretLabels := edited.secretLabels)
    requires edited.secretLabels != p.qsec[0].obj.spec.secretLabels && p.qsec[0].obj.status.generated.None?
    requires History(w, Target(id, edited)) == [None, Some(made)]
    requires Synced(edited, made) != made && !InSync(edited, made)
    ensures Leads(w, acts, w') && forall a :: a in acts ==> Works(a)
    ensures Edited(w', id, made) && w'.parts[id].qsec[2].obj.spec == edited
    ensures w'.parts[id].copy == p.copy && w'.parts[id].meta == p.meta
  {
    var v := p.qsec[0].obj;
    var generated := v.(status := Acknowledged(v.status, w.clock));
    var q := p.(gen := p.gen.(pass := GenIdle), qsec := p.qsec + [Version(generated, w.tokens, Generation)]);
    acts, w' := Then(w, [], w, id, Generate(GenAcknowledge), q);
    var n := Version(generated.(annotations := map[], spec := edited), w.tokens, UserEdit);
    acts, w' := Then(w, acts, w', id, EditSpec(map[], edited), q.(qsec := q.qsec + [n]));
  }

  // The generated secret does not have a label that was added later.
  lemma NewLabelIsMissing(spec: Spec, edited: Spec, newLabel: string, made: StoredSecret)
    requires spec.secretType == Password && newLabel !in spec.secretLabels && newLabel != LABEL_KIND
    requires edited == spec.(secretLabels := spec.secretLabels[newLabel := ""])
    requires made.labels == spec.secretLabels[LABEL_KIND := GENERATED_SECRET_KIND]
    ensures spec.secretLabels != edited.secretLabels && Synced(edited, made) != made && !InSync(edited, made)
  {
    assert newLabel in edited.secretLabels;
    assert newLabel in Synced(edited, made).labels && newLabel !in made.labels;
  }

  lemma GeneratedAndEdited(w: World, id: Key, spec: Spec, newLabel: string)
    returns (acts: seq<Action>, w': World, made: StoredSecret)
    requires Initial(w) && spec.secretType == Password && newLabel !in spec.secretLabels && newLabel != LABEL_KIND
    ensures Leads(w, acts, w') && forall a :: a in acts ==> Works(a)
    ensures Edited(w', id, made) && Target(id, w'.parts[id].qsec[2].obj.spec) == Target(id, spec)
    ensures w'.parts[id].copy == CopySide(Queue(0, false, None), CopyIdle)
    ensures w'.parts[id].meta == MetadataSide(Queue(0, false, None), MetaIdle)
  {
    var edited := spec.(secretLabels := spec.secretLabels[newLabel := ""]);
    var first, w1 := FirstPass(w, id, spec);
    made := Mutate.Created(SomeWanted(spec, w.tokens));
    NewLabelIsMissing(spec, edited, newLabel, made);
    var second, w2 := AcknowledgesAndEdits(w1, id, w1.parts[id], edited, made);
    LeadsOn(w, first, w1, second, w2);
    acts, w' := first + second, w2;
  }

  // Both events of one key arrive, the second one merged with the one before it.
  lemma EventsArrive(w: World, id: Key, to: Controller) returns (acts: seq<Action>, w': World)
    requires !to.GenerationController? && id in w.parts
    requires var p := w.parts[id];
             && |p.qsec| == 3 && |p.csr| > 0 && Passes(to, p.qsec[0].obj, p.qsec[2].obj)
             && (if to.CopiesController? then p.copy.queue else p.meta.queue) == Queue(0, false, None)
    ensures Leads(w, acts, w') && w'.secrets == w.secrets && forall a :: a in acts ==> Works(a)
    ensures var p := w.parts[id];
            w'.parts == w.parts[id := if to.CopiesController? then p.(copy := p.copy.(queue := Queue(3, true, None)))
                                      else p.(meta := p.meta.(queue := Queue(3, true, None)))]
  {
    var p := w.parts[id];
    var first, second := Queue(1, false, None), Queue(3, true, None);
    acts, w' := Then(w, [], w, id, Deliver(to, 1, false),
                     if to.CopiesController? then p.(copy := p.copy.(queue := first))
                     else p.(meta := p.meta.(queue := first)));
    acts, w' := Then(w, acts, w', id, Deliver(to, 3, false),
                     if to.CopiesController? then p.(copy := p.copy.(queue := second))
                     else p.(meta := p.meta.(queue := second)));
  }

  // The metadata pass reads the quarks secret and the secret.
  lemma MetadataReads(w: World, id: Key, made: StoredSecret) returns (acts: seq<Action>, w': World)
    requires Edited(w, id, made) && w.parts[id].meta == MetadataSide(Queue(3, true, None), MetaIdle)
    ensures Leads(w, acts, w') && w'.secrets == w.secrets && forall a :: a in acts ==> Works(a)
    ensures w'.parts == w.parts[id := w.parts[id].(meta := MetadataSide(Queue(3, false, None), MetaWriting(2, 1)))]
  {
    var p, q := w.parts[id], Queue(3, false, None);
    acts, w' := Then(w, [], w, id, SyncMetadata(MetaPop), p.(meta := MetadataSide(q, MetaFetching)));
    acts, w' := Then(w, acts, w', id, SyncMetadata(MetaFetch(2)), p.(meta := MetadataSide(q, MetaLoading(2))));
    acts, w' := Then(w, acts, w', id, SyncMetadata(MetaLoad(1, w.clock)), p.(meta := MetadataSide(q, MetaWriting(2, 1))));
  }

  // The copy pass reads the quarks secret and clears a flag that is clear.
  lemma CopyReads(w: World, id: Key, made: StoredSecret) returns (acts: seq<Action>, w': World)
    requires Edited(w, id, made) && w.parts[id].copy == CopySide(Queue(3, true, None), CopyIdle)
    ensures Leads(w, acts, w') && w'.secrets == w.secrets && forall a :: a in acts ==> Works(a)
    ensures w'.parts == w.parts[id := w.parts[id].(copy := CopySide(Queue(3, false, None), CopyingAll(2)))]
  {
    var p, q := w.parts[id], Queue(3, false, None);
    acts, w' := Then(w, [], w, id, Copy(CopyPop), p.(copy := CopySide(q, CopyFetching)));
    acts, w' := Then(w, acts, w', id, Copy(CopyFetch(2)), p.(copy := CopySide(q, Clearing(2))));
    acts, w' := Then(w, acts, w', id, Copy(CopyClear(true)), p.(copy := CopySide(q, CopyingAll(2))));
  }

  // Both passes have read and written nothing yet.
  ghost predicate BothUnderWay(w: World, id: Key, made: StoredSecret) {
    && Edited(w, id, made)
    && w.parts[id].meta == MetadataSide(Queue(3, false, None), MetaWriting(2, 1))
    && w.parts[id].copy == CopySide(Queue(3, false, None), CopyingAll(2))
  }

  lemma BothStart(w: World, id: Key, made: StoredSecret) returns (acts: seq<Action>, w': World)
    requires Edited(w, id, made) && w.parts[id].copy == CopySide(Queue(0, false, None), CopyIdle)
    requires w.parts[id].meta == MetadataSide(Queue(0, false, None), MetaIdle)
    ensures Leads(w, acts, w') && forall a :: a in acts ==> Works(a)
    ensures BothUnderWay(w', id, made) && w'.parts[id].qsec == w.parts[id].qsec
  {
    var first, w1 := EventsArrive(w, id, SecretMetaController);
    var second, w2 := MetadataReads(w1, id, made);
    var third, w3 := EventsArrive(w2, id, CopiesController);
    var fourth, w4 := CopyReads(w3, id, made);
    LeadsOn(w, first, w1, second, w2);
    LeadsOn(w, first + second, w2, third, w3);
    LeadsOn(w, first + second + third, w3, fourth, w4);
    acts, w' := first + second + third + fourth, w4;
  }

  // The metadata pass writes the labels to the secret.
  lemma LabelsWritten(w: World, id: Key, made: StoredSecret) returns (a: Action, w': World)
    requires Edited(w, id, made) && w.parts[id].meta.pass == MetaWriting(2, 1)
    ensures Next(w, a) == Some(w') && Works(a)
    ensures History(w', Target(id, w.parts[id].qsec[2].obj.spec)) ==
            [None, Some(made), Some(Synced(w.parts[id].qsec[2].obj.spec, made))]
    ensures w'.parts == w.parts[id := w.parts[id].(meta := w.parts[id].meta.(pass := MetaMarking(2)))]
  {
    a := On(id, SyncMetadata(MetaWrite(w.clock)));
    w' := Next(w, a).value;
  }

  // The copies are made from version 1, then the labels are written.
  lemma CopiesThenLabels(w: World, id: Key, made: StoredSecret, p: Part) returns (acts: seq<Action>, w': World)
    requires BothUnderWay(w, id, made) && w.parts[id] == p
    ensures [On(id, Copy(CopyAll(1)))] <= acts
    ensures Leads(w, acts, w') && forall a :: a in acts ==> Works(a)
    ensures |History(w', Target(id, p.qsec[2].obj.spec))| == 3
    ensures w'.parts == w.parts[id := p.(copy := p.copy.(pass := Marking(2, 1)), meta := p.meta.(pass := MetaMarking(2)))]
  {
    var w1, a;
    acts, w1 := Then(w, [], w, id, Copy(CopyAll(1)), p.(copy := p.copy.(pass := Marking(2, 1))));
    a, w' := LabelsWritten(w1, id, made);
    LeadsOneMore(w, acts, w1, a, w');
    acts := acts + [a];
  }

  // The metadata pass finds the flag cleared, and the copy pass sets it.
  lemma FlagIsSet(w: World, id: Key, p: Part) returns (acts: seq<Action>, w': World)
    requires id in w.parts && w.parts[id] == p && |p.qsec| == 3 && |p.csr| > 0
    requires p.copy.pass == Marking(2, 1) && p.meta.pass == MetaMarking(2)
    requires p.qsec[2].obj.status.copied == Some(false)
    ensures Leads(w, acts, w') && w'.secrets == w.secrets && forall a :: a in acts ==> Works(a)
    ensures id in w'.parts
    ensures var p' := w'.parts[id];
            && |p'.qsec| == 4 && p'.qsec[..3] == p.qsec
            && p'.qsec[3].obj == p.qsec[2].obj.(status := p.qsec[2].obj.status.(copied := Some(true)))
            && p' == p.(qsec := p'.qsec, meta := p.meta.(pass := MetaIdle), copy := p.copy.(pass := CopyIdle))
  {
    var q := p.(meta := p.meta.(pass := MetaIdle));
    acts, w' := Then(w, [], w, id, SyncMetadata(MetaMark(w.clock)), q);
    var n := Version(p.qsec[2].obj.(status := p.qsec[2].obj.status.(copied := Some(true))), w'.tokens, CopyController);
    acts, w' := Then(w, acts, w', id, Copy(CopyMark(true)), q.(qsec := p.qsec + [n], copy := p.copy.(pass := CopyIdle)));
  }

  // No controller has anything to do, and no event is on its way.
  predicate AllQuiet(p: Part) {
    && p.gen == GenerationSide(Queue(|p.qsec|, false, None), GenIdle)
    && p.copy == CopySide(Queue(|p.qsec|, false, None), CopyIdle)
    && p.meta == MetadataSide(Queue(|p.qsec|, false, None), MetaIdle)
  }

  // The last events arrive, and the watches drop them.
  lemma LastEventsArrive(w: World, id: Key) returns (acts: seq<Action>, w': World)
    requires id in w.parts
    requires var p := w.parts[id];
             && |p.qsec| == 4 && |p.csr| > 0 && Last(p.qsec).obj.status.IsCopied() && Last(p.qsec).obj.status.IsGenerated()
             && !p.qsec[0].obj.status.IsGenerated() && !MetadataWatch(p.qsec[2].obj, p.qsec[3].obj)
             && p.gen == GenerationSide(Queue(1, false, None), GenIdle)
             && p.copy == CopySide(Queue(3, false, None), CopyIdle)
             && p.meta == MetadataSide(Queue(3, false, None), MetaIdle)
    ensures Leads(w, acts, w') && w'.secrets == w.secrets && forall a :: a in acts ==> Works(a)
    ensures id in w'.parts && w'.parts[id].qsec == w.parts[id].qsec && AllQuiet(w'.parts[id]) && RestsCopied(w', id)
  {
    var p, q := w.parts[id], Queue(4, false, None);
    p := p.(gen := GenerationSide(q, GenIdle));
    acts, w' := Then(w, [], w, id, Deliver(GenerationController, 4, false), p);
    p := p.(copy := CopySide(q, CopyIdle));
    acts, w' := Then(w, acts, w', id, Deliver(CopiesController, 4, false), p);
    p := p.(meta := MetadataSide(q, MetaIdle));
    acts, w' := Then(w, acts, w', id, Deliver(SecretMetaController, 4, false), p);
  }

  lemma EndsQuietAndStale(w: World, id: Key, made: StoredSecret, p: Part) returns (acts: seq<Action>, w': World)
    requires BothUnderWay(w, id, made) && w.parts[id] == p
    ensures [On(id, Copy(CopyAll(1)))] <= acts
    ensures Leads(w, acts, w') && forall a :: a in acts ==> Works(a)
    ensures Stale(w', Target(id, p.qsec[2].obj.spec), 1)
    ensures id in w'.parts && AllQuiet(w'.parts[id]) && RestsCopied(w', id)
  {
    var first, w1 := CopiesThenLabels(w, id, made, p);
    var second, w2 := FlagIsSet(w1, id, w1.parts[id]);
    assert w2.parts[id].qsec[2] == p.qsec[2] && w2.parts[id].qsec[0] == p.qsec[0];
    var third, w3 := LastEventsArrive(w2, id);
    LeadsOn(w, first, w1, second, w2);
    LeadsOn(w, first + second, w2, third, w3);
    acts, w' := first + second + third, w3;
  }

  // From the start, with no call that fails and no read that is outdated: a label is
  // added to the spec, the copies are made just before the metadata pass puts it on
  // the secret, and in the end everything is quiet with a stale mark.
  lemma QuietAndStale(w: World, id: Key, spec: Spec, newLabel: string)
    returns (before: seq<Action>, mid: World, after: seq<Action>, w': World)
    requires Initial(w) && spec.secretType == Password && newLabel !in spec.secretLabels && newLabel != LABEL_KIND
    ensures Leads(w, before, mid) && Leads(mid, after, w')
    ensures (forall a :: a in before ==> Works(a)) && (forall a :: a in after ==> Works(a))
    ensures [On(id, Copy(CopyAll(1)))] <= after
    ensures var target := Target(id, spec); |History(mid, target)| == 2 && Stale(w', target, 1)
    ensures id in w'.parts && AllQuiet(w'.parts[id]) && RestsCopied(w', id)
  {
    var first, w1, made := GeneratedAndEdited(w, id, spec, newLabel);
    var second, w2 := BothStart(w1, id, made);
    LeadsOn(w, first, w1, second, w2);
    before, mid := first + second, w2;
    after, w' := EndsQuietAndStale(w2, id, made, w2.parts[id]);
  }
}
