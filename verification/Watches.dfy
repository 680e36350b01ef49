// What the watches let through, field by field, and that what passes is queued.
module Watches {
  import opened Types
  import opened Operator
  import opened Effects
  import MetadataEdits

  // ---- Field by field --------------------------------------------------------

  // An event queues a generation if and only if the new object is to be generated
  // again, or the old one was generated and the spec differs in more than labels
  // and annotations.
  lemma GenerationWatchExactly(o: QuarksSecret, n: QuarksSecret)
    ensures GenerationWatch(o, n) <==>
            || n.status.generated == Some(false)
            || (o.status.generated == Some(true)
                && n.spec.(secretLabels := o.spec.secretLabels, secretAnnotations := o.spec.secretAnnotations) != o.spec)
  {
  }

  lemma MetadataWatchExactly(o: QuarksSecret, n: QuarksSecret)
    ensures MetadataWatch(o, n) <==>
            o.spec.(secretLabels := n.spec.secretLabels, secretAnnotations := n.spec.secretAnnotations) != o.spec
  {
  }

  lemma CopyWatchExactly(n: QuarksSecret)
    ensures CopyWatch(n) <==> n.status.copied == None || n.status.copied == Some(false)
  {
    var copied := n.status.copied;
    assert copied.Some? ==> copied == Some(if copied.value then true else false);
  }

  lemma SecretWatchExactly<D>(o: Secret<D>, n: Secret<D>)
    ensures CopySecretWatch(o, n) <==>
            && (o.labels != n.labels || o.annotations != n.annotations || o.data != n.data)
            && ("quarks.cloudfoundry.org/secret-kind" in n.labels ==>
                  n.labels["quarks.cloudfoundry.org/secret-kind"] != "generated")
  {
  }

  // ---- Delivery ----------------------------------------------------------------

  // One event of a quarks secret, alone or merged with those before it: what each
  // controller makes of it, and that nothing else moves.
  lemma DeliveredExactly(p: Part, to: Controller, upto: nat, ownsSecret: bool, e: Effect)
    requires DeliverNext(p, to, upto, ownsSecret) == Some(e)
    ensures e.write == None && e.calls == 0 && upto <= |p.qsec|
    ensures to.GenerationController? ==>
              var q := p.gen.queue;
              && q.seen < upto
              && e.part == p.(gen := p.gen.(queue := Queue(upto, e.part.gen.queue.dirty, q.waiting)))
              && (e.part.gen.queue.dirty <==>
                    || q.dirty
                    || if q.seen == 0 then !ownsSecret
                       else
                         var o, n := p.qsec[q.seen - 1].obj, p.qsec[upto - 1].obj;
                         || n.status.generated == Some(false)
                         || (o.status.generated == Some(true) && !SameButMetadata(o.spec, n.spec)))
    ensures to.CopiesController? ==>
              var q := p.copy.queue;
              && q.seen < upto
              && e.part == p.(copy := p.copy.(queue := Queue(upto, e.part.copy.queue.dirty, q.waiting)))
              && (e.part.copy.queue.dirty <==>
                    q.dirty || (q.seen > 0 && p.qsec[upto - 1].obj.status.copied != Some(true)))
    ensures to.SecretMetaController? ==>
              var q := p.meta.queue;
              && q.seen < upto
              && e.part == p.(meta := p.meta.(queue := Queue(upto, e.part.meta.queue.dirty, q.waiting)))
              && (e.part.meta.queue.dirty <==>
                    || q.dirty
                    || (q.seen > 0 &&
                        var o, n := p.qsec[q.seen - 1].obj.spec, p.qsec[upto - 1].obj.spec;
                        o.secretLabels != n.secretLabels || o.secretAnnotations != n.secretAnnotations))
  {
  }

  // A change of the source queues the copies if and only if the new version does
  // not carry the generated kind.
  lemma SourceChangeQueuesExactly(w: World, id: Key, p: Part, i: nat)
    requires |p.qsec| > 0
    requires var h := History(w, Plain(Key(id.namespace, Last(p.qsec).obj.spec.secretName)));
             0 < i < |h| && h[i - 1].Some? && h[i].Some?
    ensures var h := History(w, Plain(Key(id.namespace, Last(p.qsec).obj.spec.secretName)));
            var o, n := h[i - 1].value, h[i].value;
            var queued := p.(copy := p.copy.(queue := Queue(p.copy.queue.seen, true, p.copy.queue.waiting)));
            DeliverSecretNext(w, id, p, i) ==
            if o != n && !("quarks.cloudfoundry.org/secret-kind" in n.labels
                           && n.labels["quarks.cloudfoundry.org/secret-kind"] == "generated")
            then Some(Effect(queued, None, 0)) else None
  {
  }

  // ---- Edits ---------------------------------------------------------------------

  // From rest, an edit of the spec and its event: a generation is queued if and only
  // if the object that the watch saw last was generated and more than labels and
  // annotations was edited.
  lemma EditQueuesGenerationExactlyWhen(w: World, id: Key, annotations: StringMap, spec: Spec, ownsSecret: bool,
                                        w1: World, w2: World)
    requires id in w.parts && MetadataEdits.GenerationAtRest(w.parts[id])
    requires Next(w, On(id, EditSpec(annotations, spec))) == Some(w1)
    requires Next(w1, On(id, Deliver(GenerationController, |w.parts[id].qsec| + 1, ownsSecret))) == Some(w2)
    ensures id in w2.parts
    ensures var p := w.parts[id];
            var o := Last(p.qsec).obj.spec;
            w2.parts[id].gen.queue.dirty <==>
            && p.qsec[p.gen.queue.seen - 1].obj.status.generated == Some(true)
            && spec.(secretLabels := o.secretLabels, secretAnnotations := o.secretAnnotations) != o
  {
    var p := w.parts[id];
    var obj := Last(p.qsec).obj;
    var n := Version(obj.(annotations := annotations, spec := spec), w.tokens, UserEdit);
    assert w1.parts[id] == p.(qsec := p.qsec + [n]);
    GenerationWatchExactly(p.qsec[p.gen.queue.seen - 1].obj, n.obj);
  }

  // With the acknowledgement seen, every such edit is noticed.
  lemma EditsAreNoticed(w: World, id: Key, annotations: StringMap, spec: Spec, ownsSecret: bool, w1: World, w2: World)
    requires id in w.parts && MetadataEdits.GenerationAtRest(w.parts[id])
    requires w.parts[id].gen.queue.seen == |w.parts[id].qsec|
    requires var o := Last(w.parts[id].qsec).obj.spec;
             || spec.secretType != o.secretType || spec.request != o.request
             || spec.secretName != o.secretName || spec.copies != o.copies
    requires Next(w, On(id, EditSpec(annotations, spec))) == Some(w1)
    requires Next(w1, On(id, Deliver(GenerationController, |w.parts[id].qsec| + 1, ownsSecret))) == Some(w2)
    ensures id in w2.parts && w2.parts[id].gen.queue.dirty
  {
    EditQueuesGenerationExactlyWhen(w, id, annotations, spec, ownsSecret, w1, w2);
  }

  // An edit and its event queue the metadata pass if and only if it changes one of
  // the two maps, whatever the flags are.
  lemma EditQueuesMetadataExactlyWhen(w: World, id: Key, annotations: StringMap, spec: Spec, ownsSecret: bool,
                                      w1: World, w2: World)
    requires id in w.parts && |w.parts[id].qsec| > 0
    requires w.parts[id].meta.queue == Queue(|w.parts[id].qsec|, false, None)
    requires Next(w, On(id, EditSpec(annotations, spec))) == Some(w1)
    requires Next(w1, On(id, Deliver(SecretMetaController, |w.parts[id].qsec| + 1, ownsSecret))) == Some(w2)
    ensures id in w2.parts
    ensures var o := Last(w.parts[id].qsec).obj.spec;
            w2.parts[id].meta.queue.dirty <==>
            spec.secretLabels != o.secretLabels || spec.secretAnnotations != o.secretAnnotations
  {
    var p := w.parts[id];
    var n := Version(Last(p.qsec).obj.(annotations := annotations, spec := spec), w.tokens, UserEdit);
    assert w1.parts[id] == p.(qsec := p.qsec + [n]);
  }
}
