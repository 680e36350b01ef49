// What the steps of each controller leave alone.
module Effects {
  import opened Types
  import opened Operator
  import Mutate

  // The quarks secret got no new version, or one that differs in `copied` only.
  ghost predicate OnlyCopied(o: seq<Version>, n: seq<Version>, stamp: nat) {
    || n == o
    || (|o| > 0 && |n| > 0 && n == o + [Last(n)] && Last(n).stamp == stamp
        && Last(n).writer in {CopyController, MetadataController}
        && Last(n).obj == Last(o).obj.(status := Last(o).obj.status.(copied := Last(n).obj.status.copied)))
  }

  lemma CopyEffect(w: World, id: Key, p: Part, c: CopyStep, e: Effect)
    requires |p.qsec| > 0 && CopyNext(w, id, p, c) == Some(e)
    ensures e.part == p.(copy := e.part.copy, qsec := e.part.qsec)
    ensures e.write == None && e.calls == 0
    ensures OnlyCopied(p.qsec, e.part.qsec, w.tokens)
  {
  }

  lemma MetadataEffect(w: World, id: Key, p: Part, m: MetadataStep, e: Effect)
    requires |p.qsec| > 0 && MetadataNext(w, id, p, m) == Some(e)
    ensures e.part == p.(meta := e.part.meta, qsec := e.part.qsec)
    ensures e.calls == 0
    ensures OnlyCopied(p.qsec, e.part.qsec, w.tokens)
    ensures e.write.Some? ==> m.MetaWrite?
  {
  }

  lemma CsrEffect(w: World, id: Key, p: Part, s: CsrStep, e: Effect)
    requires |p.csr| > 0 && CsrNext(w, id, p, s) == Some(e)
    ensures e.part == p.(sign := e.part.sign, csr := e.part.csr)
    ensures e.calls == 0
    ensures e.write.Some? ==> s.CsrStore? || s.CsrDeleteKey?
  {
  }

  // The steps of a generation pass between its read of the quarks secret and
  // the write of its status.
  predicate MidPass(g: GenerationStep) {
    g.GenNotReady? || g.GenProduce? || g.GenCheck? || g.GenLoad? || g.GenStore?
    || g.GenReadCsr? || g.GenCreateCsr? || g.GenAbort?
  }

  function ReadBy(pass: GenerationPass): Option<nat> {
    match pass
    case GenIdle => None
    case GenFetching => None
    case _ => Some(pass.v)
  }

  // The pass goes on with what it read, or ends and comes back later.
  predicate GoesOnOrComesBack(o: GenerationSide, n: GenerationSide) {
    || (n.queue == o.queue && ReadBy(o.pass).Some? && ReadBy(n.pass) == ReadBy(o.pass))
    || (n.pass.GenIdle? && n.queue.waiting.Some? && n.queue == o.queue.(waiting := n.queue.waiting))
  }

  lemma StoreMidPass(w: World, id: Key, p: Part, wanted: Mutate.Wanted<Datum>, retryAt: nat, e: Effect)
    requires p.gen.pass.Storing? && p.gen.pass.v < |p.qsec|
    requires StoreSecret(w, id, p, wanted, retryAt) == Some(e)
    ensures e.part == p.(gen := e.part.gen) && GoesOnOrComesBack(p.gen, e.part.gen)
  {
  }

  lemma MidPassEffect(w: World, id: Key, p: Part, g: GenerationStep, e: Effect)
    requires |p.qsec| > 0 && |p.csr| > 0 && MidPass(g) && GenerationNext(w, id, p, g) == Some(e)
    ensures e.part == p.(gen := e.part.gen, csr := e.part.csr)
    ensures GoesOnOrComesBack(p.gen, e.part.gen)
    ensures e.write.Some? ==> g.GenStore?
    ensures e.calls == if g.GenProduce? then 1 else 0
    ensures !g.GenCreateCsr? ==> e.part.csr == p.csr
  {
    if g.GenStore? {
      StoreMidPass(w, id, p, g.wanted, g.retryAt, e);
    }
  }

  // The history of one secret after a step.
  function After(h: seq<Option<StoredSecret>>, e: Effect, name: SecretName): seq<Option<StoredSecret>> {
    if e.write.Some? && e.write.value.name == name then h + [e.write.value.content] else h
  }

  lemma HistoryAfter(w: World, id: Key, e: Effect, name: SecretName)
    ensures History(Apply(w, id, e), name) == After(History(w, name), e, name)
  {
  }

  // A key secret is written by the controllers of its own quarks secret only.
  lemma KeySecretHasOneOwner(w: World, id: Key, step: Step, e: Effect, owner: Key)
    requires id in w.parts && |w.parts[id].qsec| > 0 && |w.parts[id].csr| > 0
    requires PartNext(w, id, w.parts[id], step) == Some(e) && owner != id
    ensures e.write.Some? ==> e.write.value.name != KeySecret(owner)
  {
  }

  // The three ways a CreateOrUpdate of a generation pass can end.
  datatype StoreOutcome = AlreadyThere | WrittenNow | Conflicted

  ghost predicate StoreEndsAs(o: StoreOutcome, p: Part, h: seq<Option<StoredSecret>>, name: SecretName,
                              result: StoredSecret, e: Effect)
    requires p.gen.pass.Storing? && p.gen.pass.v < |p.qsec|
  {
    var Storing(v, token, base) := p.gen.pass;
    var spec := p.qsec[v].obj.spec;
    && base < |h| && e.calls == 0
    && match o
       case AlreadyThere =>
         && e.write == None && h[base] == Some(result)
         && e.part == p.(gen := p.gen.(pass := AfterSecret(spec, v, token, None)))
       case WrittenNow =>
         && e.write == Some(Write(name, Some(result)))
         && e.part == p.(gen := p.gen.(pass := AfterSecret(spec, v, token, Some(|h|))))
         && Unconflicted(h, base)
       case Conflicted =>
         && e.write == None && e.part == p.(gen := GenerationSide(e.part.gen.queue, GenIdle))
  }

  lemma StoreOutcomes(w: World, id: Key, p: Part, wanted: Mutate.Wanted<Datum>, retryAt: nat, e: Effect)
    returns (o: StoreOutcome)
    requires p.gen.pass.Storing? && p.gen.pass.v < |p.qsec|
    requires StoreSecret(w, id, p, wanted, retryAt) == Some(e)
    ensures var spec := p.qsec[p.gen.pass.v].obj.spec;
            var h := History(w, Destination(id, spec));
            && IsWanted(spec, p.gen.pass.token, wanted) && p.gen.pass.base < |h|
            && StoreEndsAs(o, p, h, Destination(id, spec),
                           Mutate.Result(h[p.gen.pass.base], wanted), e)
  {
    o := if e.write.Some? then WrittenNow else if e.part.gen.pass.GenIdle? then Conflicted else AlreadyThere;
  }

  // The write is sent exactly when it changes the secret that was read, and goes
  // through exactly when nobody wrote since, or the secret was and is not there.
  // Otherwise the pass ends and is tried again.
  lemma StoreExactly(w: World, id: Key, p: Part, wanted: Mutate.Wanted<Datum>, retryAt: nat)
    requires p.gen.pass.Storing? && p.gen.pass.v < |p.qsec|
    requires IsWanted(p.qsec[p.gen.pass.v].obj.spec, p.gen.pass.token, wanted)
    requires p.gen.pass.base < |History(w, Destination(id, p.qsec[p.gen.pass.v].obj.spec))|
    ensures var h := History(w, Destination(id, p.qsec[p.gen.pass.v].obj.spec));
            var base := h[p.gen.pass.base];
            var changed := base != Some(Mutate.Result(base, wanted));
            var current := p.gen.pass.base == |h| - 1 || (base == None && h[|h| - 1] == None);
            var e := StoreSecret(w, id, p, wanted, retryAt);
            && e.Some?
            && (e.value.write.Some? <==> changed && current)
            && (e.value.part.gen.pass == GenIdle <==> changed && !current)
            && (changed && !current ==> e.value.part.gen.queue == Requeue(p.gen.queue, retryAt))
  {
  }

  // Watches, users, and the copy and metadata controllers.
  lemma OutsideEffect(w: World, id: Key, p: Part, step: Step, e: Effect)
    requires |p.qsec| > 0 && |p.csr| > 0 && !step.Generate? && !step.Sign?
    requires PartNext(w, id, p, step) == Some(e)
    ensures p.qsec <= e.part.qsec && |e.part.qsec| <= |p.qsec| + 1
    ensures e.part.csr == p.csr && e.part.gen.pass == p.gen.pass && e.part.sign == p.sign
    ensures e.calls == 0
    ensures e.write.Some? ==> step.SyncMetadata? && step.m.MetaWrite? && e.write.value.name.Plain?
  {
    match step {
      case Copy(c) => CopyEffect(w, id, p, c, e);
      case SyncMetadata(m) => MetadataEffect(w, id, p, m, e);
      case _ =>
    }
  }

  // A signing request is created by the generation controller; afterwards it
  // is approved, issued or deleted.
  ghost predicate CsrMoves(o: seq<Option<Csr>>, n: seq<Option<Csr>>) {
    || n == o
    || n == o + [None]
    || (|o| > 0 && Last(o).Some? &&
        var c := Last(o).value;
        n == o + [Some(c.(approved := true))] || n == o + [Some(c.(certificate := Some(c.request)))])
  }

  // What the CSR pass carries from one call to the next.
  ghost predicate CsrPassMoves(p: Part, n: CsrPass, keys: seq<Option<StoredSecret>>) {
    var o := p.sign.pass;
    match n
    case AwaitingKey(c) =>
      o == n || (c.certificate.Some? && exists i: nat :: Readable(p.sign.queue, p.csr, i) && p.csr[i] == Some(c))
    case LoadingCert(c, key, i) => o == n || (o == AwaitingKey(c) && i < |keys| && keys[i] == Some(key))
    case WritingCert(c, key, i, _) => o == n || o == LoadingCert(c, key, i)
    case DeletingKey(c) => o == n || (o.WritingCert? && o.csr == c)
    case DeletingCsr(c) => o == n || o == DeletingKey(c)
    case _ => true
  }

  lemma CsrShape(w: World, id: Key, p: Part, s: CsrStep, e: Effect)
    requires |p.csr| > 0 && CsrNext(w, id, p, s) == Some(e)
    ensures e.part == p.(sign := e.part.sign, csr := e.part.csr) && e.calls == 0 && |e.part.csr| > 0
    ensures e.part.sign.queue.seen >= p.sign.queue.seen
    ensures s.CsrDeleteKey? ==> e.part.csr == p.csr
    ensures p.sign.queue.seen <= |p.csr| ==> e.part.sign.queue.seen <= |e.part.csr|
    ensures e.part.csr != p.csr && Last(e.part.csr).None? ==> p.sign.pass.DeletingCsr? && e.part.sign.pass.CsrIdle?
    ensures e.part.sign.pass.LoadingCert? && e.part.sign.pass != p.sign.pass ==>
              s.CsrReadKey? && e.part.sign.pass.keyVersion == s.i
    ensures CsrMoves(p.csr, e.part.csr) && CsrPassMoves(p, e.part.sign.pass, History(w, KeySecret(id)))
    ensures e.write.Some? ==>
              if s.CsrDeleteKey? then e.write == Some(Write(KeySecret(id), None)) && e.part.sign.pass.DeletingCsr?
              else s.CsrStore? && e.write.value.name.Plain?
  {
  }

  lemma MetadataWriteShape(w: World, id: Key, p: Part, m: MetadataStep, e: Effect)
    requires |p.qsec| > 0 && MetadataNext(w, id, p, m) == Some(e) && e.write.Some?
    ensures p.meta.pass.MetaWriting? && p.meta.pass.v < |p.qsec|
    ensures var spec := p.qsec[p.meta.pass.v].obj.spec;
            var current := Current(w, Target(id, spec));
            current.Some? && e.write.value == Write(Target(id, spec), Some(Synced(spec, current.value)))
  {
  }

  // A CSR pass that gets past its write, whether it had to write or not.
  lemma CertificateWriteShape(w: World, id: Key, p: Part, s: CsrStep, e: Effect)
    requires |p.csr| > 0 && CsrNext(w, id, p, s) == Some(e) && s.CsrStore?
    ensures p.sign.pass.WritingCert? && e.part.csr == p.csr && p.sign.pass.base < |History(w, Plain(p.sign.pass.csr.target))|
    ensures var pass := p.sign.pass;
            var base := History(w, Plain(pass.csr.target))[pass.base];
            var result := Mutate.CertificateSecret(base, CertificateData(pass.csr, pass.key, s.extra));
            var stored := p.(sign := p.sign.(pass := DeletingKey(pass.csr)));
            if e.write.Some? then e.write == Some(Write(Plain(pass.csr.target), Some(result))) && e.part == stored
            else e.part.sign.pass == CsrIdle || (e.part == stored && base == Some(result))
  {
  }

  lemma KeyDeletionShape(w: World, id: Key, p: Part, s: CsrStep, e: Effect)
    requires |p.csr| > 0 && CsrNext(w, id, p, s) == Some(e) && s.CsrDeleteKey? && e.write.Some?
    ensures p.sign.pass.DeletingKey? && e.part == p.(sign := p.sign.(pass := DeletingCsr(p.sign.pass.csr)))
  {
  }

  // There is no signing request, the CSR controller knows it, and it is idle.
  predicate Settled(p: Part) {
    |p.csr| > 0 && Last(p.csr) == None && p.sign.queue.seen == |p.csr|
    && (p.sign.pass.CsrIdle? || p.sign.pass.CsrFetching?)
  }

  lemma SettledStays(w: World, id: Key, p: Part, s: CsrStep, e: Effect)
    requires Settled(p) && CsrNext(w, id, p, s) == Some(e)
    ensures Settled(e.part) && e.write == None
  {
  }

  // Actions on anything else leave a quarks secret and its key secret alone.
  lemma OthersLeaveAlone(w: World, a: Action, w': World, id: Key)
    requires Next(w, a) == Some(w') && !(a.On? && a.id == id) && !(a.CreateQuarksSecret? && a.id == id)
    ensures (id in w.parts <==> id in w'.parts) && (id in w.parts ==> w'.parts[id] == w.parts[id])
    ensures w.tokens <= w'.tokens
    ensures History(w', KeySecret(id)) == History(w, KeySecret(id))
  {
    if a.On? {
      var e := PartNext(w, a.id, w.parts[a.id], a.step).value;
      HistoryAfter(w, a.id, e, KeySecret(id));
      KeySecretHasOneOwner(w, a.id, a.step, e, id);
    }
  }

  // Versions are only ever added.
  lemma GenerationGrows(w: World, id: Key, p: Part, g: GenerationStep, e: Effect)
    requires |p.qsec| > 0 && |p.csr| > 0 && GenerationNext(w, id, p, g) == Some(e)
    ensures p.qsec <= e.part.qsec && |e.part.qsec| <= |p.qsec| + 1 && |e.part.csr| > 0
    ensures e.part.qsec != p.qsec ==> g.GenAcknowledge? && e.write == None
  {
    if MidPass(g) {
      MidPassEffect(w, id, p, g, e);
    }
  }

  lemma PartGrows(w: World, id: Key, p: Part, step: Step, e: Effect)
    requires |p.qsec| > 0 && |p.csr| > 0 && PartNext(w, id, p, step) == Some(e)
    ensures p.qsec <= e.part.qsec && |e.part.qsec| <= |p.qsec| + 1 && |e.part.csr| > 0
  {
    match step {
      case Generate(g) => GenerationGrows(w, id, p, g, e);
      case Sign(s) => CsrShape(w, id, p, s, e);
      case _ => OutsideEffect(w, id, p, step, e);
    }
  }

  lemma VersionsGrow(w: World, a: Action, w': World, id: Key)
    requires id in w.parts && Next(w, a) == Some(w')
    ensures id in w'.parts && w.parts[id].qsec <= w'.parts[id].qsec
    ensures |w'.parts[id].qsec| <= |w.parts[id].qsec| + 1
    ensures |w.parts[id].csr| > 0 ==> |w'.parts[id].csr| > 0
  {
    if a.On? && a.id == id {
      PartGrows(w, id, w.parts[id], a.step, PartNext(w, id, w.parts[id], a.step).value);
    }
  }

  lemma HistoryGrows(w: World, a: Action, w': World, name: SecretName)
    requires Next(w, a) == Some(w')
    ensures History(w, name) <= History(w', name)
  {
    if a.On? {
      HistoryAfter(w, a.id, PartNext(w, a.id, w.parts[a.id], a.step).value, name);
    }
  }
}
