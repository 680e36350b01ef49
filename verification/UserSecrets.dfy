// A user's secret at the name a quarks secret wants is never overwritten, as
// long as the check for it is made with a read that succeeds and is not older
// than the user's secret.
module UserSecrets {
  import opened Types
  import opened Operator
  import opened Effects
  import opened CleanPass
  import Mutate

  // The name of the user's secret. With `local`, no quarks secret that wants it is
  // signed by the cluster.
  datatype Owned = Owned(key: Key, local: bool)
  {
    function Name(): SecretName { Plain(key) }
  }

  predicate Wants(o: Owned, id: Key, spec: Spec) {
    Target(id, spec) == o.Name()
  }

  // The spec does not itself claim that the secret is generated.
  predicate Honest(o: Owned, spec: Spec) {
    !HasEntry(spec.secretLabels, LABEL_KIND, GENERATED_SECRET_KIND) && (o.local ==> !ClusterSigned(spec))
  }

  predicate UsersSecret(s: Option<StoredSecret>) {
    s.Some? && !IsGeneratedKind(s.value.labels)
  }

  // ---- What the run must respect -----------------------------------------

  predicate WantedBy(w: World, id: Key, o: Owned) {
    id in w.parts && |w.parts[id].qsec| > 0 && Wants(o, id, Last(w.parts[id].qsec).obj.spec)
  }

  // Quarks secrets that want the name are honest, and they always or never want it.
  predicate Considerate(w: World, a: Action, o: Owned) {
    match a
    case CreateQuarksSecret(id, _, spec) => Wants(o, id, spec) ==> Honest(o, spec)
    case On(id, step) =>
      step.EditSpec? && id in w.parts && |w.parts[id].qsec| > 0 ==>
        (Wants(o, id, step.spec) <==> WantedBy(w, id, o)) && (WantedBy(w, id, o) ==> Honest(o, step.spec))
    case _ => true
  }

  // The check of a quarks secret that wants the name does not fail and reads a
  // version that is a user's.
  predicate Checked(w: World, a: Action, o: Owned) {
    a.On? && a.step.Generate? && a.step.g.GenCheck? && WantedBy(w, a.id, o) ==>
      var read, h := a.step.g.read, History(w, o.Name());
      read.Some? && read.value < |h| && UsersSecret(h[read.value])
  }

  predicate Edits(a: Action, o: Owned) {
    a.EditSecret? && a.key == o.key
  }

  // The user keeps the secret, and keeps it unlabelled.
  predicate StaysTheUsers(a: Action, o: Owned) {
    Edits(a, o) ==> a.content.Some? && !IsGeneratedKind(a.content.value.labels)
  }

  // ---- What then always holds ----------------------------------------------

  // Without a key secret the CSR controller gets no further than to wait for it.
  predicate Keyless(p: Part, h: seq<Option<StoredSecret>>) {
    && h == [None]
    && (p.sign.pass.CsrIdle? || p.sign.pass.CsrFetching? || p.sign.pass.Approving? || p.sign.pass.AwaitingKey?)
  }

  // A pass past its check is about to read the secret it will write, or has read
  // the stored version of it. A write of an older version fails.
  predicate Pending(p: Part, h: seq<Option<StoredSecret>>, t: seq<Option<StoredSecret>>) {
    match p.gen.pass
    case Loading(_, _) => true
    case Storing(v, _, base) => v < |p.qsec| && base + 1 == |Destined(p, v, h, t)|
    case _ => false
  }

  // The history of what a pass for version v writes.
  function Destined(p: Part, v: nat, h: seq<Option<StoredSecret>>, t: seq<Option<StoredSecret>>):
    seq<Option<StoredSecret>>
    requires v < |p.qsec|
  {
    if ClusterSigned(p.qsec[v].obj.spec) then h else t
  }

  predicate BaseExists(p: Part, h: seq<Option<StoredSecret>>, t: seq<Option<StoredSecret>>) {
    p.gen.pass.Storing? ==>
      p.gen.pass.v < |p.qsec| && p.gen.pass.base < |Destined(p, p.gen.pass.v, h, t)|
  }

  // `guarded` is false before the user's secret is created.
  ghost predicate Wanting(p: Part, id: Key, h: seq<Option<StoredSecret>>, t: seq<Option<StoredSecret>>, o: Owned,
                          guarded: bool)
  {
    && (forall i :: 0 <= i < |p.qsec| ==> Wants(o, id, p.qsec[i].obj.spec) && Honest(o, p.qsec[i].obj.spec))
    && BaseExists(p, h, t)
    && (o.local || guarded ==> Keyless(p, h))
    && (guarded ==> !Pending(p, h, t))
  }

  function PassTarget(pass: CsrPass): Option<Key> {
    match pass
    case AwaitingKey(c) => Some(c.target)
    case LoadingCert(c, _, _) => Some(c.target)
    case WritingCert(c, _, _, _) => Some(c.target)
    case _ => None
  }

  ghost predicate Unconcerned(p: Part, id: Key, o: Owned) {
    && (forall i :: 0 <= i < |p.qsec| ==> !Wants(o, id, p.qsec[i].obj.spec))
    && (forall i :: 0 <= i < |p.csr| && p.csr[i].Some? ==> p.csr[i].value.target != o.key)
    && PassTarget(p.sign.pass) != Some(o.key)
  }

  ghost predicate PartSafe(p: Part, id: Key, h: seq<Option<StoredSecret>>, t: seq<Option<StoredSecret>>, o: Owned,
                           guarded: bool)
  {
    && |p.qsec| > 0 && |p.csr| > 0
    && (var v := ReadBy(p.gen.pass); v.Some? ==> v.value < |p.qsec|)
    && if Wants(o, id, Last(p.qsec).obj.spec) then Wanting(p, id, h, t, o, guarded) else Unconcerned(p, id, o)
  }

  ghost predicate Ordered(w: World, o: Owned, guarded: bool) {
    && (forall id :: id in w.parts ==>
          PartSafe(w.parts[id], id, History(w, KeySecret(id)), History(w, o.Name()), o, guarded))
    && (forall id :: id !in w.parts ==> History(w, KeySecret(id)) == [None])
  }

  // No quarks secret that wants the name is about to write it, and none has a key
  // that would get there with a certificate.
  ghost predicate Ready(w: World, o: Owned) {
    Ordered(w, o, true)
  }

  ghost predicate Safe(w: World, o: Owned) {
    Ready(w, o) && UsersSecret(Current(w, o.Name()))
  }

  // The same, of one state: what can be looked up when the user's secret is created.
  ghost predicate NonePending(w: World, o: Owned) {
    forall id :: WantedBy(w, id, o) ==> !Pending(w.parts[id], History(w, KeySecret(id)), History(w, o.Name()))
  }

  ghost predicate NoKeys(w: World, o: Owned) {
    forall id :: WantedBy(w, id, o) ==> Keyless(w.parts[id], History(w, KeySecret(id)))
  }

  // A user's secret stays one and keeps its data.
  ghost predicate DataKept(t: seq<Option<StoredSecret>>, t': seq<Option<StoredSecret>>) {
    |t| > 0 && |t'| > 0 &&
    (UsersSecret(Last(t)) ==> UsersSecret(Last(t')) && Last(t').value.data == Last(t).value.data)
  }

  // ---- Steps -----------------------------------------------------------------

  ghost predicate StaysSafe(w: World, id: Key, e: Effect, o: Owned, guarded: bool) {
    var t, t' := History(w, o.Name()), After(History(w, o.Name()), e, o.Name());
    && PartSafe(e.part, id, After(History(w, KeySecret(id)), e, KeySecret(id)), t', o, guarded)
    && (guarded ==> DataKept(t, t'))
  }

  ghost predicate NowSafe(w: World, id: Key, o: Owned, guarded: bool) {
    id in w.parts && PartSafe(w.parts[id], id, History(w, KeySecret(id)), History(w, o.Name()), o, guarded)
  }

  lemma StoreSafe(w: World, id: Key, wanted: Mutate.Wanted<Datum>, retryAt: nat, e: Effect, o: Owned, guarded: bool)
    requires NowSafe(w, id, o, guarded) && w.parts[id].gen.pass.Storing?
    requires StoreSecret(w, id, w.parts[id], wanted, retryAt) == Some(e)
    ensures StaysSafe(w, id, e, o, guarded)
  {
    var p := w.parts[id];
    var outcome := StoreOutcomes(w, id, p, wanted, retryAt, e);
    var spec := p.qsec[p.gen.pass.v].obj.spec;
    assert Wants(o, id, spec) <==> Wants(o, id, Last(p.qsec).obj.spec);
  }

  lemma CheckShape(w: World, id: Key, read: Option<nat>, e: Effect)
    requires id in w.parts && w.parts[id].gen.pass.Checking? && w.parts[id].gen.pass.v < |w.parts[id].qsec|
    requires CheckExisting(w, id, w.parts[id], read) == Some(e)
    ensures e.part == w.parts[id].(gen := e.part.gen) && e.write == None
    ensures ReadBy(e.part.gen.pass) == ReadBy(w.parts[id].gen.pass) && !e.part.gen.pass.Storing?
  {
  }

  // The check finds the user's secret, so nothing is created.
  lemma CheckSafe(w: World, id: Key, read: Option<nat>, e: Effect, o: Owned, guarded: bool)
    requires NowSafe(w, id, o, guarded) && w.parts[id].gen.pass.Checking?
    requires CheckExisting(w, id, w.parts[id], read) == Some(e)
    requires guarded ==> Checked(w, On(id, Generate(GenCheck(read))), o)
    ensures StaysSafe(w, id, e, o, guarded)
  {
    var p := w.parts[id];
    assert Wants(o, id, Last(p.qsec).obj.spec) ==> Wants(o, id, p.qsec[p.gen.pass.v].obj.spec);
    CheckShape(w, id, read, e);
    PassSafe(p, e.part, id, History(w, KeySecret(id)), History(w, o.Name()), o, guarded);
  }

  lemma CreateCsrSafe(id: Key, p: Part, retryAt: nat, e: Effect, h: seq<Option<StoredSecret>>,
                      t: seq<Option<StoredSecret>>, o: Owned, guarded: bool)
    requires PartSafe(p, id, h, t, o, guarded) && p.gen.pass.CreatingCsr? && CreateCsr(id, p, retryAt) == Some(e)
    ensures PartSafe(e.part, id, h, t, o, guarded) && e.write == None
  {
    assert Wants(o, id, Last(p.qsec).obj.spec) == Wants(o, id, p.qsec[p.gen.pass.v].obj.spec);
  }

  lemma PassSafe(p: Part, p': Part, id: Key, h: seq<Option<StoredSecret>>, t: seq<Option<StoredSecret>>, o: Owned,
                 guarded: bool)
    requires PartSafe(p, id, h, t, o, guarded) && p' == p.(gen := p'.gen)
    requires var v := ReadBy(p'.gen.pass); v.Some? ==> v.value < |p.qsec|
    requires Wants(o, id, Last(p.qsec).obj.spec) ==> BaseExists(p', h, t) && (guarded ==> !Pending(p', h, t))
    ensures PartSafe(p', id, h, t, o, guarded)
  {
  }

  // The remaining steps of a generation pass keep what it read and write nothing.
  lemma PlainPassShape(w: World, id: Key, p: Part, g: GenerationStep, e: Effect)
    requires |p.qsec| > 0 && |p.csr| > 0 && GenerationNext(w, id, p, g) == Some(e)
    requires !g.GenStore? && !g.GenCheck? && !g.GenCreateCsr? && !g.GenAcknowledge?
    requires var v := ReadBy(p.gen.pass); v.Some? ==> v.value < |p.qsec|
    ensures e.part == p.(gen := e.part.gen) && e.write == None
    ensures var v := ReadBy(e.part.gen.pass); v.Some? ==> v.value < |p.qsec|
    ensures e.part.gen.pass.Loading? || e.part.gen.pass.Storing? ==>
              p.gen.pass.Loading? || e.part.gen.pass == p.gen.pass
    ensures p.gen.pass.Loading? && e.part.gen.pass.Storing? ==>
              e.part.gen.pass.v == p.gen.pass.v < |p.qsec|
              && e.part.gen.pass.base < |History(w, Destination(id, p.qsec[p.gen.pass.v].obj.spec))|
  {
  }

  lemma VersionSafe(p: Part, p': Part, id: Key, h: seq<Option<StoredSecret>>, t: seq<Option<StoredSecret>>,
                    t': seq<Option<StoredSecret>>, o: Owned, guarded: bool)
    requires PartSafe(p, id, h, t, o, guarded) && |t| <= |t'| && p'.csr == p.csr && p'.sign.pass == p.sign.pass
    requires p'.gen.pass == p.gen.pass || p'.gen.pass == GenIdle
    requires p'.qsec == p.qsec
             || (|p'.qsec| > 0 && p'.qsec == p.qsec + [Last(p'.qsec)]
                 && var o', n' := Last(p.qsec).obj.spec, Last(p'.qsec).obj.spec;
                    (Wants(o, id, n') <==> Wants(o, id, o')) && (Wants(o, id, o') ==> Honest(o, n')))
    ensures PartSafe(p', id, h, t', o, guarded)
  {
  }

  lemma PlainPassSafe(w: World, id: Key, g: GenerationStep, e: Effect, o: Owned, guarded: bool)
    requires NowSafe(w, id, o, guarded) && GenerationNext(w, id, w.parts[id], g) == Some(e)
    requires !g.GenStore? && !g.GenCheck? && !g.GenCreateCsr? && !g.GenAcknowledge?
    ensures StaysSafe(w, id, e, o, guarded)
  {
    var p := w.parts[id];
    PlainPassShape(w, id, p, g, e);
    if p.gen.pass.Loading? {
      var v := p.gen.pass.v;
      assert Wants(o, id, p.qsec[v].obj.spec) == Wants(o, id, Last(p.qsec).obj.spec);
    }
    PassSafe(p, e.part, id, History(w, KeySecret(id)), History(w, o.Name()), o, guarded);
  }

  lemma GenerationSafe(w: World, id: Key, g: GenerationStep, e: Effect, o: Owned, guarded: bool)
    requires NowSafe(w, id, o, guarded) && GenerationNext(w, id, w.parts[id], g) == Some(e)
    requires guarded ==> Checked(w, On(id, Generate(g)), o)
    ensures StaysSafe(w, id, e, o, guarded)
  {
    var p, h, t := w.parts[id], History(w, KeySecret(id)), History(w, o.Name());
    match g {
      case GenStore(wanted, retryAt) => StoreSafe(w, id, wanted, retryAt, e, o, guarded);
      case GenCheck(read) => CheckSafe(w, id, read, e, o, guarded);
      case GenCreateCsr(retryAt) => CreateCsrSafe(id, p, retryAt, e, h, t, o, guarded);
      case GenAcknowledge => VersionSafe(p, e.part, id, h, t, t, o, guarded);
      case _ => PlainPassSafe(w, id, g, e, o, guarded);
    }
  }

  lemma SyncedSafe(spec: Spec, s: StoredSecret)
    requires !HasEntry(spec.secretLabels, LABEL_KIND, GENERATED_SECRET_KIND) && !IsGeneratedKind(s.labels)
    ensures Synced(spec, s).data == s.data && !IsGeneratedKind(Synced(spec, s).labels)
  {
  }

  lemma MetadataSafe(w: World, id: Key, m: MetadataStep, e: Effect, o: Owned, guarded: bool)
    requires NowSafe(w, id, o, guarded) && MetadataNext(w, id, w.parts[id], m) == Some(e)
    ensures StaysSafe(w, id, e, o, guarded)
  {
    var p, t := w.parts[id], History(w, o.Name());
    MetadataEffect(w, id, p, m, e);
    VersionSafe(p, e.part, id, History(w, KeySecret(id)), t, After(t, e, o.Name()), o, guarded);
    if e.write.Some? {
      MetadataWriteShape(w, id, p, m, e);
      var spec := p.qsec[p.meta.pass.v].obj.spec;
      if Wants(o, id, spec) && UsersSecret(Current(w, o.Name())) {
        assert Honest(o, spec);
        SyncedSafe(spec, Current(w, o.Name()).value);
      }
    }
  }

  // Without a key secret no certificate secret is written.
  lemma SigningWantingSafe(w: World, id: Key, s: CsrStep, e: Effect, o: Owned, guarded: bool)
    requires NowSafe(w, id, o, guarded) && CsrNext(w, id, w.parts[id], s) == Some(e)
    requires Wants(o, id, Last(w.parts[id].qsec).obj.spec)
    ensures StaysSafe(w, id, e, o, guarded)
  {
    CsrShape(w, id, w.parts[id], s, e);
  }

  lemma SigningUnconcernedSafe(w: World, id: Key, s: CsrStep, e: Effect, o: Owned, guarded: bool)
    requires NowSafe(w, id, o, guarded) && CsrNext(w, id, w.parts[id], s) == Some(e)
    requires !Wants(o, id, Last(w.parts[id].qsec).obj.spec)
    ensures StaysSafe(w, id, e, o, guarded)
  {
    CsrShape(w, id, w.parts[id], s, e);
    if s.CsrStore? {
      CertificateWriteShape(w, id, w.parts[id], s, e);
    }
  }

  lemma OutsideSafe(w: World, id: Key, step: Step, e: Effect, o: Owned, guarded: bool)
    requires NowSafe(w, id, o, guarded) && PartNext(w, id, w.parts[id], step) == Some(e)
    requires !step.Generate? && !step.SyncMetadata? && !step.Sign? && Considerate(w, On(id, step), o)
    ensures StaysSafe(w, id, e, o, guarded)
  {
    var p, t := w.parts[id], History(w, o.Name());
    if step.Copy? {
      CopyEffect(w, id, p, step.c, e);
    }
    VersionSafe(p, e.part, id, History(w, KeySecret(id)), t, t, o, guarded);
  }

  lemma StepSafe(w: World, id: Key, step: Step, e: Effect, o: Owned, guarded: bool)
    requires NowSafe(w, id, o, guarded) && PartNext(w, id, w.parts[id], step) == Some(e)
    requires Considerate(w, On(id, step), o) && (guarded ==> Checked(w, On(id, step), o))
    ensures StaysSafe(w, id, e, o, guarded)
  {
    match step {
      case Generate(g) => GenerationSafe(w, id, g, e, o, guarded);
      case SyncMetadata(m) => MetadataSafe(w, id, m, e, o, guarded);
      case Sign(s) =>
        if Wants(o, id, Last(w.parts[id].qsec).obj.spec) {
          SigningWantingSafe(w, id, s, e, o, guarded);
        } else {
          SigningUnconcernedSafe(w, id, s, e, o, guarded);
        }
      case _ => OutsideSafe(w, id, step, e, o, guarded);
    }
  }

  lemma NewPartSafe(id: Key, annotations: StringMap, spec: Spec, tokens: nat, t: seq<Option<StoredSecret>>, o: Owned,
                    guarded: bool)
    requires Wants(o, id, spec) ==> Honest(o, spec)
    ensures PartSafe(NewPart(annotations, spec, tokens), id, [None], t, o, guarded)
  {
  }

  lemma AppliedSafe(w: World, id: Key, e: Effect, o: Owned, guarded: bool)
    requires StaysSafe(w, id, e, o, guarded)
    ensures NowSafe(Apply(w, id, e), id, o, guarded)
    ensures guarded ==> DataKept(History(w, o.Name()), History(Apply(w, id, e), o.Name()))
  {
    HistoryAfter(w, id, e, o.Name());
    HistoryAfter(w, id, e, KeySecret(id));
  }

  lemma OwnStepSafe(w: World, id: Key, step: Step, w': World, o: Owned, guarded: bool)
    requires Ordered(w, o, guarded) && Next(w, On(id, step)) == Some(w')
    requires Considerate(w, On(id, step), o) && (guarded ==> Checked(w, On(id, step), o))
    ensures NowSafe(w', id, o, guarded)
    ensures guarded ==> DataKept(History(w, o.Name()), History(w', o.Name()))
  {
    var e := PartNext(w, id, w.parts[id], step).value;
    StepSafe(w, id, step, e, o, guarded);
    AppliedSafe(w, id, e, o, guarded);
  }

  lemma OtherStaysSafe(w: World, a: Action, w': World, id: Key, o: Owned, guarded: bool)
    requires Ordered(w, o, guarded) && Next(w, a) == Some(w')
    requires !((a.On? || a.CreateQuarksSecret?) && a.id == id)
    ensures id in w'.parts <==> id in w.parts
    ensures id in w.parts ==> NowSafe(w', id, o, guarded)
    ensures History(w', KeySecret(id)) == History(w, KeySecret(id))
  {
    OthersLeaveAlone(w, a, w', id);
    HistoryGrows(w, a, w', o.Name());
  }

  lemma CreatedSafe(w: World, id: Key, annotations: StringMap, spec: Spec, w': World, o: Owned, guarded: bool)
    requires Ordered(w, o, guarded) && Next(w, CreateQuarksSecret(id, annotations, spec)) == Some(w')
    requires Wants(o, id, spec) ==> Honest(o, spec)
    ensures NowSafe(w', id, o, guarded) && w'.secrets == w.secrets
  {
    NewPartSafe(id, annotations, spec, w.tokens, History(w, o.Name()), o, guarded);
  }

  lemma ActionOrdered(w: World, a: Action, w': World, o: Owned, guarded: bool)
    requires Ordered(w, o, guarded) && Next(w, a) == Some(w')
    requires Considerate(w, a, o) && (guarded ==> Checked(w, a, o))
    ensures Ordered(w', o, guarded)
  {
    if a.On? {
      OwnStepSafe(w, a.id, a.step, w', o, guarded);
    } else if a.CreateQuarksSecret? {
      CreatedSafe(w, a.id, a.annotations, a.spec, w', o, guarded);
    }
    forall id | !((a.On? || a.CreateQuarksSecret?) && a.id == id)
      ensures id in w'.parts ==> NowSafe(w', id, o, guarded)
      ensures id !in w'.parts ==> History(w', KeySecret(id)) == [None]
    {
      OtherStaysSafe(w, a, w', id, o, guarded);
    }
  }

  lemma ActionKeepsData(w: World, a: Action, w': World, o: Owned)
    requires Ready(w, o) && Next(w, a) == Some(w') && Considerate(w, a, o) && Checked(w, a, o)
    ensures !Edits(a, o) ==> DataKept(History(w, o.Name()), History(w', o.Name()))
  {
    if a.On? {
      OwnStepSafe(w, a.id, a.step, w', o, true);
    }
  }

  lemma ActionSafe(w: World, a: Action, w': World, o: Owned)
    requires Safe(w, o) && Next(w, a) == Some(w')
    requires Considerate(w, a, o) && Checked(w, a, o) && StaysTheUsers(a, o)
    ensures Safe(w', o)
    ensures !Edits(a, o) ==> DataKept(History(w, o.Name()), History(w', o.Name()))
  {
    ActionOrdered(w, a, w', o, true);
    if Edits(a, o) {
      EditLeavesUsers(w, a, w', o);
    } else {
      ActionKeepsData(w, a, w', o);
    }
  }

  lemma EditLeavesUsers(w: World, a: Action, w': World, o: Owned)
    requires Next(w, a) == Some(w') && Edits(a, o) && StaysTheUsers(a, o)
    ensures UsersSecret(Current(w', o.Name()))
  {
    assert Current(w', o.Name()) == Some(UserContent(a.content.value));
  }

  // An edit stores just what the user wrote, under that name only.
  lemma EditStoresWhatWasWritten(w: World, key: Key, content: Secret<string>, w': World, name: SecretName)
    requires Next(w, EditSecret(key, Some(content))) == Some(w')
    ensures w'.parts == w.parts && (name != Plain(key) ==> History(w', name) == History(w, name))
    ensures var s := Current(w', Plain(key));
            && s.Some? && s.value.labels == content.labels && s.value.annotations == content.annotations
            && s.value.data.Keys == content.data.Keys
            && forall k :: k in content.data ==> s.value.data[k] == Given(content.data[k])
  {
    assert Current(w', Plain(key)) == Some(UserContent(content));
  }

  // ---- Runs -----------------------------------------------------------------

  lemma InitialIsOrdered(w: World, o: Owned)
    requires Initial(w)
    ensures Ordered(w, o, false)
  {
  }

  // Before the user's secret is there nothing is asked of the checks.
  lemma {:induction false} OrderedAlongRun(run: seq<World>, acts: seq<Action>, i: nat, o: Owned)
    requires IsRun(run, acts) && Initial(run[0]) && i < |run|
    requires forall j :: 0 <= j < i ==> Considerate(run[j], acts[j], o)
    ensures Ordered(run[i], o, false)
  {
    if i == 0 {
      InitialIsOrdered(run[0], o);
    } else {
      OrderedAlongRun(run, acts, i - 1, o);
      assert Next(run[i - 1], acts[i - 1]) == Some(run[i]);
      ActionOrdered(run[i - 1], acts[i - 1], run[i], o, false);
    }
  }

  // The state in which the user's secret is created decides.
  lemma ReadyExactlyWhen(w: World, o: Owned)
    requires Ordered(w, o, false)
    ensures Ready(w, o) <==> NonePending(w, o) && NoKeys(w, o)
    ensures o.local ==> NoKeys(w, o)
  {
  }

  // The state in which the user's secret is created.
  ghost predicate StartsClear(w: World, o: Owned) {
    UsersSecret(Current(w, o.Name())) && NonePending(w, o) && NoKeys(w, o)
  }

  lemma SafeAtFirst(run: seq<World>, acts: seq<Action>, k: nat, o: Owned)
    requires IsRun(run, acts) && Initial(run[0]) && k < |run| && StartsClear(run[k], o)
    requires forall j :: 0 <= j < k ==> Considerate(run[j], acts[j], o)
    ensures Safe(run[k], o)
  {
    OrderedAlongRun(run, acts, k, o);
    ReadyExactlyWhen(run[k], o);
  }

  ghost predicate StepInOrder(run: seq<World>, acts: seq<Action>, j: nat, o: Owned)
    requires |run| == |acts| + 1 && j < |acts|
  {
    Considerate(run[j], acts[j], o) && Checked(run[j], acts[j], o) && StaysTheUsers(acts[j], o)
  }

  lemma SafeStep(run: seq<World>, acts: seq<Action>, i: nat, o: Owned)
    requires IsRun(run, acts) && i < |acts| && Safe(run[i], o) && StepInOrder(run, acts, i, o)
    ensures Safe(run[i + 1], o)
    ensures !Edits(acts[i], o) ==> DataKept(History(run[i], o.Name()), History(run[i + 1], o.Name()))
  {
    assert Next(run[i], acts[i]) == Some(run[i + 1]);
    ActionSafe(run[i], acts[i], run[i + 1], o);
  }

  // From time k on every check is in order.
  ghost predicate InOrder(run: seq<World>, acts: seq<Action>, k: nat, n: nat, o: Owned)
    requires |run| == |acts| + 1 && n <= |acts|
  {
    forall j :: k <= j < n ==> StepInOrder(run, acts, j, o)
  }

  lemma {:induction false} SafeAlongRun(run: seq<World>, acts: seq<Action>, k: nat, i: nat, o: Owned)
    requires IsRun(run, acts) && k <= i < |run| && Safe(run[k], o) && InOrder(run, acts, k, i, o)
    ensures Safe(run[i], o)
  {
    if i > k {
      SafeAlongRun(run, acts, k, i - 1, o);
      SafeStep(run, acts, i - 1, o);
    }
  }

  // In every run, with any number of quarks secrets that want the name, which can
  // have generated it before: from the creation of the user's secret on, at time k,
  // only the user's own edits change the data, and it never counts as generated.
  lemma UserDataIsKept(run: seq<World>, acts: seq<Action>, k: nat, i: nat, o: Owned)
    requires IsRun(run, acts) && Initial(run[0]) && k <= i < |acts| && StartsClear(run[k], o)
    requires forall j :: 0 <= j < k ==> Considerate(run[j], acts[j], o)
    requires InOrder(run, acts, k, |acts|, o)
    ensures UsersSecret(Current(run[i], o.Name())) && UsersSecret(Current(run[i + 1], o.Name()))
    ensures !Edits(acts[i], o) ==>
              Current(run[i + 1], o.Name()).value.data == Current(run[i], o.Name()).value.data
  {
    SafeAtFirst(run, acts, k, o);
    SafeAlongRun(run, acts, k, i, o);
    SafeStep(run, acts, i, o);
  }

  // ---- Exactly when -----------------------------------------------------------

  // The check goes on to create the secret exactly when its read failed or did
  // not show a user's secret.
  lemma CheckPassesExactlyWhen(w: World, id: Key, p: Part, read: Option<nat>)
    requires |p.qsec| > 0 && |p.csr| > 0 && p.gen.pass.Checking? && p.gen.pass.v < |p.qsec|
    requires var h := History(w, Target(id, p.qsec[p.gen.pass.v].obj.spec)); read.Some? ==> read.value < |h|
    ensures var h := History(w, Target(id, p.qsec[p.gen.pass.v].obj.spec));
            var e := GenerationNext(w, id, p, GenCheck(read));
            e.Some? && (e.value.part.gen.pass.Loading? <==> read.None? || !UsersSecret(h[read.value]))
  {
  }

  lemma UncheckedPasses(w: World, id: Key, read: Option<nat>, w': World, o: Owned)
    requires Ready(w, o) && WantedBy(w, id, o) && Next(w, On(id, Generate(GenCheck(read)))) == Some(w')
    requires !Checked(w, On(id, Generate(GenCheck(read))), o)
    ensures var p := w.parts[id];
            && p.gen.pass.Checking? && p.gen.pass.v < |p.qsec| && |p.csr| > 0 && w'.secrets == w.secrets
            && w'.parts == w.parts[id := p.(gen := p.gen.(pass := Loading(p.gen.pass.v, p.gen.pass.token)))]
  {
    var p := w.parts[id];
    assert Wants(o, id, p.qsec[p.gen.pass.v].obj.spec);
    CheckPassesExactlyWhen(w, id, p, read);
  }

  lemma PastTheCheckIsNotReady(w: World, id: Key, o: Owned)
    requires WantedBy(w, id, o) && w.parts[id].gen.pass.Loading?
    ensures !Ready(w, o)
  {
  }

  // One check decides: the state stays ready exactly when its read shows a user's
  // secret.
  lemma CheckDecides(w: World, id: Key, read: Option<nat>, w': World, o: Owned)
    requires Ready(w, o) && WantedBy(w, id, o) && Next(w, On(id, Generate(GenCheck(read)))) == Some(w')
    ensures Ready(w', o) <==> Checked(w, On(id, Generate(GenCheck(read))), o)
  {
    if Checked(w, On(id, Generate(GenCheck(read))), o) {
      ActionOrdered(w, On(id, Generate(GenCheck(read))), w', o, true);
    } else {
      UncheckedPasses(w, id, read, w', o);
      PastTheCheckIsNotReady(w', id, o);
    }
  }

  // The run goes on, from now on with every check in order.
  ghost predicate GoesOn(w: World, acts: seq<Action>, w': World, o: Owned)
    decreases |acts|
  {
    if acts == [] then w' == w
    else
      && Next(w, acts[0]).Some?
      && Considerate(w, acts[0], o) && Checked(w, acts[0], o) && StaysTheUsers(acts[0], o)
      && GoesOn(Next(w, acts[0]).value, acts[1..], w', o)
  }

  // However it goes on, the secret stays the user's, and unless the user edits it
  // so does its data.
  ghost predicate Protected(w: World, o: Owned) {
    forall acts, w' :: GoesOn(w, acts, w', o) ==> StillTheUsers(w, acts, w', o)
  }

  ghost predicate StillTheUsers(w: World, acts: seq<Action>, w': World, o: Owned) {
    && UsersSecret(Current(w, o.Name())) && UsersSecret(Current(w', o.Name()))
    && ((forall a :: a in acts ==> !Edits(a, o)) ==>
          Current(w', o.Name()).value.data == Current(w, o.Name()).value.data)
  }

  lemma {:induction false} StaysSafeAsItGoesOn(w: World, acts: seq<Action>, w': World, o: Owned)
    requires Safe(w, o) && GoesOn(w, acts, w', o)
    ensures StillTheUsers(w, acts, w', o)
    decreases |acts|
  {
    if acts != [] {
      var next := Next(w, acts[0]).value;
      ActionSafe(w, acts[0], next, o);
      StaysSafeAsItGoesOn(next, acts[1..], w', o);
      assert acts[0] in acts && forall a :: a in acts[1..] ==> a in acts;
      if !Edits(acts[0], o) {
        assert Current(next, o.Name()).value.data == Current(w, o.Name()).value.data;
      }
    }
  }

  lemma SafeIsProtected(w: World, o: Owned)
    requires Safe(w, o)
    ensures Protected(w, o)
  {
    forall acts, w' | GoesOn(w, acts, w', o) ensures StillTheUsers(w, acts, w', o) {
      StaysSafeAsItGoesOn(w, acts, w', o);
    }
  }

  lemma OneMore(w: World, a: Action, mid: World, acts: seq<Action>, w': World, o: Owned)
    requires Next(w, a) == Some(mid) && Considerate(w, a, o) && Checked(w, a, o) && StaysTheUsers(a, o)
    requires GoesOn(mid, acts, w', o)
    ensures GoesOn(w, [a] + acts, w', o)
  {
    assert ([a] + acts)[1..] == acts;
  }

  // A pass that got past the check and read the stored secret writes its generated
  // entries over the user's and takes the secret over.
  lemma OverwrittenOtherwise(w: World, id: Key, p: Part, wanted: Mutate.Wanted<Datum>)
    requires |p.qsec| > 0 && |p.csr| > 0 && p.gen.pass.Storing? && p.gen.pass.v < |p.qsec|
    requires var spec := p.qsec[p.gen.pass.v].obj.spec;
             var h := History(w, Target(id, spec));
             && !ClusterSigned(spec) && IsWanted(spec, p.gen.pass.token, wanted)
             && p.gen.pass.base + 1 == |h| && UsersSecret(Last(h))
    ensures var spec := p.qsec[p.gen.pass.v].obj.spec;
            var e := GenerationNext(w, id, p, GenStore(wanted, w.clock));
            && e.Some? && e.value.write.Some? && e.value.write.value.name == Target(id, spec)
            && var s := e.value.write.value.content;
               s.Some? && IsGeneratedKind(s.value.labels)
               && forall k :: k in GeneratedEntries(spec) ==>
                    k in s.value.data && s.value.data[k] == Made(p.gen.pass.token, k)
  {
  }

  // One call of a pass that read the stored secret, and the secret is taken over.
  lemma StoreOver(w: World, id: Key, v: nat, token: nat) returns (a: Action, w': World)
    requires id in w.parts && |w.parts[id].qsec| > v && |w.parts[id].csr| > 0
    requires var spec := w.parts[id].qsec[v].obj.spec;
             && w.parts[id].gen.pass == Storing(v, token, |History(w, Target(id, spec))| - 1)
             && !ClusterSigned(spec) && UsersSecret(Current(w, Target(id, spec)))
    ensures Next(w, a) == Some(w') && a.On? && a.step.Generate? && a.step.g.GenStore?
    ensures var spec := w.parts[id].qsec[v].obj.spec;
            var s := Current(w', Target(id, spec));
            s.Some? && IsGeneratedKind(s.value.labels)
            && forall k :: k in GeneratedEntries(spec) ==> k in s.value.data && s.value.data[k] == Made(token, k)
  {
    var spec := w.parts[id].qsec[v].obj.spec;
    a := On(id, Generate(GenStore(SomeWanted(spec, token), w.clock)));
    OverwrittenOtherwise(w, id, w.parts[id], SomeWanted(spec, token));
    var e := GenerationNext(w, id, w.parts[id], a.step.g).value;
    w' := Next(w, a).value;
    HistoryAfter(w, id, e, Target(id, spec));
  }

  // Two more calls of a pass that is past its check.
  lemma LoadAndStore(w: World, id: Key, v: nat, token: nat) returns (acts: seq<Action>, mid: World, w': World)
    requires id in w.parts && |w.parts[id].qsec| > v && |w.parts[id].csr| > 0
    requires w.parts[id].gen.pass == Loading(v, token) && !ClusterSigned(w.parts[id].qsec[v].obj.spec)
    requires UsersSecret(Current(w, Target(id, w.parts[id].qsec[v].obj.spec)))
    ensures |acts| == 2 && Next(w, acts[0]) == Some(mid) && Next(mid, acts[1]) == Some(w')
    ensures forall a :: a in acts ==> a.On? && a.step.Generate? && !a.step.g.GenCheck?
    ensures var spec := w.parts[id].qsec[v].obj.spec;
            var s := Current(w', Target(id, spec));
            s.Some? && IsGeneratedKind(s.value.labels)
            && forall k :: k in GeneratedEntries(spec) ==> k in s.value.data && s.value.data[k] == Made(token, k)
  {
    var a1 := On(id, Generate(GenLoad(|History(w, Target(id, w.parts[id].qsec[v].obj.spec))| - 1)));
    mid := Next(w, a1).value;
    var a2, end := StoreOver(mid, id, v, token);
    acts, w' := [a1, a2], end;
  }

  lemma LoadedIsNotProtected(w: World, id: Key, v: nat, token: nat, o: Owned)
    requires id in w.parts && |w.parts[id].qsec| > v && |w.parts[id].csr| > 0
    requires w.parts[id].gen.pass == Storing(v, token, |History(w, o.Name())| - 1)
    requires var spec := w.parts[id].qsec[v].obj.spec; Wants(o, id, spec) && !ClusterSigned(spec)
    requires UsersSecret(Current(w, o.Name()))
    ensures !Protected(w, o)
  {
    var a, end := StoreOver(w, id, v, token);
    assert GoesOn(end, [], end, o);
    OneMore(w, a, end, [], end, o);
    assert !StillTheUsers(w, [a] + [], end, o);
  }

  lemma PastTheCheckIsNotProtected(w: World, id: Key, v: nat, token: nat, o: Owned)
    requires id in w.parts && |w.parts[id].qsec| > v && |w.parts[id].csr| > 0
    requires w.parts[id].gen.pass == Loading(v, token)
    requires var spec := w.parts[id].qsec[v].obj.spec; Wants(o, id, spec) && !ClusterSigned(spec)
    requires UsersSecret(Current(w, o.Name()))
    ensures !Protected(w, o)
  {
    var acts, mid, end := LoadAndStore(w, id, v, token);
    assert acts[0] in acts && acts[1] in acts;
    assert GoesOn(end, [], end, o);
    OneMore(mid, acts[1], end, [], end, o);
    OneMore(w, acts[0], mid, [acts[1]] + [], end, o);
    assert !StillTheUsers(w, [acts[0]] + ([acts[1]] + []), end, o);
  }

  // A pass that could write next is a danger at once.
  lemma PendingIsNotProtected(w: World, id: Key, o: Owned)
    requires Ordered(w, o, false) && o.local && WantedBy(w, id, o) && UsersSecret(Current(w, o.Name()))
    requires Pending(w.parts[id], History(w, KeySecret(id)), History(w, o.Name()))
    ensures !Protected(w, o)
  {
    var p := w.parts[id];
    assert Wants(o, id, p.qsec[p.gen.pass.v].obj.spec) && Honest(o, p.qsec[p.gen.pass.v].obj.spec);
    if p.gen.pass.Loading? {
      PastTheCheckIsNotProtected(w, id, p.gen.pass.v, p.gen.pass.token, o);
    } else {
      LoadedIsNotProtected(w, id, p.gen.pass.v, p.gen.pass.token, o);
    }
  }

  lemma UncheckedIsNotProtected(w: World, id: Key, read: Option<nat>, w': World, o: Owned)
    requires Safe(w, o) && o.local && Next(w, On(id, Generate(GenCheck(read)))) == Some(w')
    requires !Checked(w, On(id, Generate(GenCheck(read))), o)
    ensures !Protected(w', o)
  {
    UncheckedPasses(w, id, read, w', o);
    var p := w.parts[id];
    assert Honest(o, p.qsec[p.gen.pass.v].obj.spec);
    PastTheCheckIsNotProtected(w', id, p.gen.pass.v, p.gen.pass.token, o);
  }

  // The theorem: from the creation of the user's secret on, at time k, every state
  // of the run protects it if and only if no pass was about to write it then and
  // every check from then on read a user's secret.
  lemma ProtectedExactlyWhileChecked(run: seq<World>, acts: seq<Action>, k: nat, o: Owned)
    requires IsRun(run, acts) && Initial(run[0]) && k < |run| && o.local && UsersSecret(Current(run[k], o.Name()))
    requires forall j :: 0 <= j < |acts| ==> Considerate(run[j], acts[j], o)
    requires forall j :: k <= j < |acts| ==> StaysTheUsers(acts[j], o)
    ensures (forall i :: k <= i < |run| ==> Protected(run[i], o))
            <==> NonePending(run[k], o) && (forall j :: k <= j < |acts| ==> Checked(run[j], acts[j], o))
  {
    OrderedAlongRun(run, acts, k, o);
    ReadyExactlyWhen(run[k], o);
    if !NonePending(run[k], o) {
      var id :| WantedBy(run[k], id, o)
                && Pending(run[k].parts[id], History(run[k], KeySecret(id)), History(run[k], o.Name()));
      PendingIsNotProtected(run[k], id, o);
    } else if forall j :: k <= j < |acts| ==> Checked(run[j], acts[j], o) {
      forall i | k <= i < |run| ensures Protected(run[i], o) {
        SafeAlongRun(run, acts, k, i, o);
        SafeIsProtected(run[i], o);
      }
    } else {
      var j := FirstUnchecked(run, acts, k, |acts|, o);
      SafeAlongRun(run, acts, k, j, o);
      UncheckedStep(run, acts, j, o);
    }
  }

  lemma UncheckedStep(run: seq<World>, acts: seq<Action>, j: nat, o: Owned)
    requires IsRun(run, acts) && j < |acts| && Safe(run[j], o) && o.local && !Checked(run[j], acts[j], o)
    ensures !Protected(run[j + 1], o)
  {
    assert Next(run[j], acts[j]) == Some(run[j + 1]);
    UncheckedIsNotProtected(run[j], acts[j].id, acts[j].step.g.read, run[j + 1], o);
  }

  lemma {:induction false} FirstUnchecked(run: seq<World>, acts: seq<Action>, k: nat, n: nat, o: Owned) returns (j: nat)
    requires |run| == |acts| + 1 && k <= n <= |acts|
    requires !forall i :: k <= i < n ==> Checked(run[i], acts[i], o)
    ensures k <= j < n && !Checked(run[j], acts[j], o)
    ensures forall i :: k <= i < j ==> Checked(run[i], acts[i], o)
  {
    if forall i :: k <= i < n - 1 ==> Checked(run[i], acts[i], o) {
      j := n - 1;
    } else {
      j := FirstUnchecked(run, acts, k, n - 1, o);
    }
  }

  // ---- It does come up ------------------------------------------------------------

  // A user's secret, a quarks secret that wants its name, and its first pass.
  lemma ReadyToCheck(w: World, id: Key, spec: Spec, content: Secret<string>) returns (acts: seq<Action>, w': World)
    requires Initial(w) && spec.secretType == Password
    ensures Leads(w, acts, w') && id in w'.parts
    ensures History(w', Target(id, spec)) == [None, Some(UserContent(content))]
    ensures var p := w'.parts[id];
            && |p.qsec| == 1 && |p.csr| > 0 && p.qsec[0].obj.spec == spec && p.gen.pass == Checking(0, w.tokens)
  {
    var a1 := EditSecret(Key(id.namespace, spec.secretName), Some(content));
    var w1 := Next(w, a1).value;
    OneStep(w, a1, w1);
    var first, w2 := CreatedAndQueued(w1, id, spec);
    LeadsOn(w, [a1], w1, first, w2);
    var second, w3 := Produces(w2, id, 1);
    LeadsOn(w, [a1] + first, w2, second, w3);
    acts, w' := [a1] + first + second, w3;
  }

  // From the start: a check whose read fails, or is as old as before the user's
  // secret, and the user's password is gone.
  lemma OneBadReadOverwrites(w: World, id: Key, spec: Spec, content: Secret<string>, read: Option<nat>)
    returns (acts: seq<Action>, mid: World, after: seq<Action>, w': World)
    requires Initial(w) && spec.secretType == Password && !IsGeneratedKind(content.labels)
    requires read == None || read == Some(0)
    ensures Leads(w, acts, mid) && Current(mid, Target(id, spec)) == Some(UserContent(content))
    ensures Leads(mid, [On(id, Generate(GenCheck(read)))] + after, w')
    ensures var s := Current(w', Target(id, spec));
            s.Some? && IsGeneratedKind(s.value.labels)
            && "password" in s.value.data && s.value.data["password"] == Made(w.tokens, "password")
  {
    acts, mid := ReadyToCheck(w, id, spec, content);
    var check := On(id, Generate(GenCheck(read)));
    var w1 := Next(mid, check).value;
    var more, w2, w3 := LoadAndStore(w1, id, 0, w.tokens);
    assert "password" in GeneratedEntries(spec);
    OneStep(mid, check, w1);
    LeadsOneMore(mid, [check], w1, more[0], w2);
    LeadsOneMore(mid, [check] + [more[0]], w2, more[1], w3);
    after, w' := more, w3;
    assert [check] + more == [check] + [more[0]] + [more[1]];
  }
}
