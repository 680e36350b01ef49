// A run from the start in which the cluster signs: the hand-over of the CSR
// controller does come to its end.
module SigningRun {
  import opened Types
  import opened Operator
  import opened Effects
  import opened CleanPass
  import Mutate
  import Pairing

  // The generation pass has made key and request number `token` and has read that
  // nothing is stored yet.
  predicate KeyInHand(w: World, id: Key, p: Part, token: nat) {
    && id in w.parts && w.parts[id] == p && |p.qsec| == 1 && p.csr == [None] && ClusterSigned(p.qsec[0].obj.spec)
    && Producible(p.qsec[0].obj.spec) && p.qsec[0].obj.status == Status(None, None, None)
    && p.gen == GenerationSide(Queue(1, false, None), Storing(0, token, 0))
    && History(w, KeySecret(id)) == [None]
  }

  // The key goes to its own secret.
  lemma StoresTheKey(w: World, id: Key, p: Part, token: nat) returns (acts: seq<Action>, w': World, key: StoredSecret)
    requires KeyInHand(w, id, p, token)
    ensures Leads(w, acts, w') && forall a :: a in acts ==> Works(a)
    ensures w'.parts == w.parts[id := p.(gen := p.gen.(pass := ReadingCsr(0, token, Some(1))))]
    ensures "private_key" in key.data && key.data["private_key"] == Made(token, "private_key")
    ensures w'.secrets == w.secrets[KeySecret(id) := [None, Some(key)]]
  {
    var spec := p.qsec[0].obj.spec;
    var wanted := SomeWanted(spec, token);
    assert "private_key" in GeneratedEntries(spec);
    key := Mutate.Created(wanted);
    var stored := p.(gen := p.gen.(pass := ReadingCsr(0, token, Some(1))));
    acts, w' := ThenApply(w, [], w, id, Generate(GenStore(wanted, w.clock)),
                          Effect(stored, Some(Write(KeySecret(id), Some(key))), 0));
    assert [None] + [Some(key)] == [None, Some(key)];
  }

  function Requested(p: Part, id: Key, token: nat): Csr
    requires |p.qsec| > 0
  {
    Csr(token, false, None, Key(id.namespace, p.qsec[0].obj.spec.secretName), Some(1))
  }

  // The request is created, and the pass acknowledged.
  lemma CreatesTheRequest(w: World, id: Key, p: Part, token: nat) returns (acts: seq<Action>, w': World)
    requires id in w.parts && w.parts[id] == p && |p.qsec| == 1 && p.csr == [None]
    requires p.gen == GenerationSide(Queue(1, false, None), ReadingCsr(0, token, Some(1)))
    ensures Leads(w, acts, w') && w'.secrets == w.secrets && forall a :: a in acts ==> Works(a)
    ensures id in w'.parts
    ensures var p' := w'.parts[id];
            && |p'.qsec| >= 1 && p'.qsec[0] == p.qsec[0] && p'.csr == [None, Some(Requested(p, id, token))]
            && p'.sign == p.sign && Last(p'.qsec).obj.status.IsGenerated()
  {
    var p1 := p.(gen := p.gen.(pass := CreatingCsr(0, token, Some(1))));
    acts, w' := Then(w, [], w, id, Generate(GenReadCsr(0)), p1);
    var p2 := p.(csr := p.csr + [Some(Requested(p, id, token))], gen := p.gen.(pass := Acknowledging(0, token)));
    acts, w' := Then(w, acts, w', id, Generate(GenCreateCsr(w.clock)), p2);
    var generated := p.qsec[0].obj.(status := Acknowledged(p.qsec[0].obj.status, w.clock));
    var qsec := if generated == p.qsec[0].obj then p.qsec else p.qsec + [Version(generated, w'.tokens, Generation)];
    acts, w' := Then(w, acts, w', id, Generate(GenAcknowledge), p2.(qsec := qsec, gen := p.gen.(pass := GenIdle)));
  }

  // The request is approved by the operator and issued by the cluster, and both
  // events bring the key back.
  lemma ApprovesAndIssues(w: World, id: Key, p: Part, csr: Csr) returns (acts: seq<Action>, w': World)
    requires id in w.parts && w.parts[id] == p && |p.qsec| > 0 && p.csr == [None, Some(csr)]
    requires p.sign == CsrSide(Queue(1, false, None), CsrIdle) && !csr.approved && csr.certificate.None?
    ensures Leads(w, acts, w') && w'.secrets == w.secrets && forall a :: a in acts ==> Works(a)
    ensures var approved := csr.(approved := true);
            var issued := approved.(certificate := Some(csr.request));
            w'.parts == w.parts[id := p.(csr := [None, Some(csr), Some(approved), Some(issued)],
                                         sign := CsrSide(Queue(2, false, None), CsrIdle))]
  {
    var q := Queue(2, false, None);
    acts, w' := Then(w, [], w, id, Sign(CsrDeliver(2)), p.(sign := CsrSide(Queue(2, true, None), CsrIdle)));
    acts, w' := Then(w, acts, w', id, Sign(CsrPop), p.(sign := CsrSide(q, CsrFetching)));
    acts, w' := Then(w, acts, w', id, Sign(CsrFetch(1)), p.(sign := CsrSide(q, Approving)));
    var approved := csr.(approved := true);
    var p' := p.(csr := p.csr + [Some(approved)], sign := CsrSide(q, CsrIdle));
    acts, w' := Then(w, acts, w', id, Sign(CsrApprove(w.clock)), p');
    var issued := approved.(certificate := Some(csr.request));
    acts, w' := Then(w, acts, w', id, Sign(CsrIssue), p'.(csr := p'.csr + [Some(issued)]));
    assert p'.csr + [Some(issued)] == [None, Some(csr), Some(approved), Some(issued)];
  }

  // The issued request is read.
  lemma ReadsTheRequest(w: World, id: Key, p: Part, csr: Csr) returns (acts: seq<Action>, w': World)
    requires id in w.parts && w.parts[id] == p && |p.qsec| > 0 && |p.csr| == 4 && p.csr[3] == Some(csr)
    requires p.sign == CsrSide(Queue(2, false, None), CsrIdle) && csr.certificate.Some?
    ensures Leads(w, acts, w') && w'.secrets == w.secrets && forall a :: a in acts ==> Works(a)
    ensures w'.parts == w.parts[id := p.(sign := CsrSide(Queue(4, false, None), AwaitingKey(csr)))]
  {
    var q := Queue(4, false, None);
    acts, w' := Then(w, [], w, id, Sign(CsrDeliver(4)), p.(sign := CsrSide(Queue(4, true, None), CsrIdle)));
    acts, w' := Then(w, acts, w', id, Sign(CsrPop), p.(sign := CsrSide(q, CsrFetching)));
    acts, w' := Then(w, acts, w', id, Sign(CsrFetch(3)), p.(sign := CsrSide(q, AwaitingKey(csr))));
  }

  // Its key and the certificate secret are read.
  lemma ReadsTheKey(w: World, id: Key, p: Part, csr: Csr, key: StoredSecret) returns (acts: seq<Action>, w': World)
    requires id in w.parts && w.parts[id] == p && |p.qsec| > 0 && |p.csr| > 0
    requires p.sign == CsrSide(Queue(4, false, None), AwaitingKey(csr))
    requires History(w, KeySecret(id)) == [None, Some(key)] && History(w, Plain(csr.target)) == [None]
    ensures Leads(w, acts, w') && w'.secrets == w.secrets && forall a :: a in acts ==> Works(a)
    ensures w'.parts == w.parts[id := p.(sign := CsrSide(Queue(4, false, None), WritingCert(csr, key, 1, 0)))]
  {
    var q := Queue(4, false, None);
    acts, w' := Then(w, [], w, id, Sign(CsrReadKey(1, w.clock)), p.(sign := CsrSide(q, LoadingCert(csr, key, 1))));
    acts, w' := Then(w, acts, w', id, Sign(CsrLoad(0)), p.(sign := CsrSide(q, WritingCert(csr, key, 1, 0))));
  }

  // The certificate secret is stored.
  lemma StoresTheCertificate(w: World, id: Key, p: Part, csr: Csr, key: StoredSecret)
    returns (acts: seq<Action>, w': World)
    requires id in w.parts && w.parts[id] == p && |p.qsec| > 0 && |p.csr| > 0
    requires p.sign == CsrSide(Queue(4, false, None), WritingCert(csr, key, 1, 0))
    requires History(w, Plain(csr.target)) == [None]
    ensures Leads(w, acts, w') && forall a :: a in acts ==> Works(a)
    ensures w'.parts == w.parts[id := p.(sign := CsrSide(Queue(4, false, None), DeletingKey(csr)))]
    ensures History(w', KeySecret(id)) == History(w, KeySecret(id))
    ensures var s := Current(w', Plain(csr.target));
            && s.Some? && s.value.data == CertificateData(csr, key, map[])
            && s.value.labels == map["quarks.cloudfoundry.org/secret-kind" := "generated"]
  {
    var target := Plain(csr.target);
    var stored := Mutate.CertificateSecret(None, CertificateData(csr, key, map[]));
    var e := Effect(p.(sign := CsrSide(Queue(4, false, None), DeletingKey(csr))), Some(Write(target, Some(stored))), 0);
    acts, w' := ThenApply(w, [], w, id, Sign(CsrStore(map[], w.clock)), e);
    HistoryAfter(w, id, e, target);
    HistoryAfter(w, id, e, KeySecret(id));
  }

  // Key secret and request are deleted.
  lemma Deletes(w: World, id: Key, p: Part, csr: Csr) returns (acts: seq<Action>, w': World)
    requires id in w.parts && w.parts[id] == p && |p.qsec| > 0 && |p.csr| > 0 && Last(p.csr) == Some(csr)
    requires p.sign == CsrSide(Queue(4, false, None), DeletingKey(csr)) && Current(w, KeySecret(id)).Some?
    ensures Leads(w, acts, w') && forall a :: a in acts ==> Works(a)
    ensures w'.parts == w.parts[id := p.(csr := p.csr + [None], sign := CsrSide(Queue(4, false, None), CsrIdle))]
    ensures Current(w', KeySecret(id)) == None
    ensures History(w', Plain(csr.target)) == History(w, Plain(csr.target))
  {
    var q := Queue(4, false, None);
    var e := Effect(p.(sign := CsrSide(q, DeletingCsr(csr))), Some(Write(KeySecret(id), None)), 0);
    var w1;
    acts, w1 := ThenApply(w, [], w, id, Sign(CsrDeleteKey(w.clock)), e);
    HistoryAfter(w, id, e, Plain(csr.target));
    HistoryAfter(w, id, e, KeySecret(id));
    acts, w' := Then(w, acts, w1, id, Sign(CsrDelete(w.clock)), p.(csr := p.csr + [None], sign := CsrSide(q, CsrIdle)));
  }

  // From the start to the request, with its key stored before it.
  lemma RunsToTheRequest(w: World, id: Key, spec: Spec) returns (acts: seq<Action>, w': World, key: StoredSecret)
    requires Initial(w) && Producible(spec) && ClusterSigned(spec)
    ensures Leads(w, acts, w') && forall a :: a in acts ==> Works(a)
    ensures w'.secrets == map[KeySecret(id) := [None, Some(key)]]
    ensures "private_key" in key.data && key.data["private_key"] == Made(w.tokens, "private_key")
    ensures id in w'.parts
    ensures var p := w'.parts[id];
            && |p.qsec| > 0 && Last(p.qsec).obj.status.IsGenerated()
            && p.csr == [None, Some(Csr(w.tokens, false, None, Key(id.namespace, spec.secretName), Some(1)))]
            && p.sign == CsrSide(Queue(1, false, None), CsrIdle)
  {
    var a1, w1 := CreatedAndQueued(w, id, spec);
    var a2, w2 := Produces(w1, id, 1);
    var a3, w3 := ChecksAndLoads(w2, id, 1, w.tokens);
    LeadsOn(w, a1, w1, a2, w2);
    LeadsOn(w, a1 + a2, w2, a3, w3);
    CleanWorks(a1 + a2 + a3);
    var a4, w4;
    a4, w4, key := StoresTheKey(w3, id, w3.parts[id], w.tokens);
    LeadsOn(w, a1 + a2 + a3, w3, a4, w4);
    var a5, w5 := CreatesTheRequest(w4, id, w4.parts[id], w.tokens);
    LeadsOn(w, a1 + a2 + a3 + a4, w4, a5, w5);
    acts, w' := a1 + a2 + a3 + a4 + a5, w5;
  }

  // From the request to the certificate.
  lemma RunsToTheCertificate(w: World, id: Key, p: Part, csr: Csr, key: StoredSecret)
    returns (acts: seq<Action>, w': World, issued: Csr)
    requires id in w.parts && w.parts[id] == p && |p.qsec| > 0 && p.csr == [None, Some(csr)]
    requires p.sign == CsrSide(Queue(1, false, None), CsrIdle) && !csr.approved && csr.certificate.None?
    requires History(w, KeySecret(id)) == [None, Some(key)] && History(w, Plain(csr.target)) == [None]
    ensures Leads(w, acts, w') && forall a :: a in acts ==> Works(a)
    ensures issued == csr.(approved := true, certificate := Some(csr.request))
    ensures id in w'.parts && w'.parts[id].qsec == p.qsec && |w'.parts[id].csr| > 0 && Last(w'.parts[id].csr) == None
    ensures w'.parts[id].sign == CsrSide(Queue(4, false, None), CsrIdle) && Current(w', KeySecret(id)) == None
    ensures var s := Current(w', Plain(csr.target));
            && s.Some? && s.value.data == CertificateData(issued, key, map[])
            && s.value.labels == map["quarks.cloudfoundry.org/secret-kind" := "generated"]
  {
    issued := csr.(approved := true, certificate := Some(csr.request));
    var a1, w1 := ApprovesAndIssues(w, id, p, csr);
    var a2, w2 := ReadsTheRequest(w1, id, w1.parts[id], issued);
    LeadsOn(w, a1, w1, a2, w2);
    assert History(w2, KeySecret(id)) == History(w, KeySecret(id));
    assert History(w2, Plain(csr.target)) == History(w, Plain(csr.target));
    var a3, w3 := ReadsTheKey(w2, id, w2.parts[id], issued, key);
    LeadsOn(w, a1 + a2, w2, a3, w3);
    assert History(w3, KeySecret(id)) == History(w, KeySecret(id));
    assert History(w3, Plain(csr.target)) == History(w, Plain(csr.target));
    var a4, w4 := StoresTheCertificate(w3, id, w3.parts[id], issued, key);
    LeadsOn(w, a1 + a2 + a3, w3, a4, w4);
    var a5, w5 := Deletes(w4, id, w4.parts[id], issued);
    LeadsOn(w, a1 + a2 + a3 + a4, w4, a5, w5);
    acts, w' := a1 + a2 + a3 + a4 + a5, w5;
  }

  // The whole way, for any spec that the cluster can sign: in the end the secret that
  // the spec names is generated and holds a certificate and the key it belongs to,
  // and neither key secret nor request is left.
  lemma TheClusterSigns(w: World, id: Key, spec: Spec) returns (acts: seq<Action>, w': World)
    requires Initial(w) && Producible(spec) && ClusterSigned(spec)
    ensures Leads(w, acts, w') && forall a :: a in acts ==> Works(a)
    ensures var s := Current(w', Plain(Key(id.namespace, spec.secretName)));
            && s.Some? && s.value.data.Keys == {"certificate", "private_key"}
            && s.value.data["certificate"] == Signed(w.tokens)
            && s.value.data["private_key"] == Made(w.tokens, "private_key")
            && s.value.labels == map["quarks.cloudfoundry.org/secret-kind" := "generated"]
            && Pairing.Paired(s.value)
    ensures Current(w', KeySecret(id)) == None
    ensures id in w'.parts && |w'.parts[id].csr| > 0 && Last(w'.parts[id].csr) == None
    ensures |w'.parts[id].qsec| > 0 && Last(w'.parts[id].qsec).obj.status.IsGenerated()
  {
    var first, w1, key := RunsToTheRequest(w, id, spec);
    var csr := Csr(w.tokens, false, None, Key(id.namespace, spec.secretName), Some(1));
    var second, w2, issued := RunsToTheCertificate(w1, id, w1.parts[id], csr, key);
    LeadsOn(w, first, w1, second, w2);
    acts, w' := first + second, w2;
  }

  // A generation that finds a request leaves it alone, and is acknowledged.
  lemma ExistingRequestStays(w: World, id: Key, p: Part, i: nat) returns (acts: seq<Action>, w': World)
    requires id in w.parts && w.parts[id] == p && |p.qsec| > 0 && i < |p.csr| && p.csr[i].Some?
    requires p.gen.pass.ReadingCsr? && p.gen.pass.v + 1 == |p.qsec|
    ensures acts == [On(id, Generate(GenReadCsr(i))), On(id, Generate(GenAcknowledge))]
    ensures Leads(w, acts, w') && w'.secrets == w.secrets
    ensures id in w'.parts && w'.parts[id].csr == p.csr && |w'.parts[id].qsec| > 0
    ensures Last(w'.parts[id].qsec).obj.status == Status(Some(w.clock), Some(true), Some(false))
  {
    var p1 := p.(gen := p.gen.(pass := Acknowledging(p.gen.pass.v, p.gen.pass.token)));
    acts, w' := Then(w, [], w, id, Generate(GenReadCsr(i)), p1);
    var obj := Last(p.qsec).obj;
    var generated := obj.(status := Acknowledged(obj.status, w.clock));
    var qsec := if generated == obj then p.qsec else p.qsec + [Version(generated, w'.tokens, Generation)];
    acts, w' := Then(w, acts, w', id, Generate(GenAcknowledge), p.(qsec := qsec, gen := p.gen.(pass := GenIdle)));
  }

  // ---- In every run -------------------------------------------------------------------

  predicate IssuedOnlyIfApproved(csr: seq<Option<Csr>>) {
    forall i :: 0 <= i < |csr| && csr[i].Some? && csr[i].value.certificate.Some? ==> csr[i].value.approved
  }

  lemma StepKeepsApproval(w: World, id: Key, p: Part, step: Step, e: Effect)
    requires |p.qsec| > 0 && |p.csr| > 0 && IssuedOnlyIfApproved(p.csr) && PartNext(w, id, p, step) == Some(e)
    ensures IssuedOnlyIfApproved(e.part.csr)
  {
    match step {
      case Generate(g) =>
        if MidPass(g) && !g.GenCreateCsr? {
          MidPassEffect(w, id, p, g, e);
        }
      case Sign(s) =>
      case _ => OutsideEffect(w, id, p, step, e);
    }
  }

  // No version of any request has a certificate that was not approved.
  lemma {:induction false} OnlyApprovedAreIssued(run: seq<World>, acts: seq<Action>, i: nat, id: Key)
    requires IsRun(run, acts) && Initial(run[0]) && i < |run|
    ensures id in run[i].parts ==> IssuedOnlyIfApproved(run[i].parts[id].csr)
  {
    if i > 0 {
      OnlyApprovedAreIssued(run, acts, i - 1, id);
      var w, a := run[i - 1], acts[i - 1];
      assert Next(w, a) == Some(run[i]);
      if a.On? && a.id == id {
        StepKeepsApproval(w, id, w.parts[id], a.step, PartNext(w, id, w.parts[id], a.step).value);
      } else if !a.CreateQuarksSecret? || a.id != id {
        OthersLeaveAlone(w, a, run[i], id);
      }
    }
  }
}
