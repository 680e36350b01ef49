// Rotating a list of quarks secrets
// (pkg/kube/controllers/quarkssecret/secret_rotation_reconciler.go).
module Rotation {
  import opened Types
  import opened Api

  type QuarksSecrets = map<Key, QuarksSecret>

  // An unset flag is reset too: only a flag that is already false is left.
  function Rotated(q: QuarksSecret): QuarksSecret {
    if q.status.NotGenerated() then q else q.(status := q.status.(generated := Some(false)))
  }

  function RotateOne(qsecs: QuarksSecrets, key: Key): QuarksSecrets {
    if key in qsecs then qsecs[key := Rotated(qsecs[key])] else qsecs
  }

  // The loop, name after name.
  function RotateAll(qsecs: QuarksSecrets, namespace: string, names: seq<string>): QuarksSecrets {
    if names == [] then qsecs
    else RotateOne(RotateAll(qsecs, namespace, names[..|names| - 1]), Key(namespace, names[|names| - 1]))
  }

  predicate Listed(namespace: string, names: seq<string>, key: Key) {
    key.namespace == namespace && key.name in names
  }

  lemma {:induction false} RotateAllAt(qsecs: QuarksSecrets, namespace: string, names: seq<string>, key: Key)
    ensures RotateAll(qsecs, namespace, names).Keys == qsecs.Keys
    ensures key in qsecs ==>
              RotateAll(qsecs, namespace, names)[key] ==
              if Listed(namespace, names, key) then Rotated(qsecs[key]) else qsecs[key]
  {
    if names != [] {
      var most, last := names[..|names| - 1], names[|names| - 1];
      RotateAllAt(qsecs, namespace, most, key);
      assert names == most + [last];
    }
  }

  // Order and duplicates do not matter.
  lemma OnlyTheSetMatters(qsecs: QuarksSecrets, namespace: string, a: seq<string>, b: seq<string>)
    requires forall name :: name in a <==> name in b
    ensures RotateAll(qsecs, namespace, a) == RotateAll(qsecs, namespace, b)
  {
    RotateAllAt(qsecs, namespace, a, Key("", ""));
    RotateAllAt(qsecs, namespace, b, Key("", ""));
    forall key | key in qsecs
      ensures RotateAll(qsecs, namespace, a)[key] == RotateAll(qsecs, namespace, b)[key]
    {
      RotateAllAt(qsecs, namespace, a, key);
      RotateAllAt(qsecs, namespace, b, key);
    }
  }

  // Some of the listed quarks secrets are rotated and nothing else changed.
  ghost predicate Partly(before: QuarksSecrets, namespace: string, names: seq<string>, after: QuarksSecrets) {
    && after.Keys == before.Keys
    && forall key :: key in before ==>
         after[key] == before[key] || (Listed(namespace, names, key) && after[key] == Rotated(before[key]))
  }

  lemma RotatingTheRest(before: QuarksSecrets, namespace: string, names: seq<string>, after: QuarksSecrets)
    requires Partly(before, namespace, names, after)
    ensures RotateAll(after, namespace, names) == RotateAll(before, namespace, names)
  {
    RotateAllAt(before, namespace, names, Key("", ""));
    RotateAllAt(after, namespace, names, Key("", ""));
    forall key | key in before
      ensures RotateAll(after, namespace, names)[key] == RotateAll(before, namespace, names)[key]
    {
      RotateAllAt(before, namespace, names, key);
      RotateAllAt(after, namespace, names, key);
    }
  }

  ghost predicate Distinct(s: seq<Key>) {
    forall i, j :: 0 <= i < j < |s| ==> s[i] != s[j]
  }

  // The status writes of a rotation: one for every quarks secret it changed.
  ghost predicate WritesMatch(before: QuarksSecrets, after: QuarksSecrets, writes: seq<Key>) {
    && before.Keys == after.Keys
    && Distinct(writes)
    && forall key :: key in writes <==> key in before && before[key] != after[key]
  }

  // What the loop keeps: all listed names but the skipped ones are rotated, and
  // every change is one status write.
  ghost predicate Done(before: QuarksSecrets, after: QuarksSecrets, namespace: string, names: seq<string>,
                       writes: seq<Key>, skipped: set<Key>)
  {
    && Partly(before, namespace, names, after)
    && WritesMatch(before, after, writes)
    && forall key :: key in before && Listed(namespace, names, key) && key !in skipped ==>
         after[key] == Rotated(before[key])
  }

  lemma DoneOneMore(before: QuarksSecrets, now: QuarksSecrets, namespace: string, most: seq<string>, name: string,
                    writes: seq<Key>, skipped: set<Key>, after: QuarksSecrets, written: bool)
    requires Done(before, now, namespace, most, writes, skipped)
    requires var key := Key(namespace, name);
             if written then key in now && !now[key].status.NotGenerated() && after == RotateOne(now, key)
             else after == now && (key in now ==> key in skipped || now[key].status.NotGenerated())
    ensures Done(before, after, namespace, most + [name],
                 if written then writes + [Key(namespace, name)] else writes, skipped)
  {
    var key := Key(namespace, name);
    if written {
      assert now[key] == before[key];
    }
  }

  lemma DoneSoFar(before: QuarksSecrets, after: QuarksSecrets, namespace: string, names: seq<string>, i: nat,
                  writes: seq<Key>, skipped: set<Key>)
    requires i <= |names| && Done(before, after, namespace, names[..i], writes, skipped)
    ensures Partly(before, namespace, names, after) && WritesMatch(before, after, writes)
  {
  }

  lemma DoneIsRotateAll(before: QuarksSecrets, after: QuarksSecrets, namespace: string, names: seq<string>,
                        writes: seq<Key>)
    requires Done(before, after, namespace, names, writes, {})
    ensures after == RotateAll(before, namespace, names)
  {
    RotateAllAt(before, namespace, names, Key("", ""));
    forall key | key in before ensures after[key] == RotateAll(before, namespace, names)[key] {
      RotateAllAt(before, namespace, names, key);
    }
  }

  // One name. A failed read skips it.
  method RotateName(client: ApiServer, key: Key) returns (r: Answer<()>, ghost written: bool, ghost skipped: bool)
    modifies client`calls, client`qsecs, client`statusWrites
    ensures client.calls > old(client.calls)
    ensures client.statusWrites == old(client.statusWrites) + (if written then [key] else [])
    ensures written ==> key in old(client.qsecs) && !old(client.qsecs)[key].status.NotGenerated()
    ensures client.qsecs == if written then RotateOne(old(client.qsecs), key) else old(client.qsecs)
    ensures r.Ok? && !written && !skipped && key in old(client.qsecs) ==> old(client.qsecs)[key].status.NotGenerated()
    ensures skipped ==> r.Ok? && !written && client.faults(old(client.calls)) != Fine
    ensures client.faults(old(client.calls)) == Fine && client.faults(old(client.calls) + 1) == Fine ==> r.Ok?
  {
    written, skipped := false, false;
    var qsec := client.GetQuarksSecret(key);
    if qsec.Err? {
      skipped := qsec.error != NotFound;
      return Ok(()), written, skipped;
    }
    if qsec.value.status.NotGenerated() {
      return Ok(()), written, skipped;
    }
    written := client.faults(client.calls) != Refused;
    r := client.UpdateStatus(key, qsec.value.status.(generated := Some(false)));
  }

  ghost predicate SomeCallFailed(faults: nat -> Fault, from: nat, to: nat) {
    exists n :: from <= n < to && faults(n) != Fine
  }

  // The loop. A failed status write ends it; `handled` names are done then.
  method RotateNames(client: ApiServer, namespace: string, names: seq<string>)
    returns (r: Answer<()>, ghost handled: nat, ghost writes: seq<Key>, ghost skipped: set<Key>)
    modifies client`calls, client`qsecs, client`statusWrites
    ensures handled <= |names| && (r.Ok? ==> handled == |names|)
    ensures Done(old(client.qsecs), client.qsecs, namespace, names[..handled], writes, skipped)
    ensures client.statusWrites == old(client.statusWrites) + writes
    ensures skipped != {} ==> SomeCallFailed(client.faults, old(client.calls), client.calls)
    ensures CallsWork(client.faults, old(client.calls)) ==> r.Ok?
    ensures old(client.calls) <= client.calls
  {
    ghost var before := client.qsecs;
    handled, writes, skipped := 0, [], {};
    for i := 0 to |names|
      invariant handled == i && old(client.calls) <= client.calls
      invariant client.statusWrites == old(client.statusWrites) + writes
      invariant Done(before, client.qsecs, namespace, names[..i], writes, skipped)
      invariant skipped != {} ==> SomeCallFailed(client.faults, old(client.calls), client.calls)
    {
      var key := Key(namespace, names[i]);
      ghost var now, written, failed := client.qsecs, false, false;
      r, written, failed := RotateName(client, key);
      if r.Ok? || written {
        skipped := if failed then skipped + {key} else skipped;
        DoneOneMore(before, now, namespace, names[..i], names[i], writes, skipped, client.qsecs, written);
        writes := if written then writes + [key] else writes;
        assert names[..i + 1] == names[..i] + [names[i]];
        handled := i + 1;
      }
      if r.Err? {
        return;
      }
    }
    r := Ok(());
  }

  // A rotation, whole or cut short: it changes listed quarks secrets only, and
  // writes each of them at most once.
  method Rotate(client: ApiServer, namespace: string, names: seq<string>) returns (r: Answer<()>, ghost skipped: set<Key>)
    modifies client`calls, client`qsecs, client`statusWrites
    ensures Partly(old(client.qsecs), namespace, names, client.qsecs)
    ensures old(client.statusWrites) <= client.statusWrites
            && WritesMatch(old(client.qsecs), client.qsecs, client.statusWrites[|old(client.statusWrites)|..])
    ensures r.Ok? ==> forall key :: key in client.qsecs && Listed(namespace, names, key) && key !in skipped ==>
                        client.qsecs[key] == Rotated(old(client.qsecs)[key])
    ensures skipped != {} ==> SomeCallFailed(client.faults, old(client.calls), client.calls)
    ensures r.Ok? && skipped == {} ==> client.qsecs == RotateAll(old(client.qsecs), namespace, names)
    ensures CallsWork(client.faults, old(client.calls)) ==> r.Ok?
    ensures old(client.calls) <= client.calls
  {
    ghost var handled, writes;
    r, handled, writes, skipped := RotateNames(client, namespace, names);
    DoneSoFar(old(client.qsecs), client.qsecs, namespace, names, handled, writes, skipped);
    assert client.statusWrites[|old(client.statusWrites)|..] == writes;
    if r.Ok? {
      assert names[..handled] == names;
      if skipped == {} {
        DoneIsRotateAll(old(client.qsecs), client.qsecs, namespace, names, writes);
      }
    }
  }

  // Wherever the first rotation stopped, running it again leaves what one clean
  // rotation would have.
  method RotateAgain(client: ApiServer, namespace: string, names: seq<string>)
    returns (first: Answer<()>, second: Answer<()>, ghost skipped: set<Key>)
    modifies client`calls, client`qsecs, client`statusWrites
    ensures second.Ok? && skipped == {} ==> client.qsecs == RotateAll(old(client.qsecs), namespace, names)
    ensures skipped != {} ==> SomeCallFailed(client.faults, old(client.calls), client.calls)
  {
    first, skipped := Rotate(client, namespace, names);
    RotatingTheRest(old(client.qsecs), namespace, names, client.qsecs);
    second, skipped := Rotate(client, namespace, names);
  }

  // ---- Field by field ---------------------------------------------------------

  // A rotation sets the generated flag of the listed quarks secrets to false, and
  // changes nothing else of them and nothing of any other.
  lemma RotationFieldByField(qsecs: QuarksSecrets, namespace: string, names: seq<string>, key: Key)
    requires key in qsecs
    ensures var after := RotateAll(qsecs, namespace, names);
            && after.Keys == qsecs.Keys
            && after[key].spec == qsecs[key].spec && after[key].annotations == qsecs[key].annotations
            && after[key].status.copied == qsecs[key].status.copied
            && after[key].status.lastReconcile == qsecs[key].status.lastReconcile
            && after[key].status.generated ==
               (if key.namespace == namespace && key.name in names then Some(false) else qsecs[key].status.generated)
  {
    RotateAllAt(qsecs, namespace, names, key);
  }
}
