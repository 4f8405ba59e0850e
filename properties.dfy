/** Properties of the protocols in module Semantics: what a run subscribes
    to, which effects a write re-runs and how often, and what the writes do
    to values and edges. */
module Properties {
  import opened Graph
  import opened Semantics

  /** Every effect of `snap` has a read-only body. */
  ghost predicate ReadersOnly(st: State, snap: seq<EffectId>)
  {
    forall i :: 0 <= i < |snap| ==> snap[i] < |st.effects| && ReadOnly(st.effects[snap[i]].body)
  }

  /** Every subscriber of `s` has a read-only body. */
  ghost predicate ReadOnlySubscribers(st: State, s: SignalId)
    requires s < |st.signals|
  {
    forall e :: 0 <= e < |st.effects| && e in st.signals[s].subscribers ==> ReadOnly(st.effects[e].body)
  }

  // ---------------------------------------------------------------------
  // What a script reads depends only on signal values.

  lemma {:induction false} InstrReadsSameValues(i: Instr, a: seq<SignalValue>, b: seq<SignalValue>)
    requires |a| == |b| && InstrOk(i, |a|)
    requires forall t :: 0 <= t < |a| ==> a[t].value == b[t].value
    ensures InstrReads(i, a) == InstrReads(i, b)
    decreases i, 1
  {
    match i
    case IfBelow(_, _, t, e) => ReadSetSameValues(t, a, b); ReadSetSameValues(e, a, b);
    case _ =>
  }

  lemma {:induction false} ReadSetSameValues(body: seq<Instr>, a: seq<SignalValue>, b: seq<SignalValue>)
    requires |a| == |b| && BodyOk(body, |a|)
    requires forall t :: 0 <= t < |a| ==> a[t].value == b[t].value
    ensures ReadSet(body, a) == ReadSet(body, b)
    decreases body, 0
  {
    if body != [] {
      InstrReadsSameValues(body[0], a, b);
      ReadSetSameValues(body[1..], a, b);
    }
  }

  lemma {:induction false} InstrReadsKeep(i: Instr, sigs: seq<SignalValue>, s: SignalId, v: int)
    requires InstrOk(i, |sigs|) && s < |sigs| && s in InstrReads(i, sigs)
    ensures s in InstrReads(i, sigs[s := sigs[s].(value := v)])
    decreases i, 1
  {
    match i
    case IfBelow(c, k, t, e) =>
      if c != s {
        if sigs[c].value < k { ReadSetKeeps(t, sigs, s, v); } else { ReadSetKeeps(e, sigs, s, v); }
      }
    case _ =>
  }

  /** A script that reads `s` still reads it after a write to `s` alone: every
      branch taken before its first read of `s` tests some other signal. */
  lemma {:induction false} ReadSetKeeps(body: seq<Instr>, sigs: seq<SignalValue>, s: SignalId, v: int)
    requires BodyOk(body, |sigs|) && s < |sigs| && s in ReadSet(body, sigs)
    ensures s in ReadSet(body, sigs[s := sigs[s].(value := v)])
    decreases body, 0
  {
    var sigs' := sigs[s := sigs[s].(value := v)];
    if s in InstrReads(body[0], sigs) {
      InstrReadsKeep(body[0], sigs, s, v);
    } else {
      ReadSetKeeps(body[1..], sigs, s, v);
    }
  }

  // ---------------------------------------------------------------------
  // Reads inside a running effect.

  lemma TrackedNothing(st: State, e: EffectId)
    requires e < |st.effects|
    ensures Tracked(st, st, e, {})
  {
  }

  lemma TrackedThen(a: State, b: State, c: State, e: EffectId, r1: set<SignalId>, r2: set<SignalId>)
    requires Tracked(a, b, e, r1) && Tracked(b, c, e, r2)
    ensures Tracked(a, c, e, r1 + r2)
  {
  }

  /** Two reads of the same signal in one run leave one edge. */
  lemma GetTwiceOneEdge(st: State, s: SignalId)
    requires Valid(st) && s < |st.signals|
    ensures var once := GetSignal(st, s).st;
      GetSignal(once, s).st == once && GetSignal(once, s).value == st.signals[s].value
  {
  }

  lemma {:induction false} ExecInstrReadOnly(st: State, i: Instr, fuel: nat)
    requires Valid(st) && InstrOk(i, |st.signals|) && ReadOnlyInstr(i)
    ensures ExecInstr(st, i, fuel).Done? && ExecInstr(st, i, fuel).trace == []
    ensures st.running.None? ==> ExecInstr(st, i, fuel).st == st
    ensures st.running.Some? ==>
      Tracked(st, ExecInstr(st, i, fuel).st, st.running.value, InstrReads(i, st.signals))
    decreases i, 1
  {
    match i
    case Get(s) =>
    case IfBelow(s, k, t, e) =>
      var rd := GetSignal(st, s);
      var branch := if rd.value < k then t else e;
      ExecReadOnly(rd.st, branch, fuel);
      ReadSetSameValues(branch, rd.st.signals, st.signals);
      if st.running.Some? {
        TrackedThen(st, rd.st, ExecBody(rd.st, branch, fuel).st, st.running.value, {s}, ReadSet(branch, st.signals));
      }
  }

  /** A read-only body invokes no other effect; with no effect running it
      changes nothing, and inside effect `e` it adds exactly the edges from
      `e` to the signals it reads (`ReadSet`) and nothing else. */
  lemma {:induction false} ExecReadOnly(st: State, body: seq<Instr>, fuel: nat)
    requires Valid(st) && BodyOk(body, |st.signals|) && ReadOnly(body)
    ensures ExecBody(st, body, fuel).Done? && ExecBody(st, body, fuel).trace == []
    ensures st.running.None? ==> ExecBody(st, body, fuel).st == st
    ensures st.running.Some? ==>
      Tracked(st, ExecBody(st, body, fuel).st, st.running.value, ReadSet(body, st.signals))
    decreases body, 0
  {
    if body == [] {
      if st.running.Some? { TrackedNothing(st, st.running.value); }
    } else {
      ExecInstrReadOnly(st, body[0], fuel);
      var st1 := ExecInstr(st, body[0], fuel).st;
      ExecReadOnly(st1, body[1..], fuel);
      if st.running.Some? {
        ReadSetSameValues(body[1..], st1.signals, st.signals);
        TrackedThen(st, st1, ExecBody(st1, body[1..], fuel).st, st.running.value,
                    InstrReads(body[0], st.signals), ReadSet(body[1..], st.signals));
      }
    }
  }

  // ---------------------------------------------------------------------
  // run_effect

  /** Re-running a read-only effect invokes its body once, leaves values
      alone, and afterwards it is subscribed to exactly the signals its body
      reads now: every edge from an earlier run that this run does not repeat
      is gone, on both sides, and no other effect's edges change. */
  lemma RunEffectReadOnly(st: State, e: EffectId, fuel: nat)
    requires Valid(st) && e < |st.effects| && ReadOnly(st.effects[e].body) && fuel > 0
    ensures var r := RunEffect(st, e, fuel);
      r.Done? && r.trace == [e] && r.st.running == None && SameValues(st, r.st) &&
      r.st.effects[e].subscriptions == ReadSet(st.effects[e].body, st.signals) &&
      (forall f :: 0 <= f < |st.effects| && f != e ==> r.st.effects[f] == st.effects[f]) &&
      (forall t :: 0 <= t < |st.signals| ==>
         (e in r.st.signals[t].subscribers <==> t in ReadSet(st.effects[e].body, st.signals)))
  {
    var cleared := ClearEdges(st.(running := Some(e)), e);
    ExecReadOnly(cleared, cleared.effects[e].body, fuel - 1);
    ReadSetSameValues(st.effects[e].body, cleared.signals, st.signals);
  }

  /** Each effect of `snap` is subscribed to what its body reads against the
      values of `st`; every other effect keeps its subscriptions from `st`. */
  ghost predicate Resubscribed(st: State, st': State, snap: seq<EffectId>)
    requires InRange(st) && |st'.effects| == |st.effects|
  {
    forall f :: 0 <= f < |st.effects| ==>
      st'.effects[f].subscriptions ==
        if f in snap then ReadSet(st.effects[f].body, st.signals) else st.effects[f].subscriptions
  }

  lemma ResubscribedStep(st: State, st1: State, st2: State, snap: seq<EffectId>)
    requires InRange(st) && InRange(st1) && snap != [] && snap[0] < |st.effects|
    requires SameShape(st, st1) && SameValues(st, st1) && SameShape(st1, st2)
    requires st1.effects[snap[0]].subscriptions == ReadSet(st.effects[snap[0]].body, st.signals)
    requires forall f :: 0 <= f < |st.effects| && f != snap[0] ==> st1.effects[f] == st.effects[f]
    requires Resubscribed(st1, st2, snap[1..])
    ensures Resubscribed(st, st2, snap)
  {
    forall f | 0 <= f < |st.effects|
      ensures st2.effects[f].subscriptions ==
        if f in snap then ReadSet(st.effects[f].body, st.signals) else st.effects[f].subscriptions
    {
      var body := st.effects[f].body;
      assert st1.effects[f].body == body;
      assert st2.effects[f].subscriptions ==
        if f in snap[1..] then ReadSet(body, st1.signals) else st1.effects[f].subscriptions;
      if f in snap[1..] {
        ReadSetSameValues(body, st1.signals, st.signals);
      } else if f != snap[0] {
        assert f !in snap;
      }
    }
  }

  /** What one pass over a snapshot of read-only effects leaves behind. */
  ghost predicate RanReaders(st: State, snap: seq<EffectId>, r: Outcome)
    requires InRange(st)
  {
    r.Done? && r.trace == snap && SameShape(st, r.st) && SameValues(st, r.st) &&
    (snap == [] ==> r.st == st) && Resubscribed(st, r.st, snap)
  }

  lemma RunEachStep(st: State, snap: seq<EffectId>, fuel: nat)
    requires Valid(st) && fuel > 0 && ReadersOnly(st, snap) && snap != []
    requires RunEffect(st, snap[0], fuel).Done?
    requires var st1 := RunEffect(st, snap[0], fuel).st;
      RanReaders(st1, snap[1..], RunEach(st1, snap[1..], fuel))
    ensures RunEach(st, snap, fuel) ==
      var r1 := RunEffect(st, snap[0], fuel);
      var r2 := RunEach(r1.st, snap[1..], fuel);
      Done(r2.st, r1.trace + r2.trace)
  {
  }

  /** A snapshot of read-only effects: each is invoked once, in snapshot
      order; each ends subscribed to what its body reads, and every effect
      outside the snapshot keeps its subscriptions. */
  lemma {:induction false} RunEachReadOnly(st: State, snap: seq<EffectId>, fuel: nat)
    requires Valid(st) && fuel > 0 && ReadersOnly(st, snap)
    ensures RanReaders(st, snap, RunEach(st, snap, fuel))
    decreases |snap|
  {
    if snap != [] {
      RunEffectReadOnly(st, snap[0], fuel);
      var r1 := RunEffect(st, snap[0], fuel);
      var st1 := r1.st;
      assert ReadersOnly(st1, snap[1..]);
      RunEachReadOnly(st1, snap[1..], fuel);
      var r2 := RunEach(st1, snap[1..], fuel);
      RunEachStep(st, snap, fuel);
      ResubscribedStep(st, st1, r2.st, snap);
    }
  }

  /** A strictly increasing sequence holds each of its elements once. */
  lemma {:induction false} IncreasingCountsOnce(r: seq<nat>)
    requires forall i, j :: 0 <= i < j < |r| ==> r[i] < r[j]
    ensures forall x :: multiset(r)[x] == if x in r then 1 else 0
  {
    if r != [] {
      IncreasingCountsOnce(r[1..]);
      assert r == [r[0]] + r[1..];
      assert r[0] !in r[1..];
    }
  }

  // ---------------------------------------------------------------------
  // create_effect

  /** `create_effect` with a read-only body invokes that body exactly once
      before returning, and the new effect is subscribed to exactly the
      signals the body read; nothing else changes. */
  lemma CreateEffectRunsOnce(st: State, body: seq<Instr>, fuel: nat)
    requires Valid(st) && BodyOk(body, |st.signals|) && ReadOnly(body) && fuel > 0
    ensures var r := CreateEffect(st, body, fuel); var id := |st.effects|;
      r.Done? && r.trace == [id] && SameValues(st, r.st) &&
      r.st.effects[id] == Effect(ReadSet(body, st.signals), body) &&
      (forall f :: 0 <= f < id ==> r.st.effects[f] == st.effects[f])
  {
    var grown := st.(effects := st.effects + [Effect({}, body)]);
    RunEffectReadOnly(grown, |st.effects|, fuel);
  }

  // ---------------------------------------------------------------------
  // set, mutate_with, update

  /** The snapshot a re-run pass iterates holds every subscriber of `s`
      exactly once and nothing else. */
  lemma SnapshotCountsOnce(st: State, s: SignalId)
    requires Valid(st) && s < |st.signals|
    ensures var snap := Snapshot(st.signals[s].subscribers, |st.effects|);
      (forall e :: e in snap <==> e in st.signals[s].subscribers) &&
      (forall e :: multiset(snap)[e] == if e in st.signals[s].subscribers then 1 else 0)
  {
    IncreasingCountsOnce(Snapshot(st.signals[s].subscribers, |st.effects|));
  }

  /** One `rerun_subs` pass over read-only subscribers. */
  lemma RerunSubsReadOnly(st: State, s: SignalId, fuel: nat)
    requires Valid(st) && s < |st.signals| && fuel > 0 && ReadOnlySubscribers(st, s)
    ensures RanReaders(st, Snapshot(st.signals[s].subscribers, |st.effects|), RerunSubs(st, s, fuel))
  {
    var snap := Snapshot(st.signals[s].subscribers, |st.effects|);
    assert ReadersOnly(st, snap);
    RunEachReadOnly(st, snap, fuel);
  }

  /** `set` with read-only subscribers: the value is `v` afterwards
      (read-your-write) and no other value changes; every subscriber of `s`
      at the time of the call is re-run exactly once and no other effect
      runs; each re-run subscriber now depends on what it read with the new
      value, and every other effect keeps its edges. */
  lemma SetRerunsSubscribers(st: State, s: SignalId, v: int, fuel: nat)
    requires Valid(st) && s < |st.signals| && fuel > 0 && ReadOnlySubscribers(st, s)
    ensures SetSignal(st, s, v, fuel).Done?
    ensures SetSignal(st, s, v, fuel).st.signals[s].value == v
    ensures forall t :: 0 <= t < |st.signals| && t != s ==>
      SetSignal(st, s, v, fuel).st.signals[t].value == st.signals[t].value
    ensures forall e ::
      multiset(SetSignal(st, s, v, fuel).trace)[e] == if e in st.signals[s].subscribers then 1 else 0
    ensures forall f :: 0 <= f < |st.effects| ==>
      SetSignal(st, s, v, fuel).st.effects[f].subscriptions ==
        if f in st.signals[s].subscribers then ReadSet(st.effects[f].body, SetSignal(st, s, v, fuel).st.signals)
        else st.effects[f].subscriptions
  {
    var st1 := WithValue(st, s, v);
    var snap := Snapshot(st.signals[s].subscribers, |st.effects|);
    SnapshotCountsOnce(st, s);
    RerunSubsReadOnly(st1, s, fuel);
    var r := SetSignal(st, s, v, fuel);
    assert RanReaders(st1, snap, r);
    forall f | 0 <= f < |st.effects|
      ensures r.st.effects[f].subscriptions ==
        if f in st.signals[s].subscribers then ReadSet(st.effects[f].body, r.st.signals)
        else st.effects[f].subscriptions
    {
      assert r.st.effects[f].subscriptions ==
        if f in snap then ReadSet(st.effects[f].body, st1.signals) else st.effects[f].subscriptions;
      ReadSetSameValues(st.effects[f].body, st1.signals, r.st.signals);
    }
  }

  /** `mutate_with` is the same protocol as `set` of the transformed value:
      one in-place write, then one re-run pass. */
  lemma MutateIsSet(st: State, s: SignalId, f: Op, fuel: nat)
    requires Valid(st) && s < |st.signals|
    ensures MutateSignal(st, s, f, fuel) == SetSignal(st, s, Apply(f, st.signals[s].value), fuel)
  {
  }

  /** `mutate_with` with read-only subscribers: the value is `f` of the old
      value, and exactly one re-run pass happens: each subscriber runs once.
      Each re-run subscriber depends on what it read under the new value, and
      every other effect keeps its edges. */
  lemma MutateRerunsSubscribersOnce(st: State, s: SignalId, f: Op, fuel: nat)
    requires Valid(st) && s < |st.signals| && fuel > 0 && ReadOnlySubscribers(st, s)
    ensures MutateSignal(st, s, f, fuel).Done?
    ensures MutateSignal(st, s, f, fuel).st.signals[s].value == Apply(f, st.signals[s].value)
    ensures forall t :: 0 <= t < |st.signals| && t != s ==>
      MutateSignal(st, s, f, fuel).st.signals[t].value == st.signals[t].value
    ensures forall e ::
      multiset(MutateSignal(st, s, f, fuel).trace)[e] == if e in st.signals[s].subscribers then 1 else 0
    ensures forall g :: 0 <= g < |st.effects| ==>
      MutateSignal(st, s, f, fuel).st.effects[g].subscriptions ==
        if g in st.signals[s].subscribers then ReadSet(st.effects[g].body, MutateSignal(st, s, f, fuel).st.signals)
        else st.effects[g].subscriptions
  {
    MutateIsSet(st, s, f, fuel);
    SetRerunsSubscribers(st, s, Apply(f, st.signals[s].value), fuel);
  }

  /** Whatever the bodies do, a completed pass has invoked every effect of
      the snapshot. */
  lemma {:induction false} RunEachCovers(st: State, snap: seq<EffectId>, fuel: nat)
    requires Valid(st) && forall i :: 0 <= i < |snap| ==> snap[i] < |st.effects|
    requires RunEach(st, snap, fuel).Done?
    ensures forall e :: e in snap ==> e in RunEach(st, snap, fuel).trace
    decreases |snap|
  {
    if snap != [] {
      var r1 := RunEffect(st, snap[0], fuel);
      RunEachCovers(r1.st, snap[1..], fuel);
      var r2 := RunEach(r1.st, snap[1..], fuel);
      assert RunEach(st, snap, fuel).trace == r1.trace + r2.trace;
      forall e | e in snap ensures e in r1.trace + r2.trace {
        if e == snap[0] { assert r1.trace[0] == e; } else { assert e in snap[1..]; }
      }
    }
  }

  /** Whatever the bodies do, a completed `set` has re-run every effect that
      was subscribed to `s` at the call. */
  lemma SetRerunsEverySubscriber(st: State, s: SignalId, v: int, fuel: nat)
    requires Valid(st) && s < |st.signals| && SetSignal(st, s, v, fuel).Done?
    ensures forall e :: e in st.signals[s].subscribers ==> e in SetSignal(st, s, v, fuel).trace
  {
    var st1 := WithValue(st, s, v);
    RunEachCovers(st1, Snapshot(st.signals[s].subscribers, |st.effects|), fuel);
  }

  /** Whatever the bodies do, a completed `mutate_with` has re-run every
      effect that was subscribed to `s` at the call. */
  lemma MutateRerunsEverySubscriber(st: State, s: SignalId, f: Op, fuel: nat)
    requires Valid(st) && s < |st.signals| && MutateSignal(st, s, f, fuel).Done?
    ensures forall e :: e in st.signals[s].subscribers ==> e in MutateSignal(st, s, f, fuel).trace
  {
    MutateIsSet(st, s, f, fuel);
    SetRerunsEverySubscriber(st, s, Apply(f, st.signals[s].value), fuel);
  }

  /** Whatever the bodies do, a completed `update` has re-run every effect
      that was subscribed to `s` at the call, already in its first pass. */
  lemma UpdateRerunsEverySubscriber(st: State, s: SignalId, f: Op, fuel: nat)
    requires Valid(st) && s < |st.signals| && UpdateSignal(st, s, f, fuel).Done?
    ensures forall e :: e in st.signals[s].subscribers ==> e in UpdateSignal(st, s, f, fuel).trace
  {
    var x := Apply(f, st.signals[s].value);
    var r1 := SetSignal(st, s, x, fuel);
    SetRerunsEverySubscriber(st, s, x, fuel);
    var r2 := RerunSubs(r1.st, s, fuel);
    assert UpdateSignal(st, s, f, fuel).trace == r1.trace + r2.trace;
  }

  /** After a pass over read-only subscribers that all read `s` again, `s`
      has the same subscribers as before the write. */
  lemma FirstPassKeepsSubscribers(st: State, s: SignalId, x: int, fuel: nat)
    requires Valid(st) && s < |st.signals| && fuel > 0 && ReadOnlySubscribers(st, s)
    requires forall e :: 0 <= e < |st.effects| && e in st.signals[s].subscribers ==>
      s in ReadSet(st.effects[e].body, st.signals)
    ensures SetSignal(st, s, x, fuel).Done?
    ensures SetSignal(st, s, x, fuel).st.signals[s].subscribers == st.signals[s].subscribers
  {
    SetRerunsSubscribers(st, s, x, fuel);
    var mid := SetSignal(st, s, x, fuel).st;
    var n := |st.effects|;
    var sx := st.signals[s := st.signals[s].(value := x)];
    forall e | 0 <= e < n
      ensures e in mid.signals[s].subscribers <==> e in st.signals[s].subscribers
    {
      if e in st.signals[s].subscribers {
        ReadSetKeeps(st.effects[e].body, st.signals, s, x);
        ReadSetSameValues(st.effects[e].body, sx, mid.signals);
      }
    }
    assert mid.signals[s].subscribers == st.signals[s].subscribers;
  }

  /** `update` as written re-runs every subscriber twice: once in the pass
      inside `set`, once in the extra `rerun_subs` call after it. This holds
      for read-only subscribers that read `s` in their current run (so they
      subscribe to it again when re-run). */
  lemma UpdateRerunsTwice(st: State, s: SignalId, f: Op, fuel: nat)
    requires Valid(st) && s < |st.signals| && fuel > 0 && ReadOnlySubscribers(st, s)
    requires forall e :: 0 <= e < |st.effects| && e in st.signals[s].subscribers ==>
      s in ReadSet(st.effects[e].body, st.signals)
    ensures UpdateSignal(st, s, f, fuel).Done?
    ensures UpdateSignal(st, s, f, fuel).st.signals[s].value == Apply(f, st.signals[s].value)
    ensures forall t :: 0 <= t < |st.signals| && t != s ==>
      UpdateSignal(st, s, f, fuel).st.signals[t].value == st.signals[t].value
    ensures forall e ::
      multiset(UpdateSignal(st, s, f, fuel).trace)[e] == if e in st.signals[s].subscribers then 2 else 0
    ensures forall g :: 0 <= g < |st.effects| ==>
      UpdateSignal(st, s, f, fuel).st.effects[g].subscriptions ==
        if g in st.signals[s].subscribers then ReadSet(st.effects[g].body, UpdateSignal(st, s, f, fuel).st.signals)
        else st.effects[g].subscriptions
  {
    var x := Apply(f, st.signals[s].value);
    var snap := Snapshot(st.signals[s].subscribers, |st.effects|);
    SnapshotCountsOnce(st, s);
    SetRerunsSubscribers(st, s, x, fuel);
    FirstPassKeepsSubscribers(st, s, x, fuel);
    var r1 := SetSignal(st, s, x, fuel);
    var mid := r1.st;
    assert ReadOnlySubscribers(mid, s);
    RerunSubsReadOnly(mid, s, fuel);
    var r2 := RerunSubs(mid, s, fuel);
    assert RanReaders(mid, snap, r2);
    assert UpdateSignal(st, s, f, fuel) == Done(r2.st, r1.trace + r2.trace);
    forall e
      ensures multiset(r1.trace + r2.trace)[e] == if e in st.signals[s].subscribers then 2 else 0
    {
      assert multiset(r1.trace + r2.trace) == multiset(r1.trace) + multiset(snap);
    }
    forall g | 0 <= g < |st.effects|
      ensures r2.st.effects[g].subscriptions ==
        if g in st.signals[s].subscribers then ReadSet(st.effects[g].body, r2.st.signals)
        else st.effects[g].subscriptions
    {
      ReadSetSameValues(st.effects[g].body, mid.signals, r2.st.signals);
    }
  }

  lemma {:induction false} EmptySnapshot(n: nat)
    ensures Snapshot({}, n) == []
  {
    if n > 0 {
      EmptySnapshot(n - 1);
    }
  }

  /** With no subscribers a re-run pass runs nothing and changes nothing. */
  lemma RerunSubsUnwatched(st: State, s: SignalId, fuel: nat)
    requires Valid(st) && s < |st.signals| && st.signals[s].subscribers == {}
    ensures RerunSubs(st, s, fuel) == Done(st, [])
  {
    EmptySnapshot(|st.effects|);
  }

  /** A write to a signal nobody subscribes to only stores the value: the
      writer (the running effect, if any) gains no edge, in particular
      `update`'s internal read registers no dependency, and nothing runs. */
  lemma UnwatchedWrites(st: State, s: SignalId, v: int, f: Op, fuel: nat)
    requires Valid(st) && s < |st.signals| && st.signals[s].subscribers == {}
    ensures SetSignal(st, s, v, fuel) == Done(WithValue(st, s, v), [])
    ensures MutateSignal(st, s, f, fuel) == Done(WithValue(st, s, Apply(f, st.signals[s].value)), [])
    ensures UpdateSignal(st, s, f, fuel) == Done(WithValue(st, s, Apply(f, st.signals[s].value)), [])
  {
    var x := Apply(f, st.signals[s].value);
    var sx := WithValue(st, s, x);
    RerunSubsUnwatched(WithValue(st, s, v), s, fuel);
    RerunSubsUnwatched(sx, s, fuel);
    assert MutateSignal(st, s, f, fuel) == RerunSubs(sx, s, fuel);
    assert SetSignal(st, s, x, fuel) == Done(sx, []);
    RerunSubsUnwatched(sx, s, fuel);
    assert UpdateSignal(st, s, f, fuel) == Done(sx, []);
  }

  // ---------------------------------------------------------------------
  // Dynamic dependencies

  /** Where every body only reads: after effect `e` runs, a write to `s`
      re-runs `e` exactly when `e`'s body read `s` in that run. An effect that
      no longer reaches a read of `s` stops being triggered by it, and one
      that never read `s` is never triggered by it. */
  lemma DynamicDependency(st: State, e: EffectId, s: SignalId, v: int, fuel: nat)
    requires Valid(st) && e < |st.effects| && s < |st.signals| && fuel > 0
    requires forall g :: 0 <= g < |st.effects| ==> ReadOnly(st.effects[g].body)
    ensures var r1 := RunEffect(st, e, fuel);
      r1.Done? && SetSignal(r1.st, s, v, fuel).Done? &&
      (e in SetSignal(r1.st, s, v, fuel).trace <==> s in ReadSet(st.effects[e].body, st.signals))
  {
    RunEffectReadOnly(st, e, fuel);
    var st1 := RunEffect(st, e, fuel).st;
    SetRerunsSubscribers(st1, s, v, fuel);
    var tr := SetSignal(st1, s, v, fuel).trace;
    assert e in tr <==> e in multiset(tr);
  }
}
