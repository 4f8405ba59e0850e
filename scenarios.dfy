/** The source's unit tests and two dynamic-dependency runs, replayed on
    the `Runtime` class. The concrete runs they depend on are worked out on
    the protocol functions first; the methods then only follow them. Signal
    values of other types in the tests (strings, booleans) are integers here. */
module Scenarios {
  import opened Graph
  import opened Semantics
  import opened Properties
  import opened Reactive

  // ---------------------------------------------------------------------
  // Shared steps

  /** A re-run pass over one subscriber is that subscriber's run. */
  lemma RunOne(st: State, e: EffectId, fuel: nat)
    requires Valid(st) && e < |st.effects|
    ensures RunEach(st, [e], fuel) == RunEffect(st, e, fuel)
  {
    var r := RunEffect(st, e, fuel);
    assert [e][1..] == [];
    if r.Done? {
      assert r.trace + [] == r.trace;
    }
  }

  /** A body runs its first step, then the rest from the state it left. */
  lemma ExecStep(st: State, body: seq<Instr>, fuel: nat, st1: State, t1: seq<EffectId>, st2: State, t2: seq<EffectId>)
    requires Valid(st) && BodyOk(body, |st.signals|) && body != []
    requires ExecInstr(st, body[0], fuel) == Done(st1, t1)
    requires ExecBody(st1, body[1..], fuel) == Done(st2, t2)
    ensures ExecBody(st, body, fuel) == Done(st2, t1 + t2)
  {
  }

  /** A run is the body's run from the cleared state, with the marker reset. */
  lemma RunDone(st: State, e: EffectId, fuel: nat, cleared: State, st': State, t: seq<EffectId>)
    requires Valid(st) && e < |st.effects| && fuel > 0
    requires ClearEdges(st.(running := Some(e)), e) == cleared
    requires ExecBody(cleared, cleared.effects[e].body, fuel - 1) == Done(st', t)
    ensures RunEffect(st, e, fuel) == Done(st'.(running := None), [e] + t)
  {
  }

  /** Writing a signal whose only subscriber is effect 0 runs effect 0. */
  lemma SetOnlySubscriber(st: State, s: SignalId, x: int, fuel: nat)
    requires Valid(st) && s < |st.signals| && |st.effects| == 1 && st.signals[s].subscribers == {0}
    ensures SetSignal(st, s, x, fuel) == RunEffect(WithValue(st, s, x), 0, fuel)
  {
    var w := WithValue(st, s, x);
    assert Snapshot({0}, 1) == [0];
    RunOne(w, 0, fuel);
  }

  /** The unsubscribe pass of the only effect of a two-signal runtime. */
  lemma ClearOnly(st: State)
    requires Valid(st) && |st.signals| == 2 && |st.effects| == 1
    ensures ClearEdges(st, 0)
         == State([SignalValue({}, st.signals[0].value), SignalValue({}, st.signals[1].value)],
                  [Effect({}, st.effects[0].body)], st.running)
  {
    var r := ClearEdges(st, 0);
    assert r.signals[0].subscribers == {} by {
      assert forall e :: e in st.signals[0].subscribers ==> e == 0;
    }
    assert r.signals[1].subscribers == {} by {
      assert forall e :: e in st.signals[1].subscribers ==> e == 0;
    }
    assert r.signals == [SignalValue({}, st.signals[0].value), SignalValue({}, st.signals[1].value)];
    assert r.effects == [Effect({}, st.effects[0].body)];
  }

  /** A run of the only effect of a two-signal runtime: its body, from the
      state with its edges dropped. */
  lemma RunOnly(st: State, final: State, t: seq<EffectId>)
    requires Valid(st) && |st.signals| == 2 && |st.effects| == 1 && st.running == None
    requires ExecBody(State([SignalValue({}, st.signals[0].value), SignalValue({}, st.signals[1].value)],
                            [Effect({}, st.effects[0].body)], Some(0)), st.effects[0].body, 0)
          == Done(final, t)
    ensures RunEffect(st, 0, 1) == Done(final.(running := None), [0] + t)
  {
    ClearOnly(st.(running := Some(0)));
  }

  /** A `get` of signal `s` by the only effect, which is running. */
  lemma GetByOnly(st: State, s: SignalId, after: State)
    requires Valid(st) && |st.signals| == 2 && |st.effects| == 1 && s < 2 && st.running == Some(0)
    requires after.running == Some(0) && |after.signals| == 2
    requires after.signals[s] == SignalValue(st.signals[s].subscribers + {0}, st.signals[s].value)
    requires after.signals[1 - s] == st.signals[1 - s]
    requires after.effects == [Effect(st.effects[0].subscriptions + {s}, st.effects[0].body)]
    ensures GetSignal(st, s) == Read(after, st.signals[s].value)
  {
    var r := GetSignal(st, s).st;
    assert r.signals[s] == after.signals[s] && r.signals[1 - s] == after.signals[1 - s];
    assert r.signals == after.signals;
    assert r.effects[0] == after.effects[0];
    assert r.effects == after.effects;
  }

  /** `update` of a signal nobody subscribes to stores `f(old)` and runs nothing. */
  lemma UpdateUnwatched(st: State, s: SignalId, f: Op, fuel: nat)
    requires Valid(st) && s < |st.signals| && st.signals[s].subscribers == {}
    ensures UpdateSignal(st, s, f, fuel) == Done(WithValue(st, s, Apply(f, st.signals[s].value)), [])
  {
    UnwatchedWrites(st, s, 0, f, fuel);
  }

  // ---------------------------------------------------------------------
  // rerun_on_sub_update: an effect reads `sub` (id 0) and bumps `times_run` (id 1)

  function CounterBody(): (b: seq<Instr>)
    ensures BodyOk(b, 2)
  {
    assert BodyOk([Update(1, Add(1))], 2);
    [Get(0), Update(1, Add(1))]
  }

  /** The effect has read `sub` and counted `n` runs. */
  function Counted(subValue: int, n: int): (r: State)
    ensures Valid(r)
  {
    State([SignalValue({0}, subValue), SignalValue({}, n)], [Effect({0}, CounterBody())], None)
  }

  /** One run of the counting effect, whatever edges it had before. */
  lemma CounterRun(st: State)
    requires Valid(st) && |st.signals| == 2 && |st.effects| == 1 && st.effects[0].body == CounterBody()
    requires st.running == None
    ensures RunEffect(st, 0, 1) == Done(Counted(st.signals[0].value, st.signals[1].value + 1), [0])
  {
    var v, n := st.signals[0].value, st.signals[1].value;
    CounterSteps(v, n);
    RunOnly(st, Counted(v, n + 1).(running := Some(0)), []);
    assert [0] + [] == [0];
  }

  /** The counting body, run from the state with its edges dropped. */
  lemma CounterSteps(v: int, n: int)
    ensures ExecBody(State([SignalValue({}, v), SignalValue({}, n)], [Effect({}, CounterBody())], Some(0)),
                     CounterBody(), 0)
         == Done(Counted(v, n + 1).(running := Some(0)), [])
  {
    var cleared := State([SignalValue({}, v), SignalValue({}, n)], [Effect({}, CounterBody())], Some(0));
    var afterGet := State([SignalValue({0}, v), SignalValue({}, n)], [Effect({0}, CounterBody())], Some(0));
    var afterSet := Counted(v, n + 1).(running := Some(0));
    GetByOnly(cleared, 0, afterGet);
    assert ExecInstr(cleared, Get(0), 0) == Done(afterGet, []);
    UpdateUnwatched(afterGet, 1, Add(1), 0);
    assert WithValue(afterGet, 1, n + 1) == afterSet;
    assert ExecInstr(afterGet, Update(1, Add(1)), 0) == Done(afterSet, []);
    ExecStep(afterGet, [Update(1, Add(1))], 0, afterSet, [], afterSet, []);
    ExecStep(cleared, CounterBody(), 0, afterGet, [], afterSet, []);
  }

  /** Writing `sub` runs the counting effect once more. */
  lemma CounterSet(subValue: int, n: int, x: int)
    ensures SetSignal(Counted(subValue, n), 0, x, 1) == Done(Counted(x, n + 1), [0])
  {
    var st := Counted(subValue, n);
    SetOnlySubscriber(st, 0, x, 1);
    CounterRun(WithValue(st, 0, x));
  }

  /** Two fresh signals holding `a` and `b`, no effects. */
  function TwoSignals(a: int, b: int): (r: State)
    ensures Valid(r)
  {
    State([SignalValue({}, a), SignalValue({}, b)], [], None)
  }

  lemma CounterCreate()
    ensures CreateEffect(TwoSignals(0, 0), CounterBody(), 1) == Done(Counted(0, 1), [0])
  {
    var grown := TwoSignals(0, 0).(effects := [] + [Effect({}, CounterBody())]);
    assert grown == State([SignalValue({}, 0), SignalValue({}, 0)], [Effect({}, CounterBody())], None);
    CounterRun(grown);
  }

  /** `rerun_on_sub_update` (src/tests/effect.rs): the effect has run twice,
      once on creation and once for the write to `sub`. */
  method RerunOnSubUpdate() returns (timesRun: int)
    ensures timesRun == 2
  {
    var rt := new Runtime();
    var sub := rt.CreateSignal(0);
    var times := rt.CreateSignal(0);
    assert rt.Model() == TwoSignals(0, 0);
    CounterCreate();
    var ok := rt.CreateEffect(CounterBody(), 1);
    CounterSet(0, 1, 1);
    ok := rt.Set(sub, 1, 1);
    timesRun := rt.Get(times);
  }

  // ---------------------------------------------------------------------
  // create_effect: the body writes a flag

  function FlagBody(): (b: seq<Instr>)
    ensures BodyOk(b, 1)
  {
    [Set(0, 1)]
  }

  /** One signal holding `v`, and the flag-writing effect with no edges. */
  function FlagState(v: int, running: Option<EffectId>): (r: State)
    ensures running == None ==> Valid(r)
  {
    State([SignalValue({}, v)], [Effect({}, FlagBody())], running)
  }

  /** The flag's run: the write reaches no subscriber. */
  lemma FlagRun(v: int)
    ensures RunEffect(FlagState(v, None), 0, 1) == Done(FlagState(1, None), [0])
  {
    var cleared := FlagState(v, Some(0));
    assert ClearEdges(cleared, 0) == cleared by {
      assert Unsubscribed(cleared.signals, {}, 0) == cleared.signals;
      assert cleared.effects[0 := Effect({}, FlagBody())] == cleared.effects;
    }
    var written := FlagState(1, Some(0));
    assert WithValue(cleared, 0, 1) == written;
    RerunSubsUnwatched(written, 0, 0);
    assert ExecInstr(cleared, Set(0, 1), 0) == Done(written, []);
    ExecStep(cleared, FlagBody(), 0, written, [], written, []);
    RunDone(FlagState(v, None), 0, 1, cleared, written, []);
    assert [0] + [] == [0];
  }

  lemma FlagCreate(v: int)
    ensures CreateEffect(State([SignalValue({}, v)], [], None), FlagBody(), 1) == Done(FlagState(1, None), [0])
  {
    assert State([SignalValue({}, v)], [], None).(effects := [] + [Effect({}, FlagBody())]) == FlagState(v, None);
    FlagRun(v);
  }

  /** `create_effect` (src/tests/effect.rs): registering the effect ran its
      body, which set the flag (1 stands for `true`). */
  method CreateEffectRuns() returns (flag: int)
    ensures flag == 1
  {
    var rt := new Runtime();
    var ran := rt.CreateSignal(0);
    assert rt.Model() == State([SignalValue({}, 0)], [], None);
    FlagCreate(0);
    var ok := rt.CreateEffect(FlagBody(), 1);
    flag := rt.Get(ran);
  }

  // ---------------------------------------------------------------------
  // get, set, update, mutate_with on a signal nobody watches

  /** `get` (src/tests/signal.rs) */
  method GetReturnsInitial() returns (v: int)
    ensures v == 42
  {
    var rt := new Runtime();
    var s := rt.CreateSignal(42);
    v := rt.Get(s);
  }

  /** `set` (src/tests/signal.rs) */
  method SetThenGet() returns (v: int)
    ensures v == 2
  {
    var rt := new Runtime();
    var s := rt.CreateSignal(1);
    UnwatchedWrites(rt.Model(), s, 2, Cube, 0);
    var ok := rt.Set(s, 2, 0);
    v := rt.Get(s);
  }

  /** `update` (src/tests/signal.rs): cubing 3 gives 27. */
  method UpdateCubes() returns (v: int)
    ensures v == 27
  {
    var rt := new Runtime();
    var s := rt.CreateSignal(3);
    UnwatchedWrites(rt.Model(), s, 0, Cube, 0);
    var ok := rt.Update(s, Cube, 0);
    v := rt.Get(s);
  }

  /** `mutate_with` (src/tests/signal.rs): the closure swaps in 7. */
  method MutateWithSwaps() returns (v: int)
    ensures v == 7
  {
    var rt := new Runtime();
    var s := rt.CreateSignal(6);
    UnwatchedWrites(rt.Model(), s, 0, Replace(7), 0);
    var ok := rt.MutateWith(s, Replace(7), 0);
    v := rt.Get(s);
  }

  // ---------------------------------------------------------------------
  // Dynamic unsubscription: the effect bumps `counter` (id 1), then reads
  // `s` (id 0) only while the counter is below 3

  function GateBody(): (b: seq<Instr>)
    ensures BodyOk(b, 2)
  {
    assert BodyOk([IfBelow(1, 3, [Get(0)], [])], 2);
    [Update(1, Add(1)), IfBelow(1, 3, [Get(0)], [])]
  }

  /** The effect has counted `c` runs and, when `reading`, depends on `s`. */
  function Gated(v: int, c: int, reading: bool): (r: State)
    ensures Valid(r)
  {
    State([SignalValue(if reading then {0} else {}, v), SignalValue({0}, c)],
          [Effect(if reading then {0, 1} else {1}, GateBody())], None)
  }

  /** One run of the gated effect, whatever edges it had before. */
  lemma GateRun(st: State)
    requires Valid(st) && |st.signals| == 2 && |st.effects| == 1 && st.effects[0].body == GateBody()
    requires st.running == None
    ensures var c := st.signals[1].value + 1;
      RunEffect(st, 0, 1) == Done(Gated(st.signals[0].value, c, c < 3), [0])
  {
    var v, c := st.signals[0].value, st.signals[1].value + 1;
    GateSteps(v, st.signals[1].value);
    RunOnly(st, Gated(v, c, c < 3).(running := Some(0)), []);
    assert [0] + [] == [0];
  }

  /** The gated body, run from the state with its edges dropped. */
  lemma GateSteps(v: int, n: int)
    ensures ExecBody(State([SignalValue({}, v), SignalValue({}, n)], [Effect({}, GateBody())], Some(0)),
                     GateBody(), 0)
         == Done(Gated(v, n + 1, n + 1 < 3).(running := Some(0)), [])
  {
    var cleared := State([SignalValue({}, v), SignalValue({}, n)], [Effect({}, GateBody())], Some(0));
    var bumped := State([SignalValue({}, v), SignalValue({}, n + 1)], [Effect({}, GateBody())], Some(0));
    var final := Gated(v, n + 1, n + 1 < 3).(running := Some(0));
    UpdateUnwatched(cleared, 1, Add(1), 0);
    assert WithValue(cleared, 1, n + 1) == bumped;
    assert ExecInstr(cleared, Update(1, Add(1)), 0) == Done(bumped, []);
    GateBranch(bumped, final);
    ExecStep(cleared, GateBody(), 0, bumped, [], final, []);
  }

  lemma GateBranch(bumped: State, final: State)
    requires Valid(bumped) && |bumped.signals| == 2 && bumped.effects == [Effect({}, GateBody())]
    requires bumped.running == Some(0) && bumped.signals[0].subscribers == {} && bumped.signals[1].subscribers == {}
    requires var c := bumped.signals[1].value;
      final == Gated(bumped.signals[0].value, c, c < 3).(running := Some(0))
    ensures ExecBody(bumped, [IfBelow(1, 3, [Get(0)], [])], 0) == Done(final, [])
  {
    var v, c := bumped.signals[0].value, bumped.signals[1].value;
    var gated := State([SignalValue({}, v), SignalValue({0}, c)], [Effect({1}, GateBody())], Some(0));
    assert bumped.effects[0].subscriptions + {1} == {1};
    GetByOnly(bumped, 1, gated);
    if c < 3 {
      assert gated.effects[0].subscriptions + {0} == {0, 1};
      GetByOnly(gated, 0, final);
      assert ExecInstr(gated, Get(0), 0) == Done(final, []);
      ExecStep(gated, [Get(0)], 0, final, [], final, []);
    } else {
      assert final == gated;
    }
    assert ExecInstr(bumped, IfBelow(1, 3, [Get(0)], []), 0) == Done(final, []);
    ExecStep(bumped, [IfBelow(1, 3, [Get(0)], [])], 0, final, [], final, []);
  }

  /** Writing `s` re-runs the effect exactly while it depends on `s`. */
  lemma GateSet(v: int, c: int, reading: bool, x: int)
    ensures SetSignal(Gated(v, c, reading), 0, x, 1)
         == if reading then Done(Gated(x, c + 1, c + 1 < 3), [0]) else Done(Gated(x, c, false), [])
  {
    var st := Gated(v, c, reading);
    var w := WithValue(st, 0, x);
    if reading {
      assert st.signals[0].subscribers == {0};
      SetOnlySubscriber(st, 0, x, 1);
      GateRun(w);
    } else {
      RerunSubsUnwatched(w, 0, 1);
      assert w == Gated(x, c, false);
    }
  }

  lemma GateCreate()
    ensures CreateEffect(TwoSignals(0, 0), GateBody(), 1) == Done(Gated(0, 1, true), [0])
  {
    var grown := TwoSignals(0, 0).(effects := [] + [Effect({}, GateBody())]);
    assert grown == State([SignalValue({}, 0), SignalValue({}, 0)], [Effect({}, GateBody())], None);
    GateRun(grown);
  }

  /** Three writes to `s` re-run the effect twice: its second re-run no longer
      reads `s`, so the third write triggers nothing, and the run count stays
      at 3 (one run on creation, two re-runs). */
  method DynamicUnsubscription() returns (runs: int)
    ensures runs == 3
  {
    var rt := new Runtime();
    var s := rt.CreateSignal(0);
    var counter := rt.CreateSignal(0);
    assert rt.Model() == TwoSignals(0, 0);
    GateCreate();
    var ok := rt.CreateEffect(GateBody(), 1);
    GateSet(0, 1, true, 1);
    ok := rt.Set(s, 1, 1);
    GateSet(1, 2, true, 2);
    ok := rt.Set(s, 2, 1);
    GateSet(2, 3, false, 3);
    ok := rt.Set(s, 3, 1);
    runs := rt.Get(counter);
  }

  // ---------------------------------------------------------------------
  // A nested run resets the marker: effect `inner` (id 0) reads `x` (id 0);
  // effect `outer` (id 1) writes `x`, which re-runs `inner`, and then reads
  // `y` (id 1) after the marker has been reset to none

  function InnerBody(): (b: seq<Instr>)
    ensures BodyOk(b, 2)
  {
    [Get(0)]
  }

  function OuterBody(): (b: seq<Instr>)
    ensures BodyOk(b, 2)
  {
    assert BodyOk([Get(1)], 2);
    [Set(0, 5), Get(1)]
  }

  /** Only `inner` exists, subscribed to `x`. */
  function InnerOnly(a: int, b: int): (r: State)
    ensures Valid(r)
  {
    State([SignalValue({0}, a), SignalValue({}, b)], [Effect({0}, InnerBody())], None)
  }

  lemma InnerCreate(a: int, b: int)
    ensures CreateEffect(TwoSignals(a, b), InnerBody(), 1) == Done(InnerOnly(a, b), [0])
  {
    var grown := TwoSignals(a, b).(effects := [] + [Effect({}, InnerBody())]);
    assert grown == State([SignalValue({}, a), SignalValue({}, b)], [Effect({}, InnerBody())], None);
    var cleared := State([SignalValue({}, a), SignalValue({}, b)], [Effect({}, InnerBody())], Some(0));
    var after := InnerOnly(a, b).(running := Some(0));
    GetByOnly(cleared, 0, after);
    ExecStep(cleared, InnerBody(), 0, after, [], after, []);
    RunOnly(grown, after, []);
    assert [0] + [] == [0];
  }

  /** Both effects, `x` holding 5 and `y` holding `b`; only the `inner` edge
      exists. */
  function BothRan(b: int, running: Option<EffectId>): (r: State)
    ensures running.None? ==> Valid(r)
  {
    State([SignalValue({0}, 5), SignalValue({}, b)], [Effect({0}, InnerBody()), Effect({}, OuterBody())], running)
  }

  /** The unsubscribe pass of `inner`, re-run from inside `outer`. */
  lemma InnerCleared(b: int)
    ensures Valid(BothRan(b, Some(0)))
    ensures ClearEdges(BothRan(b, Some(0)), 0)
         == State([SignalValue({}, 5), SignalValue({}, b)], [Effect({}, InnerBody()), Effect({}, OuterBody())], Some(0))
  {
    var w := BothRan(b, Some(0));
    var c := ClearEdges(w, 0);
    var cleared := State([SignalValue({}, 5), SignalValue({}, b)], [Effect({}, InnerBody()), Effect({}, OuterBody())], Some(0));
    assert c.signals[0] == cleared.signals[0] && c.signals[1] == cleared.signals[1];
    assert c.signals == cleared.signals;
    assert c.effects == cleared.effects;
  }

  /** `inner`'s body, run from inside `outer`. */
  lemma InnerGet(b: int)
    ensures var cleared := State([SignalValue({}, 5), SignalValue({}, b)],
                                 [Effect({}, InnerBody()), Effect({}, OuterBody())], Some(0));
      Valid(cleared) && ExecBody(cleared, InnerBody(), 0) == Done(BothRan(b, Some(0)), [])
  {
    var cleared := State([SignalValue({}, 5), SignalValue({}, b)],
                         [Effect({}, InnerBody()), Effect({}, OuterBody())], Some(0));
    var after := BothRan(b, Some(0));
    var g := GetSignal(cleared, 0).st;
    assert g.signals[0] == after.signals[0] && g.signals[1] == after.signals[1];
    assert g.signals == after.signals;
    assert g.effects[0] == after.effects[0];
    assert g.effects == after.effects;
    ExecStep(cleared, InnerBody(), 0, after, [], after, []);
  }

  /** The write of `x` inside `outer` re-runs `inner`, which ends by setting
      the marker to none. */
  lemma InnerRerun(b: int)
    ensures Valid(BothRan(b, Some(1))) && RunEffect(BothRan(b, Some(1)), 0, 1) == Done(BothRan(b, None), [0])
  {
    var cleared := State([SignalValue({}, 5), SignalValue({}, b)],
                         [Effect({}, InnerBody()), Effect({}, OuterBody())], Some(0));
    assert BothRan(b, Some(1)).(running := Some(0)) == BothRan(b, Some(0));
    InnerCleared(b);
    InnerGet(b);
    RunDone(BothRan(b, Some(1)), 0, 1, cleared, BothRan(b, Some(0)), []);
    assert [0] + [] == [0];
  }

  /** `outer`'s write of `x`: one nested run of `inner`. */
  lemma OuterWrite(a: int, b: int)
    ensures var cleared := State([SignalValue({0}, a), SignalValue({}, b)],
                                 [Effect({0}, InnerBody()), Effect({}, OuterBody())], Some(1));
      Valid(cleared) && ExecInstr(cleared, Set(0, 5), 1) == Done(BothRan(b, None), [0])
  {
    var cleared := State([SignalValue({0}, a), SignalValue({}, b)],
                         [Effect({0}, InnerBody()), Effect({}, OuterBody())], Some(1));
    var w := WithValue(cleared, 0, 5);
    assert w == BothRan(b, Some(1));
    InnerRerun(b);
    assert Snapshot({0}, 2) == [0];
    RunOne(w, 0, 1);
  }

  /** `outer`'s body: the write of `x`, then a read of `y` that is not
      tracked, because the nested run left the marker at none. */
  lemma OuterSteps(a: int, b: int)
    ensures var cleared := State([SignalValue({0}, a), SignalValue({}, b)],
                                 [Effect({0}, InnerBody()), Effect({}, OuterBody())], Some(1));
      Valid(cleared) && ExecBody(cleared, OuterBody(), 1) == Done(BothRan(b, None), [0])
  {
    var cleared := State([SignalValue({0}, a), SignalValue({}, b)],
                         [Effect({0}, InnerBody()), Effect({}, OuterBody())], Some(1));
    OuterWrite(a, b);
    var ran := BothRan(b, None);
    assert ExecInstr(ran, Get(1), 1) == Done(ran, []);
    ExecStep(ran, [Get(1)], 1, ran, [], ran, []);
    ExecStep(cleared, OuterBody(), 1, ran, [0], ran, []);
    assert [0] + [] == [0];
  }

  /** `outer` starts with no edges: its unsubscribe pass changes nothing. */
  lemma OuterCleared(a: int, b: int)
    ensures var cleared := State([SignalValue({0}, a), SignalValue({}, b)],
                                 [Effect({0}, InnerBody()), Effect({}, OuterBody())], Some(1));
      Valid(cleared) && ClearEdges(cleared, 1) == cleared
  {
    var cleared := State([SignalValue({0}, a), SignalValue({}, b)],
                         [Effect({0}, InnerBody()), Effect({}, OuterBody())], Some(1));
    assert Unsubscribed(cleared.signals, {}, 1) == cleared.signals;
    assert cleared.effects[1 := Effect({}, OuterBody())] == cleared.effects;
  }

  lemma OuterCreate(a: int, b: int)
    ensures CreateEffect(InnerOnly(a, b), OuterBody(), 2) == Done(BothRan(b, None), [1, 0])
  {
    var grown := State([SignalValue({0}, a), SignalValue({}, b)],
                       [Effect({0}, InnerBody()), Effect({}, OuterBody())], None);
    assert InnerOnly(a, b).(effects := InnerOnly(a, b).effects + [Effect({}, OuterBody())]) == grown;
    assert CreateEffect(InnerOnly(a, b), OuterBody(), 2) == RunEffect(grown, 1, 2);
    OuterCleared(a, b);
    OuterSteps(a, b);
    RunDone(grown, 1, 2, grown.(running := Some(1)), BothRan(b, None), [0]);
    assert [1] + [0] == [1, 0];
  }

  /** As in the source, `run_effect` sets the marker to none rather than back
      to the effect that was running: after `outer`'s write re-ran `inner`,
      `outer`'s read of `y` registers no edge, so `outer` is left subscribed
      to nothing although its last run read `y`, and a write to `y` would not
      re-run it. */
  method NestedRunDropsOuterRead() returns (outerSubscriptions: set<SignalId>, ySubscribers: set<EffectId>)
    ensures outerSubscriptions == {} && ySubscribers == {}
  {
    var rt := new Runtime();
    var x := rt.CreateSignal(0);
    var y := rt.CreateSignal(0);
    assert rt.Model() == TwoSignals(0, 0);
    InnerCreate(0, 0);
    var ok := rt.CreateEffect(InnerBody(), 1);
    OuterCreate(0, 0);
    ok := rt.CreateEffect(OuterBody(), 2);
    outerSubscriptions := rt.effects[1].subscriptions;
    ySubscribers := rt.signalValues[y].subscribers;
  }
}
