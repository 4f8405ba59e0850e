/** The runtime as the source has it: one object whose two slot tables and
    running-effect marker are updated in place. Each method's postcondition
    ties the new state to the protocol function of the same name in module
    Semantics, whose properties module Properties proves. A `false` result
    means the nesting bound ran out (the source would overflow its stack);
    the state is then left unspecified. */
module Reactive {
  import opened Graph
  import Semantics

  class Runtime {
    var signalValues: seq<SignalValue>
    var effects: seq<Effect>
    var runningEffect: Option<EffectId>

    /** The runtime's state as a value. */
    function Model(): (r: State)
      reads this
    {
      State(signalValues, effects, runningEffect)
    }

    ghost predicate Valid()
      reads this
    {
      Graph.Valid(Model())
    }

    /** `Runtime::new` */
    constructor ()
      ensures Model() == Semantics.Empty() && Valid()
    {
      signalValues := [];
      effects := [];
      runningEffect := None;
    }

    /** `Runtime::create_signal` */
    method CreateSignal(value: int) returns (id: SignalId)
      requires Valid()
      modifies this
      ensures Semantics.CreateSignal(old(Model()), value) == Semantics.Created(Model(), id)
      ensures Valid()
    {
      id := |signalValues|;
      signalValues := signalValues + [SignalValue({}, value)];
    }

    /** `Runtime::create_effect` */
    method CreateEffect(body: seq<Instr>, fuel: nat) returns (ok: bool)
      requires Valid() && BodyOk(body, |signalValues|)
      modifies this
      ensures ok == Semantics.CreateEffect(old(Model()), body, fuel).Done?
      ensures ok ==> Model() == Semantics.CreateEffect(old(Model()), body, fuel).st
    {
      var id := |effects|;
      effects := effects + [Effect({}, body)];
      ok := RunEffect(id, fuel);
    }

    /** `Runtime::run_effect` */
    method RunEffect(id: EffectId, fuel: nat) returns (ok: bool)
      requires Valid() && id < |effects|
      modifies this
      ensures ok == Semantics.RunEffect(old(Model()), id, fuel).Done?
      ensures ok ==> Model() == Semantics.RunEffect(old(Model()), id, fuel).st
      decreases fuel, 0, 0, 0
    {
      if fuel == 0 {
        return false;
      }
      ghost var st0 := Model().(running := Some(id));
      runningEffect := Some(id);
      // Drop every old edge of `id` on the signal side.
      var subs := effects[id].subscriptions;
      var rest := subs;
      while rest != {}
        invariant rest <= subs
        invariant effects == st0.effects && runningEffect == Some(id)
        invariant signalValues == Semantics.Unsubscribed(st0.signals, subs - rest, id)
        decreases rest
      {
        var s :| s in rest;
        signalValues := signalValues[s := signalValues[s].(subscribers := signalValues[s].subscribers - {id})];
        rest := rest - {s};
      }
      effects := effects[id := effects[id].(subscriptions := {})];
      assert Model() == Semantics.ClearEdges(st0, id);
      ok := ExecBody(effects[id].body, fuel - 1);
      if ok {
        runningEffect := None;
      }
    }

    /** `Signal::get` on the signal with id `s`. */
    method Get(s: SignalId) returns (value: int)
      requires Valid() && s < |signalValues|
      modifies this
      ensures Semantics.GetSignal(old(Model()), s) == Semantics.Read(Model(), value)
    {
      if runningEffect.Some? {
        var e := runningEffect.value;
        signalValues := signalValues[s := signalValues[s].(subscribers := signalValues[s].subscribers + {e})];
        effects := effects[e := effects[e].(subscriptions := effects[e].subscriptions + {s})];
      }
      value := signalValues[s].value;
    }

    /** `Signal::rerun_subs`: re-run every subscriber of `s` in a snapshot of
        the subscriber set taken before the first re-run. */
    method RerunSubs(s: SignalId, fuel: nat) returns (ok: bool)
      requires Valid() && s < |signalValues|
      modifies this
      ensures ok == Semantics.RerunSubs(old(Model()), s, fuel).Done?
      ensures ok ==> Model() == Semantics.RerunSubs(old(Model()), s, fuel).st
      decreases fuel, 2, 0, 0
    {
      ghost var whole := Semantics.RerunSubs(Model(), s, fuel);
      var snap := Snapshot(signalValues[s].subscribers, |effects|);
      var i := 0;
      while i < |snap|
        invariant 0 <= i <= |snap|
        invariant Valid() && |effects| == |old(effects)|
        invariant Semantics.RunEach(Model(), snap[i..], fuel).Done? == whole.Done?
        invariant whole.Done? ==> Semantics.RunEach(Model(), snap[i..], fuel).st == whole.st
      {
        ok := RunEffect(snap[i], fuel);
        if !ok {
          return;
        }
        i := i + 1;
      }
      ok := true;
    }

    /** `Signal::set` */
    method Set(s: SignalId, value: int, fuel: nat) returns (ok: bool)
      requires Valid() && s < |signalValues|
      modifies this
      ensures ok == Semantics.SetSignal(old(Model()), s, value, fuel).Done?
      ensures ok ==> Model() == Semantics.SetSignal(old(Model()), s, value, fuel).st
      decreases fuel, 3, 0, 0
    {
      signalValues := signalValues[s := signalValues[s].(value := value)];
      ok := RerunSubs(s, fuel);
    }

    /** `Signal::mutate_with` */
    method MutateWith(s: SignalId, f: Op, fuel: nat) returns (ok: bool)
      requires Valid() && s < |signalValues|
      modifies this
      ensures ok == Semantics.MutateSignal(old(Model()), s, f, fuel).Done?
      ensures ok ==> Model() == Semantics.MutateSignal(old(Model()), s, f, fuel).st
      decreases fuel, 3, 0, 0
    {
      signalValues := signalValues[s := signalValues[s].(value := Apply(f, signalValues[s].value))];
      ok := RerunSubs(s, fuel);
    }

    /** `Signal::update`, with its second `rerun_subs` call. */
    method Update(s: SignalId, f: Op, fuel: nat) returns (ok: bool)
      requires Valid() && s < |signalValues|
      modifies this
      ensures ok == Semantics.UpdateSignal(old(Model()), s, f, fuel).Done?
      ensures ok ==> Model() == Semantics.UpdateSignal(old(Model()), s, f, fuel).st
      decreases fuel, 4, 0, 0
    {
      var current := signalValues[s].value;
      ok := Set(s, Apply(f, current), fuel);
      if ok {
        ok := RerunSubs(s, fuel);
      }
    }

    /** One step of an effect body. */
    method ExecInstr(i: Instr, fuel: nat) returns (ok: bool)
      requires Valid() && InstrOk(i, |signalValues|)
      modifies this
      ensures ok == Semantics.ExecInstr(old(Model()), i, fuel).Done?
      ensures ok ==> Model() == Semantics.ExecInstr(old(Model()), i, fuel).st
      decreases fuel, 5, InstrSize(i), 0
    {
      match i
      case Get(s) =>
        var _ := Get(s);
        ok := true;
      case Set(s, v) =>
        ok := Set(s, v, fuel);
      case Update(s, f) =>
        ok := Update(s, f, fuel);
      case MutateWith(s, f) =>
        ok := MutateWith(s, f, fuel);
      case IfBelow(s, k, t, e) =>
        var x := Get(s);
        if x < k {
          ok := ExecBody(t, fuel);
        } else {
          ok := ExecBody(e, fuel);
        }
    }

    /** An effect body: the effect's closure being called. */
    method ExecBody(body: seq<Instr>, fuel: nat) returns (ok: bool)
      requires Valid() && BodyOk(body, |signalValues|)
      modifies this
      ensures ok == Semantics.ExecBody(old(Model()), body, fuel).Done?
      ensures ok ==> Model() == Semantics.ExecBody(old(Model()), body, fuel).st
      decreases fuel, 5, BodySize(body), 1
    {
      if body == [] {
        return true;
      }
      ok := ExecInstr(body[0], fuel);
      if ok {
        ok := ExecBody(body[1..], fuel);
      }
    }
  }
}
