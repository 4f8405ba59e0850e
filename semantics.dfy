/** The runtime's protocols as functions over a `State`: the specification
    that the `Runtime` class in module Reactive implements step by step.

    Each protocol that can run effect bodies takes `fuel`, the number of
    nested `run_effect` calls still allowed. The source has no such bound: a
    body that writes a signal it also reads recurses until the stack runs out.
    Running out of fuel is the model's `Exhausted` outcome. */
module Semantics {
  import opened Graph

  /** The new state and the ids of the effect bodies invoked, in invocation
      order (a body's own nested re-runs follow its id); or `Exhausted`. */
  datatype Outcome = Done(st: State, trace: seq<EffectId>) | Exhausted

  datatype Created = Created(st: State, id: nat)

  datatype Read = Read(st: State, value: int)

  /** `Runtime::new`: both tables empty, no effect running. */
  function Empty(): (r: State)
    ensures Valid(r) && r.signals == [] && r.effects == [] && r.running == None
  {
    State([], [], None)
  }

  /** `create_signal`: a fresh slot holding `value`, no subscribers. */
  function CreateSignal(st: State, value: int): (r: Created)
    requires Valid(st)
    ensures Valid(r.st)
    ensures r.id == |st.signals| && |r.st.signals| == |st.signals| + 1
    ensures r.st.signals[r.id] == SignalValue({}, value)
    ensures forall s :: 0 <= s < |st.signals| ==> r.st.signals[s] == st.signals[s]
    ensures r.st.effects == st.effects && r.st.running == st.running
  {
    forall e | 0 <= e < |st.effects| ensures BodyOk(st.effects[e].body, |st.signals| + 1) {
      BodyOkGrows(st.effects[e].body, |st.signals|, |st.signals| + 1);
    }
    Created(st.(signals := st.signals + [SignalValue({}, value)]), |st.signals|)
  }

  /** `create_effect`: a fresh effect slot with no subscriptions, whose body
      is then run once through `run_effect`. */
  function CreateEffect(st: State, body: seq<Instr>, fuel: nat): (r: Outcome)
    requires Valid(st) && BodyOk(body, |st.signals|)
    ensures r.Done? ==> Valid(r.st) && r.st.running == None
    ensures r.Done? ==> |r.st.signals| == |st.signals| && |r.st.effects| == |st.effects| + 1
    ensures r.Done? ==> r.st.effects[|st.effects|].body == body
    ensures r.Done? ==> r.trace != [] && r.trace[0] == |st.effects|
  {
    var grown := st.(effects := st.effects + [Effect({}, body)]);
    RunEffect(grown, |st.effects|, fuel)
  }

  /** The signal slots with effect `e` removed from the subscribers of every
      signal in `done`. */
  function Unsubscribed(sigs: seq<SignalValue>, done: set<SignalId>, e: EffectId): (r: seq<SignalValue>)
    ensures |r| == |sigs|
  {
    seq(|sigs|, s requires 0 <= s < |sigs| =>
      if s in done then sigs[s].(subscribers := sigs[s].subscribers - {e}) else sigs[s])
  }

  /** The unsubscribe pass of `run_effect`: drop every edge of effect `e`,
      on both sides. */
  function ClearEdges(st: State, e: EffectId): (r: State)
    requires Valid(st) && e < |st.effects|
    ensures Valid(r) && SameShape(st, r) && SameValues(st, r) && r.running == st.running
    ensures r.effects[e].subscriptions == {}
    ensures forall s :: 0 <= s < |st.signals| ==> r.signals[s].subscribers == st.signals[s].subscribers - {e}
    ensures forall f :: 0 <= f < |st.effects| && f != e ==> r.effects[f] == st.effects[f]
  {
    st.(signals := Unsubscribed(st.signals, st.effects[e].subscriptions, e),
        effects := st.effects[e := st.effects[e].(subscriptions := {})])
  }

  /** `Signal::get`: the stored value; while an effect runs, the edge between
      it and `s` is recorded on both sides. */
  function GetSignal(st: State, s: SignalId): (r: Read)
    requires Valid(st) && s < |st.signals|
    ensures r.value == st.signals[s].value
    ensures Valid(r.st)
    ensures st.running.None? ==> r.st == st
    ensures st.running.Some? ==> Tracked(st, r.st, st.running.value, {s})
  {
    match st.running
    case None => Read(st, st.signals[s].value)
    case Some(e) =>
      var sv := st.signals[s];
      var ef := st.effects[e];
      Read(st.(signals := st.signals[s := sv.(subscribers := sv.subscribers + {e})],
               effects := st.effects[e := ef.(subscriptions := ef.subscriptions + {s})]),
           sv.value)
  }

  /** The state with signal `s` holding `v`; no edge changes. */
  function WithValue(st: State, s: SignalId, v: int): (r: State)
    requires Valid(st) && s < |st.signals|
    ensures Valid(r) && SameShape(st, r) && r.running == st.running && r.effects == st.effects
    ensures r.signals[s].value == v && r.signals[s].subscribers == st.signals[s].subscribers
    ensures forall t :: 0 <= t < |st.signals| && t != s ==> r.signals[t] == st.signals[t]
  {
    st.(signals := st.signals[s := st.signals[s].(value := v)])
  }

  /** `run_effect`: mark `e` as running, drop its old edges, run its body,
      then reset the marker to none (it is not restored to an outer effect). */
  function RunEffect(st: State, e: EffectId, fuel: nat): (r: Outcome)
    requires Valid(st) && e < |st.effects|
    ensures r.Done? ==> Valid(r.st) && SameShape(st, r.st) && r.st.running == None
    ensures r.Done? ==> r.trace != [] && r.trace[0] == e
    decreases fuel, 0, 0, 0
  {
    if fuel == 0 then Exhausted
    else
      var cleared := ClearEdges(st.(running := Some(e)), e);
      match ExecBody(cleared, cleared.effects[e].body, fuel - 1)
      case Exhausted => Exhausted
      case Done(st', t) => Done(st'.(running := None), [e] + t)
  }

  /** Run every effect of `snap`, in order, each once. */
  function RunEach(st: State, snap: seq<EffectId>, fuel: nat): (r: Outcome)
    requires Valid(st) && forall i :: 0 <= i < |snap| ==> snap[i] < |st.effects|
    ensures r.Done? ==> Valid(r.st) && SameShape(st, r.st)
    decreases fuel, 1, |snap|, 0
  {
    if snap == [] then Done(st, [])
    else
      match RunEffect(st, snap[0], fuel)
      case Exhausted => Exhausted
      case Done(st1, t1) =>
        match RunEach(st1, snap[1..], fuel)
        case Exhausted => Exhausted
        case Done(st2, t2) => Done(st2, t1 + t2)
  }

  /** `rerun_subs`: re-run each subscriber of `s`, over a snapshot of the
      subscriber set taken before the first re-run. */
  function RerunSubs(st: State, s: SignalId, fuel: nat): (r: Outcome)
    requires Valid(st) && s < |st.signals|
    ensures r.Done? ==> Valid(r.st) && SameShape(st, r.st)
    decreases fuel, 2, 0, 0
  {
    RunEach(st, Snapshot(st.signals[s].subscribers, |st.effects|), fuel)
  }

  /** `Signal::set`: overwrite the value, then one `rerun_subs` pass. */
  function SetSignal(st: State, s: SignalId, v: int, fuel: nat): (r: Outcome)
    requires Valid(st) && s < |st.signals|
    ensures r.Done? ==> Valid(r.st) && SameShape(st, r.st)
    decreases fuel, 3, 0, 0
  {
    RerunSubs(WithValue(st, s, v), s, fuel)
  }

  /** `Signal::mutate_with`: transform the value in place, then one
      `rerun_subs` pass. */
  function MutateSignal(st: State, s: SignalId, f: Op, fuel: nat): (r: Outcome)
    requires Valid(st) && s < |st.signals|
    ensures r.Done? ==> Valid(r.st) && SameShape(st, r.st)
    decreases fuel, 3, 0, 0
  {
    var sv := st.signals[s];
    RerunSubs(st.(signals := st.signals[s := sv.(value := Apply(f, sv.value))]), s, fuel)
  }

  /** `Signal::update` as written: read the value without tracking, `set` the
      transformed value (one pass), then call `rerun_subs` again. */
  function UpdateSignal(st: State, s: SignalId, f: Op, fuel: nat): (r: Outcome)
    requires Valid(st) && s < |st.signals|
    ensures r.Done? ==> Valid(r.st) && SameShape(st, r.st)
    decreases fuel, 4, 0, 0
  {
    match SetSignal(st, s, Apply(f, st.signals[s].value), fuel)
    case Exhausted => Exhausted
    case Done(st1, t1) =>
      match RerunSubs(st1, s, fuel)
      case Exhausted => Exhausted
      case Done(st2, t2) => Done(st2, t1 + t2)
  }

  /** One step of an effect body. */
  function ExecInstr(st: State, i: Instr, fuel: nat): (r: Outcome)
    requires Valid(st) && InstrOk(i, |st.signals|)
    ensures r.Done? ==> Valid(r.st) && SameShape(st, r.st)
    decreases fuel, 5, InstrSize(i), 0
  {
    match i
    case Get(s) => Done(GetSignal(st, s).st, [])
    case Set(s, v) => SetSignal(st, s, v, fuel)
    case Update(s, f) => UpdateSignal(st, s, f, fuel)
    case MutateWith(s, f) => MutateSignal(st, s, f, fuel)
    case IfBelow(s, k, t, e) =>
      var rd := GetSignal(st, s);
      ExecBody(rd.st, if rd.value < k then t else e, fuel)
  }

  /** An effect body: its steps in order, stopping if the bound runs out. */
  function ExecBody(st: State, body: seq<Instr>, fuel: nat): (r: Outcome)
    requires Valid(st) && BodyOk(body, |st.signals|)
    ensures r.Done? ==> Valid(r.st) && SameShape(st, r.st)
    decreases fuel, 5, BodySize(body), 1
  {
    if body == [] then Done(st, [])
    else
      match ExecInstr(st, body[0], fuel)
      case Exhausted => Exhausted
      case Done(st1, t1) =>
        match ExecBody(st1, body[1..], fuel)
        case Exhausted => Exhausted
        case Done(st2, t2) => Done(st2, t1 + t2)
  }
}
