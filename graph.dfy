/** The data model of the reactive runtime: signal slots, effect slots, the
    running-effect marker, and the instruction scripts that stand for effect
    closures. Slot tables are sequences indexed by id; ids are never reused. */
module Graph {

  datatype Option<T> = None | Some(value: T)

  /** Index of a slot in the signal table / the effect table. */
  type SignalId = nat
  type EffectId = nat

  /** A pure transform of a signal's value: the closure given to `update`
      (by value) or to `mutate_with` (in place). */
  datatype Op = Add(k: int) | Scale(k: int) | Cube | Replace(k: int)

  function Apply(f: Op, x: int): (r: int)
  {
    match f
    case Add(k) => x + k
    case Scale(k) => x * k
    case Cube => x * x * x
    case Replace(k) => k
  }

  /** One step of an effect body. `IfBelow(s, k, t, e)` reads `s` through
      `get` and continues with `t` when its value is below `k`, else with `e`. */
  datatype Instr =
    | Get(s: SignalId)
    | Set(s: SignalId, v: int)
    | Update(s: SignalId, f: Op)
    | MutateWith(s: SignalId, f: Op)
    | IfBelow(s: SignalId, bound: int, thenBranch: seq<Instr>, elseBranch: seq<Instr>)

  function InstrSize(i: Instr): (r: nat)
  {
    match i
    case IfBelow(_, _, t, e) => 1 + BodySize(t) + BodySize(e)
    case _ => 1
  }

  function BodySize(body: seq<Instr>): (r: nat)
  {
    if body == [] then 0 else InstrSize(body[0]) + BodySize(body[1..])
  }

  /** Every signal the instruction names exists in a table of `n` signals. */
  predicate InstrOk(i: Instr, n: nat)
  {
    match i
    case Get(s) => s < n
    case Set(s, _) => s < n
    case Update(s, _) => s < n
    case MutateWith(s, _) => s < n
    case IfBelow(s, _, t, e) => s < n && BodyOk(t, n) && BodyOk(e, n)
  }

  predicate BodyOk(body: seq<Instr>, n: nat)
  {
    body == [] || (InstrOk(body[0], n) && BodyOk(body[1..], n))
  }

  /** An instruction that only reads signals (it never writes one). */
  predicate ReadOnlyInstr(i: Instr)
  {
    match i
    case Get(_) => true
    case IfBelow(_, _, t, e) => ReadOnly(t) && ReadOnly(e)
    case _ => false
  }

  predicate ReadOnly(body: seq<Instr>)
  {
    body == [] || (ReadOnlyInstr(body[0]) && ReadOnly(body[1..]))
  }

  datatype SignalValue = SignalValue(subscribers: set<EffectId>, value: int)

  datatype Effect = Effect(subscriptions: set<SignalId>, body: seq<Instr>)

  /** The whole runtime: both slot tables and the running-effect marker. */
  datatype State = State(signals: seq<SignalValue>, effects: seq<Effect>, running: Option<EffectId>)

  /** The signals a script reads when run against the values in `sigs`,
      following the branches those values select. This is the reference for
      what one run of a read-only body subscribes to. */
  function InstrReads(i: Instr, sigs: seq<SignalValue>): (r: set<SignalId>)
    requires InstrOk(i, |sigs|)
  {
    match i
    case Get(s) => {s}
    case IfBelow(s, k, t, e) => {s} + (if sigs[s].value < k then ReadSet(t, sigs) else ReadSet(e, sigs))
    case _ => {}
  }

  function ReadSet(body: seq<Instr>, sigs: seq<SignalValue>): (r: set<SignalId>)
    requires BodyOk(body, |sigs|)
  {
    if body == [] then {} else InstrReads(body[0], sigs) + ReadSet(body[1..], sigs)
  }

  /** Every id stored anywhere names an existing slot. */
  ghost predicate InRange(st: State)
  {
    (st.running.Some? ==> st.running.value < |st.effects|) &&
    (forall e :: 0 <= e < |st.effects| ==>
       BodyOk(st.effects[e].body, |st.signals|) &&
       forall s :: s in st.effects[e].subscriptions ==> s < |st.signals|) &&
    (forall s :: 0 <= s < |st.signals| ==>
       forall e :: e in st.signals[s].subscribers ==> e < |st.effects|)
  }

  /** The two edge sets are one relation stored twice:
      e is a subscriber of s exactly when s is a subscription of e. */
  ghost predicate Consistent(st: State)
  {
    forall s, e :: 0 <= s < |st.signals| && 0 <= e < |st.effects| ==>
      (e in st.signals[s].subscribers <==> s in st.effects[e].subscriptions)
  }

  ghost predicate Valid(st: State)
  {
    InRange(st) && Consistent(st)
  }

  /** The tables keep their sizes and every effect keeps its body. */
  ghost predicate SameShape(st: State, st': State)
  {
    |st'.signals| == |st.signals| && |st'.effects| == |st.effects| &&
    forall e :: 0 <= e < |st.effects| ==> st'.effects[e].body == st.effects[e].body
  }

  /** Signal values are as in `st`. */
  ghost predicate SameValues(st: State, st': State)
  {
    |st'.signals| == |st.signals| &&
    forall s :: 0 <= s < |st.signals| ==> st'.signals[s].value == st.signals[s].value
  }

  /** `st'` is `st` with the edges between effect `e` and every signal of `read`
      added on both sides, and nothing else changed. */
  ghost predicate Tracked(st: State, st': State, e: EffectId, read: set<SignalId>)
  {
    SameShape(st, st') && SameValues(st, st') && st'.running == st.running &&
    e < |st.effects| &&
    st'.effects[e].subscriptions == st.effects[e].subscriptions + read &&
    (forall f :: 0 <= f < |st.effects| && f != e ==> st'.effects[f] == st.effects[f]) &&
    (forall t :: 0 <= t < |st.signals| ==>
       st'.signals[t].subscribers == st.signals[t].subscribers + (if t in read then {e} else {}))
  }

  lemma {:induction false} InstrOkGrows(i: Instr, n: nat, m: nat)
    requires InstrOk(i, n) && n <= m
    ensures InstrOk(i, m)
    decreases i, 1
  {
    match i
    case IfBelow(_, _, t, e) => BodyOkGrows(t, n, m); BodyOkGrows(e, n, m);
    case _ =>
  }

  /** A script valid for a table stays valid when the table grows. */
  lemma {:induction false} BodyOkGrows(body: seq<Instr>, n: nat, m: nat)
    requires BodyOk(body, n) && n <= m
    ensures BodyOk(body, m)
    decreases body, 0
  {
    if body != [] {
      InstrOkGrows(body[0], n, m);
      BodyOkGrows(body[1..], n, m);
    }
  }

  /** The ids of `subs` below `n`, in ascending order: the snapshot of a
      subscriber set that a re-run pass iterates over. */
  function Snapshot(subs: set<EffectId>, n: nat): (r: seq<EffectId>)
    ensures forall x :: x in r <==> x in subs && x < n
    ensures forall i :: 0 <= i < |r| ==> r[i] < n
    ensures forall i, j :: 0 <= i < j < |r| ==> r[i] < r[j]
  {
    if n == 0 then []
    else Snapshot(subs, n - 1) + (if n - 1 in subs then [n - 1] else [])
  }
}
