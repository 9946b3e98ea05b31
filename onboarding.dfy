/** The onboarding wizard: a step index and a four-field answer record.
    `nextStep` walks forward through five screens and, on the last one, hands
    the record to the `onComplete` callback; `updateData` overwrites one field
    of the record. The pickers that feed `updateData` offer values from two
    fixed option tables (weights and body-type ids). */
module Onboarding {

  /** The answer record. The source's `number` fields are modelled as `int`:
      every value the pickers offer is a small integer. */
  datatype OnboardingData = OnboardingData(
    currentWeight: int,
    targetWeight: int,
    currentBody: int,
    targetBody: int)

  /** The keys of the answer record (`keyof OnboardingData`). */
  datatype Field = CurrentWeight | TargetWeight | CurrentBody | TargetBody

  /** Number of screens: the welcome screen and four questions. */
  const TotalSteps: int := 5

  /** Index of the last screen; `nextStep` completes the flow there. */
  const LastStep: int := TotalSteps - 1

  /** The record the flow starts with. */
  const Defaults: OnboardingData := OnboardingData(70, 65, 3, 4)

  /** Reads one field of the record. */
  function Get(d: OnboardingData, f: Field): int
  {
    match f
    case CurrentWeight => d.currentWeight
    case TargetWeight => d.targetWeight
    case CurrentBody => d.currentBody
    case TargetBody => d.targetBody
  }

  /** The record `{ ...d, [f]: v }`: field `f` holds `v`, the other three
      fields are those of `d`. */
  function With(d: OnboardingData, f: Field, v: int): (r: OnboardingData)
    ensures Get(r, f) == v
    ensures forall g :: g != f ==> Get(r, g) == Get(d, g)
  {
    match f
    case CurrentWeight => d.(currentWeight := v)
    case TargetWeight => d.(targetWeight := v)
    case CurrentBody => d.(currentBody := v)
    case TargetBody => d.(targetBody := v)
  }

  // ---------------------------------------------------------------------
  // Option tables
  // ---------------------------------------------------------------------

  /** The wheel picker's weight options: 121 values counting up from 40. */
  function Weights(): (ws: seq<int>)
    ensures |ws| == 121 && ws[0] == 40 && ws[|ws| - 1] == 160
  {
    seq(121, i => 40 + i)
  }

  /** The weight options are 121 strictly increasing values. */
  lemma WeightsStrictlyIncreasing()
    ensures |Weights()| == 121
    ensures forall i, j :: 0 <= i < j < |Weights()| ==> Weights()[i] < Weights()[j]
  {
  }

  /** A weight is offered by the picker exactly when it lies in [40, 160]. */
  lemma WeightOptionsAreRange(v: int)
    ensures v in Weights() <==> 40 <= v <= 160
  {
    if 40 <= v <= 160 {
      assert Weights()[v - 40] == v;
    }
  }

  /** The ids of the five body-type cards, in display order. */
  function BodyTypeIds(): (ids: seq<int>)
    ensures |ids| == 5 && forall i :: 0 <= i < |ids| ==> ids[i] == i + 1
  {
    [1, 2, 3, 4, 5]
  }

  /** A body-type id is offered exactly when it lies in [1, 5]. */
  lemma BodyTypeIdsAreRange(id: int)
    ensures id in BodyTypeIds() <==> 1 <= id <= 5
  {
  }

  /** The options the interface offers for a field: the weight wheel for the
      two weights, the body-type cards for the two body shapes. */
  function Options(f: Field): (opts: seq<int>)
    ensures f.CurrentWeight? || f.TargetWeight? ==> forall v :: v in opts <==> 40 <= v <= 160
    ensures f.CurrentBody? || f.TargetBody? ==> forall v :: v in opts <==> 1 <= v <= 5
  {
    forall v ensures v in Weights() <==> 40 <= v <= 160 {
      WeightOptionsAreRange(v);
    }
    if f.CurrentWeight? || f.TargetWeight? then Weights() else BodyTypeIds()
  }

  /** Every field of the record holds a value its picker offers. */
  predicate InRange(d: OnboardingData)
  {
    forall f :: Get(d, f) in Options(f)
  }

  /** The default record holds only offered values. */
  lemma DefaultsInRange()
    ensures InRange(Defaults)
    ensures 40 <= Defaults.currentWeight <= 160 && 40 <= Defaults.targetWeight <= 160
    ensures 1 <= Defaults.currentBody <= 5 && 1 <= Defaults.targetBody <= 5
  {
  }

  // ---------------------------------------------------------------------
  // The step controller as a transition function
  // ---------------------------------------------------------------------

  /** A user action: a click on the screen's forward button, or a value
      chosen in one of the pickers. */
  datatype Action = Next | Update(field: Field, value: int)

  /** The controller's state: the step index, the record, and every record
      handed to `onComplete` so far, oldest first. */
  datatype FlowState = FlowState(step: int, data: OnboardingData, completed: seq<OnboardingData>)

  /** The state the flow mounts in. */
  const Initial: FlowState := FlowState(0, Defaults, [])

  /** One action. `Next` on the last screen emits the record and stays put
      (there is no guard against a second emission); elsewhere it moves one
      screen forward. `Update` replaces one field. */
  function Apply(s: FlowState, a: Action): (t: FlowState)
    ensures 0 <= s.step <= LastStep ==> 0 <= t.step <= LastStep
    ensures s.completed <= t.completed
    ensures t.step + |t.completed| == s.step + |s.completed| + (if a.Next? then 1 else 0)
    ensures a.Next? ==> t.data == s.data
  {
    match a
    case Next =>
      if s.step == LastStep then s.(completed := s.completed + [s.data])
      else s.(step := s.step + 1)
    case Update(f, v) => s.(data := With(s.data, f, v))
  }

  /** A sequence of actions, applied in order. */
  function Run(s: FlowState, acts: seq<Action>): FlowState
    decreases |acts|
  {
    if acts == [] then s else Run(Apply(s, acts[0]), acts[1..])
  }

  /** `n` clicks on the forward button. */
  function Nexts(n: nat): (acts: seq<Action>)
    ensures |acts| == n && forall i :: 0 <= i < n ==> acts[i] == Next
  {
    seq(n, _ => Next)
  }

  /** `n` copies of a record. */
  function Repeat(d: OnboardingData, n: nat): (r: seq<OnboardingData>)
    ensures |r| == n && forall i :: 0 <= i < n ==> r[i] == d
  {
    seq(n, _ => d)
  }

  /** How many of the actions are forward clicks. */
  function CountNext(acts: seq<Action>): (n: nat)
    ensures n <= |acts|
  {
    if acts == [] then 0 else (if acts[0].Next? then 1 else 0) + CountNext(acts[1..])
  }

  /** `Next` below the last screen advances by exactly one and emits nothing;
      on the last screen it emits the current record and leaves the step
      there. `Next` never changes the record. */
  lemma NextSemantics(s: FlowState)
    ensures Apply(s, Next).data == s.data
    ensures s.step < LastStep ==>
      Apply(s, Next).step == s.step + 1 && Apply(s, Next).completed == s.completed
    ensures s.step == LastStep ==>
      Apply(s, Next).step == LastStep && Apply(s, Next).completed == s.completed + [s.data]
  {
  }

  /** `Update(f, v)` sets field `f` to `v`, keeps the other three fields, the
      step and the emissions. */
  lemma UpdateSemantics(s: FlowState, f: Field, v: int)
    ensures Get(Apply(s, Update(f, v)).data, f) == v
    ensures forall g :: g != f ==> Get(Apply(s, Update(f, v)).data, g) == Get(s.data, g)
    ensures Apply(s, Update(f, v)).step == s.step
    ensures Apply(s, Update(f, v)).completed == s.completed
  {
  }

  /** Across any sequence of actions the step stays within [0, LastStep]. */
  lemma {:induction false} RunKeepsStepInRange(s: FlowState, acts: seq<Action>)
    requires 0 <= s.step <= LastStep
    ensures 0 <= Run(s, acts).step <= LastStep
    decreases |acts|
  {
    if acts != [] {
      RunKeepsStepInRange(Apply(s, acts[0]), acts[1..]);
    }
  }

  /** Emissions are only ever appended, and every forward click either moves
      the step or emits exactly one record: step plus number of emissions
      grows by exactly the number of forward clicks. */
  lemma {:induction false} RunCountsForwardClicks(s: FlowState, acts: seq<Action>)
    ensures s.completed <= Run(s, acts).completed
    ensures Run(s, acts).step + |Run(s, acts).completed| == s.step + |s.completed| + CountNext(acts)
    decreases |acts|
  {
    if acts != [] {
      RunCountsForwardClicks(Apply(s, acts[0]), acts[1..]);
    }
  }

  /** `n` forward clicks from a reachable state: the step moves up to the last
      screen and stops there, the record is untouched, and every click beyond
      the last screen emits the same record once more. */
  lemma {:induction false} RunNexts(s: FlowState, n: nat)
    requires 0 <= s.step <= LastStep
    ensures Run(s, Nexts(n)) == FlowState(
      if s.step + n <= LastStep then s.step + n else LastStep,
      s.data,
      s.completed + Repeat(s.data, if s.step + n <= LastStep then 0 else s.step + n - LastStep))
    decreases n
  {
    if n > 0 {
      assert Nexts(n)[0] == Next && Nexts(n)[1..] == Nexts(n - 1);
      RunNexts(Apply(s, Next), n - 1);
      if s.step == LastStep {
        assert [s.data] + Repeat(s.data, n - 1) == Repeat(s.data, n);
        assert s.completed + [s.data] + Repeat(s.data, n - 1) == s.completed + Repeat(s.data, n);
      }
    }
  }

  /** With no edits, four clicks reach the last screen without emitting,
      the fifth emits the default record, and each further click emits it
      again. */
  lemma DefaultScenario()
    ensures Run(Initial, Nexts(4)) == FlowState(LastStep, Defaults, [])
    ensures Run(Initial, Nexts(5)).completed == [Defaults]
    ensures Run(Initial, Nexts(6)).completed == [Defaults, Defaults]
  {
  }

  /** An action the interface can produce: a forward click, or a picker
      choice taken from that field's option table. */
  predicate Picked(a: Action)
  {
    a.Update? ==> a.value in Options(a.field)
  }

  /** If every edit comes from a picker, the record never leaves the option
      tables, and neither does any record handed to `onComplete`. */
  lemma {:induction false} PickedValuesStayInRange(s: FlowState, acts: seq<Action>)
    requires InRange(s.data) && forall r :: r in s.completed ==> InRange(r)
    requires forall i :: 0 <= i < |acts| ==> Picked(acts[i])
    ensures InRange(Run(s, acts).data)
    ensures forall r :: r in Run(s, acts).completed ==> InRange(r)
    decreases |acts|
  {
    if acts != [] {
      var t := Apply(s, acts[0]);
      assert Picked(acts[0]);
      if acts[0].Update? {
        forall g ensures Get(t.data, g) in Options(g) {
          assert g != acts[0].field ==> Get(t.data, g) == Get(s.data, g);
        }
      }
      PickedValuesStayInRange(t, acts[1..]);
    }
  }

  /** Every record the flow emits after picker-only edits has both weights
      in [40, 160] and both body ids in [1, 5]. */
  lemma {:induction false} CompletedRecordsInRange(acts: seq<Action>, r: OnboardingData)
    requires forall i :: 0 <= i < |acts| ==> Picked(acts[i])
    requires r in Run(Initial, acts).completed
    ensures 40 <= r.currentWeight <= 160 && 40 <= r.targetWeight <= 160
    ensures 1 <= r.currentBody <= 5 && 1 <= r.targetBody <= 5
  {
    DefaultsInRange();
    PickedValuesStayInRange(Initial, acts);
    assert Get(r, CurrentWeight) in Options(CurrentWeight);
    assert Get(r, TargetWeight) in Options(TargetWeight);
    assert Get(r, CurrentBody) in Options(CurrentBody);
    assert Get(r, TargetBody) in Options(TargetBody);
  }

  // ---------------------------------------------------------------------
  // The component's state cells
  // ---------------------------------------------------------------------

  /** The mounted component: `step` and `data` are its two state cells,
      `completed` logs the calls to `onComplete`. */
  class Flow {
    var step: int
    var data: OnboardingData
    ghost var completed: seq<OnboardingData>

    /** The abstract state the transition function works on. */
    ghost function State(): FlowState
      reads this
    {
      FlowState(step, data, completed)
    }

    /** The step index stays on one of the five screens. */
    ghost predicate Valid()
      reads this
    {
      0 <= step <= LastStep
    }

    /** Mounting: the welcome screen and the default record. */
    constructor ()
      ensures Valid() && State() == Initial
      ensures step == 0 && data == Defaults && completed == []
    {
      step := 0;
      data := Defaults;
      completed := [];
    }

    /** `nextStep`: on the last screen, `onComplete(data)`; otherwise one
        screen forward. */
    method NextStep()
      requires Valid()
      modifies this
      ensures Valid()
      ensures State() == Apply(old(State()), Next)
      ensures data == old(data)
      ensures old(step) < LastStep ==> step == old(step) + 1 && completed == old(completed)
      ensures old(step) == LastStep ==> step == LastStep && completed == old(completed) + [old(data)]
    {
      if step == LastStep {
        completed := completed + [data];
      } else {
        step := step + 1;
      }
    }

    /** `updateData(field, value)`: replaces one field of the record. */
    method UpdateData(field: Field, value: int)
      requires Valid()
      modifies this
      ensures Valid()
      ensures State() == Apply(old(State()), Update(field, value))
      ensures Get(data, field) == value
      ensures forall g :: g != field ==> Get(data, g) == Get(old(data), g)
      ensures step == old(step) && completed == old(completed)
    {
      data := With(data, field, value);
    }
  }

  /** A client: five clicks without edits stay on the last screen and emit
      the default record once. */
  method FiveClicks() returns (step: int, ghost emitted: seq<OnboardingData>)
    ensures step == LastStep && emitted == [Defaults]
  {
    var flow := new Flow();
    flow.NextStep();
    flow.NextStep();
    flow.NextStep();
    flow.NextStep();
    assert flow.step == LastStep && flow.completed == [];
    flow.NextStep();
    step, emitted := flow.step, flow.completed;
  }
}
