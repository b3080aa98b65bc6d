/**
 * The effect abstraction: a closed set of effect objects behind one box, the
 * factory that builds a fresh one per kind, and a value-level description of
 * what one update does.
 */
module Effects {
  import opened Led
  import opened Cli
  import opened Helpers
  import Rainbow
  import Test
  import Random
  import Coding

  /** A boxed effect object: exactly one of the four effect classes. */
  datatype EffectBox =
    | RainbowBox(rainbow: Rainbow.RainbowEffect)
    | TestBox(test: Test.TestEffect)
    | RandomBox(random: Random.RandomEffect)
    | CodingBox(coding: Coding.CodingEffect)

  /** The one object a box holds. */
  function ObjectOf(b: EffectBox): object {
    match b
    case RainbowBox(e) => e
    case TestBox(e) => e
    case RandomBox(e) => e
    case CodingBox(e) => e
  }

  /** The state of an effect object as a value; `iter` is the source's `iterator`. */
  datatype EffectState =
    | RainbowState(iter: nat)
    | TestState(iter: nat)
    | RandomState
    | CodingState

  function StateOf(b: EffectBox): EffectState
    reads ObjectOf(b)
  {
    match b
    case RainbowBox(e) => RainbowState(e.iter)
    case TestBox(e) => TestState(e.iter)
    case RandomBox(_) => RandomState
    case CodingBox(_) => CodingState
  }

  predicate BoxValid(b: EffectBox)
    reads ObjectOf(b)
  {
    b.RainbowBox? ==> b.rainbow.Valid()
  }

  predicate StateValid(s: EffectState) {
    s.RainbowState? ==> s.iter < LED_SIZE
  }

  function KindOf(s: EffectState): ClientType {
    match s
    case RainbowState(_) => RainbowEffect
    case TestState(_) => TestEffect
    case RandomState => RandomEffect
    case CodingState => CodingEffect
  }

  /** The state of a freshly constructed effect of kind k. */
  function InitialState(k: ClientType): (s: EffectState)
    ensures KindOf(s) == k && StateValid(s)
    ensures s.RainbowState? || s.TestState? ==> s.iter == 0
  {
    match k
    case RainbowEffect => RainbowState(0)
    case TestEffect => TestState(0)
    case RandomEffect => RandomState
    case CodingEffect => CodingState
  }

  /**
   * What the surroundings supply to one update: the editor's mode string and
   * the random generator's colour draws. The rainbow's gradient is not among
   * them: it is a fixed function of the pixel index, the same on every update,
   * and is passed separately.
   */
  datatype Inputs = Inputs(editorMode: string, rng: nat -> ColorDraw)

  /** The result of one update of an effect in state s, under the fixed gradient. */
  function Output(s: EffectState, gradient: nat -> Color, inputs: Inputs): Result<LedData, EffectError>
    requires StateValid(s)
  {
    match s
    case RainbowState(k) => Ok(Rainbow.RainbowFrame(gradient, k))
    case TestState(k) => Ok(Fill(Test.TestColor(k)))
    case RandomState => Ok(Random.RandomFrame(inputs.rng))
    case CodingState => Ok(Coding.ModeFrame(inputs.editorMode))
  }

  /** The state after one update of an effect in state s. */
  function NextState(s: EffectState): (t: EffectState)
    requires StateValid(s)
    ensures StateValid(t) && KindOf(t) == KindOf(s)
  {
    match s
    case RainbowState(k) => RainbowState(Rainbow.NextIterator(k))
    case TestState(k) => TestState(Test.TestNext(k))
    case RandomState => RandomState
    case CodingState => CodingState
  }

  /** No effect's update fails, and every frame has exactly LED_SIZE pixels. */
  lemma OutputIsFrame(s: EffectState, gradient: nat -> Color, inputs: Inputs)
    requires StateValid(s)
    ensures Output(s, gradient, inputs).Ok? && IsFrame(Output(s, gradient, inputs).value)
  {
  }

  /**
   * The first update of a newly installed effect: the rainbow shows its
   * gradient unrotated, the test pattern shows red.
   */
  lemma FirstUpdate(k: ClientType, gradient: nat -> Color, inputs: Inputs)
    ensures k == RainbowEffect ==> Output(InitialState(k), gradient, inputs) == Ok(Rainbow.Gradient(gradient))
    ensures k == TestEffect ==> Output(InitialState(k), gradient, inputs) == Ok(Fill(Red))
    ensures k == RandomEffect ==> Output(InitialState(k), gradient, inputs) == Ok(Random.RandomFrame(inputs.rng))
    ensures k == CodingEffect ==> Output(InitialState(k), gradient, inputs) == Ok(Coding.ModeFrame(inputs.editorMode))
  {
    var g := Rainbow.Gradient(gradient);
    assert Rainbow.RotateRight(g, 0) == g[|g|..] + g[..|g|];
    assert g[|g|..] + g[..|g|] == g;
  }

  /** The state after m updates. */
  function Iterate(s: EffectState, m: nat): (t: EffectState)
    requires StateValid(s)
    ensures StateValid(t)
  {
    if m == 0 then s else NextState(Iterate(s, m - 1))
  }

  /** However many updates run, the installed effect stays of the same kind. */
  lemma {:induction false} UpdatesKeepKind(s: EffectState, m: nat)
    requires StateValid(s)
    ensures KindOf(Iterate(s, m)) == KindOf(s)
  {
    if m > 0 {
      UpdatesKeepKind(s, m - 1);
    }
  }

  /** A rainbow effect's state after m updates is its counter after m increments. */
  lemma {:induction false} IterateRainbow(k: nat, m: nat)
    requires k < LED_SIZE
    ensures Iterate(RainbowState(k), m) == RainbowState(Rainbow.Iterate(k, m))
  {
    if m > 0 {
      IterateRainbow(k, m - 1);
      Rainbow.IterateAdvances(k, m - 1);
    }
  }

  /** A test effect's state after m updates is its counter after m steps. */
  lemma {:induction false} IterateTest(k: nat, m: nat)
    ensures Iterate(TestState(k), m) == TestState(Test.Iterate(k, m))
  {
    if m > 0 {
      IterateTest(k, m - 1);
    }
  }

  /** While the rainbow is installed, each frame is the previous one rotated right by one pixel. */
  lemma RainbowStepRotates(s: EffectState, gradient: nat -> Color, before: Inputs, after: Inputs)
    requires s.RainbowState? && StateValid(s)
    ensures Output(NextState(s), gradient, after).value
         == Rainbow.RotateRight(Output(s, gradient, before).value, 1)
  {
    Rainbow.ConsecutiveFrames(gradient, s.iter);
  }

  /** While the rainbow is installed, the frames repeat every LED_SIZE ticks, whatever the other inputs. */
  lemma RainbowRunRepeats(k: nat, m: nat, gradient: nat -> Color, first: Inputs, later: Inputs)
    requires k < LED_SIZE
    ensures Output(Iterate(RainbowState(k), m + LED_SIZE), gradient, later)
         == Output(Iterate(RainbowState(k), m), gradient, first)
  {
    IterateRainbow(k, m);
    IterateRainbow(k, m + LED_SIZE);
    Rainbow.IterateAdvances(k, m);
    Rainbow.IterateAdvances(k, m + LED_SIZE);
    Rainbow.ShiftByTurn(k + m);
  }

  /** While the test pattern is installed, the frames repeat every four ticks. */
  lemma TestRunRepeats(k: nat, m: nat, gradient: nat -> Color, first: Inputs, later: Inputs)
    requires k <= 3
    ensures Output(Iterate(TestState(k), m + 4), gradient, later)
         == Output(Iterate(TestState(k), m), gradient, first)
  {
    IterateTest(k, m);
    IterateTest(k, m + 4);
    Test.PeriodFour(k, m);
  }

  /** `ClientType::into_effect`: a new effect object of the named kind, in its initial state. */
  method IntoEffect(k: ClientType) returns (b: EffectBox)
    ensures fresh(ObjectOf(b)) && BoxValid(b)
    ensures StateOf(b) == InitialState(k)
  {
    match k
    case RainbowEffect =>
      var e := new Rainbow.RainbowEffect();
      b := RainbowBox(e);
    case RandomEffect =>
      var e := new Random.RandomEffect();
      b := RandomBox(e);
    case TestEffect =>
      var e := new Test.TestEffect();
      b := TestBox(e);
    case CodingEffect =>
      var e := new Coding.CodingEffect();
      b := CodingBox(e);
  }

  /** `Effect::update` on whichever effect the box holds. */
  method Update(b: EffectBox, gradient: nat -> Color, inputs: Inputs) returns (r: Result<LedData, EffectError>)
    requires BoxValid(b)
    modifies ObjectOf(b)
    ensures BoxValid(b)
    ensures StateValid(old(StateOf(b)))
    ensures r == Output(old(StateOf(b)), gradient, inputs)
    ensures StateOf(b) == NextState(old(StateOf(b)))
  {
    match b
    case RainbowBox(e) =>
      r := e.Update(gradient);
    case TestBox(e) =>
      r := e.Update();
    case RandomBox(e) =>
      r := e.Update(inputs.rng);
    case CodingBox(e) =>
      r := e.Update(inputs.editorMode);
  }
}
