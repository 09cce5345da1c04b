/** The grammar of the step log: which step may follow which, as an automaton and as an explicit
    form, with the two proved to agree.
 */
module LogGrammar {
  import opened Wrappers
  import opened RunLog

  datatype Shape = Shape(stepType: StepType, roundNo: Option<int>)

  function ShapeOf(s: Step): Shape {
    Shape(s.stepType, s.roundNo)
  }

  function Shapes(steps: seq<Step>): (r: seq<Shape>)
    ensures |r| == |steps| && forall i :: 0 <= i < |steps| ==> r[i] == ShapeOf(steps[i])
  {
    seq(|steps|, i requires 0 <= i < |steps| => ShapeOf(steps[i]))
  }

  /** Where a log stands.  `Ready(n)`: `n` rounds were reflected on, the next one may start. */
  datatype Phase =
    | Start
    | Ready(rounds: nat)
    | Searched(roundNo: nat) | Deduped(roundNo: nat) | Analysed(roundNo: nat) | Listed(roundNo: nat)
    | Stopped(roundNo: nat) | Finalized(roundNo: nat)
    | Warned(before: Phase)
    | Bad

  function Next(p: Phase, s: Shape): Phase {
    if s.stepType == WarningStep then
      if p.Warned? || p.Bad? then Bad else Warned(p)
    else
      match p
      case Start => if s == Shape(StrategyStep, None) then Ready(0) else Bad
      case Ready(n) =>
        if s == Shape(SearchStep, Some(n + 1)) then Searched(n + 1)
        else if s == Shape(StopStep, Some(n)) && n > 0 then Stopped(n)
        else Bad
      case Searched(r) => if s == Shape(DedupeStep, Some(r)) then Deduped(r) else Bad
      case Deduped(r) => if s == Shape(AnalysisStep, Some(r)) then Analysed(r) else Bad
      case Analysed(r) => if s == Shape(ShortlistStep, Some(r)) then Listed(r) else Bad
      case Listed(r) =>
        if s == Shape(ReflectionStep, Some(r)) then Ready(r)
        else if s == Shape(StopStep, Some(r)) then Stopped(r)
        else Bad
      case Stopped(r) => if s == Shape(FinalizeStep, Some(r)) then Finalized(r) else Bad
      case _ => Bad
  }

  function PhaseOf(log: seq<Shape>): Phase {
    if log == [] then Start else Next(PhaseOf(log[..|log| - 1]), log[|log| - 1])
  }

  lemma {:induction false} PhaseAppend(log: seq<Shape>, s: Shape)
    ensures PhaseOf(log + [s]) == Next(PhaseOf(log), s)
  {
  }

  // ---------------------------------------------------------------------------------------
  // The explicit form
  // ---------------------------------------------------------------------------------------

  function RoundSteps(r: nat): seq<Shape> {
    [Shape(SearchStep, Some(r)), Shape(DedupeStep, Some(r)), Shape(AnalysisStep, Some(r)),
     Shape(ShortlistStep, Some(r))]
  }

  /** The strategy step and `n` rounds that all ended in a reflection. */
  function FullRounds(n: nat): seq<Shape> {
    if n == 0 then [Shape(StrategyStep, None)]
    else FullRounds(n - 1) + RoundSteps(n) + [Shape(ReflectionStep, Some(n))]
  }

  ghost predicate StoppedForm(log: seq<Shape>, r: nat) {
    && r > 0
    && (log == FullRounds(r - 1) + RoundSteps(r) + [Shape(StopStep, Some(r))]
        || log == FullRounds(r - 1) + RoundSteps(r) + [Shape(ReflectionStep, Some(r)), Shape(StopStep, Some(r))])
  }

  ghost predicate HasForm(log: seq<Shape>, p: Phase)
    decreases p
  {
    match p
    case Start => log == []
    case Ready(n) => log == FullRounds(n)
    case Searched(r) => r > 0 && log == FullRounds(r - 1) + RoundSteps(r)[..1]
    case Deduped(r) => r > 0 && log == FullRounds(r - 1) + RoundSteps(r)[..2]
    case Analysed(r) => r > 0 && log == FullRounds(r - 1) + RoundSteps(r)[..3]
    case Listed(r) => r > 0 && log == FullRounds(r - 1) + RoundSteps(r)
    case Stopped(r) => StoppedForm(log, r)
    case Finalized(r) => log != [] && StoppedForm(log[..|log| - 1], r) && log[|log| - 1] == Shape(FinalizeStep, Some(r))
    case Warned(before) =>
      log != [] && !before.Warned? && before != Bad && log[|log| - 1].stepType == WarningStep
      && HasForm(log[..|log| - 1], before)
    case Bad => false
  }

  lemma {:induction false} PhaseHasForm(log: seq<Shape>)
    requires PhaseOf(log) != Bad
    ensures HasForm(log, PhaseOf(log))
  {
    if log != [] {
      hide FullRounds, RoundSteps, StoppedForm, HasForm;
      var n := |log| - 1;
      var before, s := log[..n], log[n];
      assert log == before + [s];
      var p := PhaseOf(before);
      PhaseHasForm(before);
      FormStep(before, p, s);
    }
  }

  lemma {:induction false} FormStep(log: seq<Shape>, p: Phase, s: Shape)
    requires HasForm(log, p) && p != Bad && Next(p, s) != Bad
    ensures HasForm(log + [s], Next(p, s))
  {
    hide FullRounds;
    assert (log + [s])[..|log|] == log;
    match p
    case Ready(n) =>
      if s.stepType == StopStep {
        ReflectedForm(n, s);
      } else if s.stepType == SearchStep {
        PartNext(n + 1, 0);
      }
    case Searched(r) => PartNext(r, 1);
    case Deduped(r) => PartNext(r, 2);
    case Analysed(r) => PartNext(r, 3);
    case Listed(r) => FullRoundsUnfold(r);
    case Start => FullRoundsUnfold(0);
    case _ =>
  }

  lemma {:induction false} FullRoundsUnfold(n: nat)
    ensures FullRounds(n) == if n == 0 then [Shape(StrategyStep, None)]
                             else FullRounds(n - 1) + RoundSteps(n) + [Shape(ReflectionStep, Some(n))]
  {
  }

  lemma {:induction false} ReflectedForm(n: nat, s: Shape)
    requires n > 0
    ensures FullRounds(n) + [s] == FullRounds(n - 1) + RoundSteps(n) + [Shape(ReflectionStep, Some(n)), s]
  {
  }

  lemma {:induction false} PartNext(r: nat, k: nat)
    requires r > 0 && k < 4
    ensures FullRounds(r - 1) + RoundSteps(r)[..k] + [RoundSteps(r)[k]] == FullRounds(r - 1) + RoundSteps(r)[..k + 1]
    ensures RoundSteps(r)[..0] == [] && RoundSteps(r)[..4] == RoundSteps(r)
    ensures FullRounds(r - 1) + [] == FullRounds(r - 1)
  {
  }

  lemma {:induction false} FullRoundsPhase(n: nat)
    ensures PhaseOf(FullRounds(n)) == Ready(n)
  {
    if n == 0 {
      assert FullRounds(0) == [] + [Shape(StrategyStep, None)];
      PhaseAppend([], Shape(StrategyStep, None));
    } else {
      RoundPhases(n);
      PhaseAppend(FullRounds(n - 1) + RoundSteps(n), Shape(ReflectionStep, Some(n)));
    }
  }

  lemma {:induction false} RoundPhases(r: nat)
    requires r > 0
    ensures PhaseOf(FullRounds(r - 1) + RoundSteps(r)[..1]) == Searched(r)
    ensures PhaseOf(FullRounds(r - 1) + RoundSteps(r)[..2]) == Deduped(r)
    ensures PhaseOf(FullRounds(r - 1) + RoundSteps(r)[..3]) == Analysed(r)
    ensures PhaseOf(FullRounds(r - 1) + RoundSteps(r)) == Listed(r)
    decreases r, 0
  {
    hide PhaseOf, FullRounds;
    FullRoundsPhase(r - 1);
    var log, steps := FullRounds(r - 1), RoundSteps(r);
    var one, two, three := log + steps[..1], log + steps[..2], log + steps[..3];
    assert one == log + [steps[0]] && two == one + [steps[1]] && three == two + [steps[2]]
        && log + steps == three + [steps[3]];
    hide RoundSteps;
    PhaseAppend(log, Shape(SearchStep, Some(r)));
    PhaseAppend(one, Shape(DedupeStep, Some(r)));
    PhaseAppend(two, Shape(AnalysisStep, Some(r)));
    PhaseAppend(three, Shape(ShortlistStep, Some(r)));
  }

  lemma {:induction false} StoppedPhase(log: seq<Shape>, r: nat)
    requires StoppedForm(log, r)
    ensures PhaseOf(log) == Stopped(r)
  {
    hide PhaseOf, RoundSteps;
    RoundPhases(r);
    FullRoundsPhase(r);
    PhaseAppend(FullRounds(r - 1) + RoundSteps(r), Shape(StopStep, Some(r)));
    PhaseAppend(FullRounds(r), Shape(StopStep, Some(r)));
    assert FullRounds(r) + [Shape(StopStep, Some(r))] ==
           FullRounds(r - 1) + RoundSteps(r) + [Shape(ReflectionStep, Some(r)), Shape(StopStep, Some(r))];
  }

  lemma {:induction false} FormHasPhase(log: seq<Shape>, p: Phase)
    requires HasForm(log, p)
    ensures PhaseOf(log) == p
    decreases p
  {
    hide FullRounds, RoundSteps, StoppedForm;
    match p
    case Start =>
    case Ready(n) => FullRoundsPhase(n);
    case Stopped(r) => StoppedPhase(log, r);
    case Finalized(r) => StoppedPhase(log[..|log| - 1], r);
    case Warned(before) => FormHasPhase(log[..|log| - 1], before);
    case _ => PartHasPhase(log, p);
  }

  lemma {:induction false} PartHasPhase(log: seq<Shape>, p: Phase)
    requires p.Searched? || p.Deduped? || p.Analysed? || p.Listed?
    requires HasForm(log, p)
    ensures PhaseOf(log) == p
  {
    hide PhaseOf, RoundSteps, FullRounds;
    RoundPhases(p.roundNo);
  }

  /** The automaton accepts exactly the explicit forms: a log stands at a phase if and only if it is
      the strategy step, the full rounds, and the part of the last round that the phase names. */
  lemma {:induction false} GrammarMeaning(log: seq<Shape>, p: Phase)
    requires p != Bad
    ensures PhaseOf(log) == p <==> HasForm(log, p)
  {
    hide PhaseOf, HasForm;
    if PhaseOf(log) == p { PhaseHasForm(log); }
    if HasForm(log, p) { FormHasPhase(log, p); }
  }

  // ---------------------------------------------------------------------------------------
  // Consequences
  // ---------------------------------------------------------------------------------------

  function Count(log: seq<Shape>, t: StepType): nat {
    if log == [] then 0 else Count(log[..|log| - 1], t) + if log[|log| - 1].stepType == t then 1 else 0
  }

  /** Rounds whose search was recorded. */
  function RoundsIn(p: Phase): nat {
    match p
    case Start => 0
    case Ready(n) => n
    case Warned(before) => RoundsIn(before)
    case Bad => 0
    case _ => p.roundNo
  }

  predicate HasStopped(p: Phase) {
    match p
    case Stopped(_) => true
    case Finalized(_) => true
    case Warned(before) => HasStopped(before)
    case _ => false
  }

  /** A well-formed log has one search step per round, a stop step exactly when it has stopped, and
      then only one, in its last round. */
  lemma {:induction false} StepCounts(log: seq<Shape>)
    requires PhaseOf(log) != Bad
    ensures Count(log, SearchStep) == RoundsIn(PhaseOf(log))
    ensures Count(log, StopStep) == if HasStopped(PhaseOf(log)) then 1 else 0
    ensures forall i :: 0 <= i < |log| && log[i].stepType == StopStep ==> log[i].roundNo == Some(RoundsIn(PhaseOf(log)))
  {
    if log != [] {
      var n := |log| - 1;
      assert PhaseOf(log[..n]) != Bad;
      StepCounts(log[..n]);
      if HasStopped(PhaseOf(log[..n])) {
      } else {
        NoStops(log[..n]);
      }
    }
  }

  lemma {:induction false} NoStops(log: seq<Shape>)
    requires Count(log, StopStep) == 0
    ensures forall i :: 0 <= i < |log| ==> log[i].stepType != StopStep
  {
    if log != [] { NoStops(log[..|log| - 1]); }
  }

  /** Every prefix of a well-formed log is well-formed. */
  lemma {:induction false} PrefixClosed(log: seq<Shape>, n: nat)
    requires n <= |log| && PhaseOf(log) != Bad
    ensures PhaseOf(log[..n]) != Bad
  {
    if n < |log| {
      var m := |log| - 1;
      assert PhaseOf(log[..m]) != Bad;
      assert log[..m][..n] == log[..n];
      PrefixClosed(log[..m], n);
    } else {
      assert log[..n] == log;
    }
  }
}
