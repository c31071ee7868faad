/**
 If needed coins stay stored, every fair schedule commits the whole chain; PipelineCondition
 shows that otherwise some runs cannot go on to that. A schedule goes on for ever and rests only
 when everything is committed; it is fair if a step that stays possible is taken some day.
 */
module PipelineFairness {
  import opened Wrappers
  import opened Blocks
  import opened Pipeline
  import opened FixedChain
  import opened PipelineChain
  import opened PipelineProgress
  import opened PipelineMeasure

  ghost predicate Offered(p: Plan, base: nat, s: State, step: Step) {
    Enabled(s, step) && ChainStep(p, base, s, step)
  }

  /** What happens at instant n: a step, or rest. */
  ghost predicate Tick(p: Plan, base: nat, run: nat -> State, taken: nat -> Option<Step>, n: nat) {
    match taken(n)
    case None => Complete(p, run(n)) && run(n + 1) == run(n)
    case Some(step) => Offered(p, base, run(n), step) && run(n + 1) == Apply(run(n), step)
  }

  ghost predicate Schedule(p: Plan, base: nat, run: nat -> State, taken: nat -> Option<Step>) {
    && Initial(run(0)) && base <= |p.blocks| && run(0).sh.db == p.blocks[..base]
    && forall n: nat :: Tick(p, base, run, taken, n)
  }

  ghost predicate OfferedFrom(p: Plan, base: nat, run: nat -> State, n: nat, step: Step) {
    forall m: nat :: m >= n ==> Offered(p, base, run(m), step)
  }

  ghost predicate TakenFrom(taken: nat -> Option<Step>, n: nat, step: Step) {
    exists m: nat :: m >= n && taken(m) == Some(step)
  }

  ghost predicate Fair(p: Plan, base: nat, run: nat -> State, taken: nat -> Option<Step>) {
    forall n: nat, step :: OfferedFrom(p, base, run, n, step) ==> TakenFrom(taken, n, step)
  }

  /** At instant n a step is taken that makes progress. */
  ghost predicate Useful(run: nat -> State, taken: nat -> Option<Step>, n: nat) {
    taken(n).Some? && !Spins(run(n), taken(n).value)
  }

  /** A sleeping lookup takes nothing away: whatever made progress before still does. */
  lemma SpinKeepsOffers(p: Plan, base: nat, s: State, spin: Step, step: Step)
    requires Enabled(s, spin) && Spins(s, spin) && Offered(p, base, s, step) && !Spins(s, step)
    ensures var s' := Apply(s, spin);
            Offered(p, base, s', step) && !Spins(s', step) && (Complete(p, s') <==> Complete(p, s))
  {
    hide CanStep, BlockCoins;
    var s' := Apply(s, spin);
    SpinIs(s, spin.c);
    if step.Act? {
      assert step.c != spin.c && s'.calls[step.c] == s.calls[step.c];
    } else if step.Commit? {
      var c :| c in s.calls && s.calls[c].pc == SeenDone(step.b);
      assert s'.calls[c].pc == SeenDone(step.b);
    }
  }

  lemma SpinIs(s: State, c: nat)
    requires CanAdvance(s, c) && Spins(s, Act(c))
    ensures var s' := Advance(s, c);
            && s'.sh == s.sh && s'.calls.Keys == s.calls.Keys
            && forall k :: k in s.calls && k != c ==> s'.calls[k] == s.calls[k]
  {
  }

  lemma {:induction false} ScheduleProgresses(p: Plan, base: nat, run: nat -> State, taken: nat -> Option<Step>, n: nat)
    requires Valid(p) && Stays(p, base) && Schedule(p, base, run, taken)
    ensures Progressing(p, base, run(n))
  {
    hide Valid, Stays, Inv, Apply, Enabled, ChainStep, Complete;
    if n == 0 {
      InitialInv(p, base, run(0));
    } else {
      ScheduleProgresses(p, base, run, taken, n - 1);
      assert Tick(p, base, run, taken, n - 1);
      if taken(n - 1).Some? {
        StepProgressing(p, base, run(n - 1), taken(n - 1).value);
      }
    }
  }

  /** The work left never grows. */
  lemma {:induction false} WorkOverTime(p: Plan, base: nat, run: nat -> State, taken: nat -> Option<Step>,
                                        n: nat, m: nat)
    requires Valid(p) && Stays(p, base) && Schedule(p, base, run, taken) && n <= m
    ensures Measure(p, base, run(m)) <= Measure(p, base, run(n))
    ensures Useful(run, taken, m) ==> Measure(p, base, run(m + 1)) < Measure(p, base, run(n))
    ensures Measure(p, base, run(n)) >= 0
  {
    hide Valid, Stays, Progressing, Apply, Enabled, ChainStep, Complete, Measure, Spins;
    ScheduleProgresses(p, base, run, taken, m);
    assert Tick(p, base, run, taken, m);
    if taken(m).Some? {
      MeasureDecreases(p, base, run(m), taken(m).value);
    }
    if n < m {
      WorkOverTime(p, base, run, taken, n, m - 1);
      ScheduleProgresses(p, base, run, taken, m - 1);
      assert Tick(p, base, run, taken, m - 1);
      if taken(m - 1).Some? {
        MeasureDecreases(p, base, run(m - 1), taken(m - 1).value);
      }
    } else {
      ScheduleProgresses(p, base, run, taken, n);
      MeasureOfNext(p, base, run(n));
    }
  }

  /** While only sleeping lookups move, a step that makes progress stays possible. */
  lemma {:induction false} OfferStays(p: Plan, base: nat, run: nat -> State, taken: nat -> Option<Step>, n: nat, m: nat,
                                      step: Step)
    requires Schedule(p, base, run, taken) && n <= m && (forall i: nat :: n <= i < m ==> !Useful(run, taken, i))
    requires Offered(p, base, run(n), step) && !Spins(run(n), step) && !Complete(p, run(n))
    ensures Offered(p, base, run(m), step) && !Spins(run(m), step) && !Complete(p, run(m))
  {
    hide Apply, Enabled, ChainStep, Complete, Spins;
    if n < m {
      OfferStays(p, base, run, taken, n, m - 1, step);
      assert Tick(p, base, run, taken, m - 1) && !Useful(run, taken, m - 1);
      SpinKeepsOffers(p, base, run(m - 1), taken(m - 1).value, step);
    }
  }

  lemma FairTakes(p: Plan, base: nat, run: nat -> State, taken: nat -> Option<Step>, n: nat, step: Step)
    returns (m: nat)
    requires Fair(p, base, run, taken) && OfferedFrom(p, base, run, n, step)
    ensures m >= n && taken(m) == Some(step)
  {
    hide Offered;
    assert TakenFrom(taken, n, step);
    m :| m >= n && taken(m) == Some(step);
  }

  /** Before completion, some later step makes progress. */
  lemma SomeUseful(p: Plan, base: nat, run: nat -> State, taken: nat -> Option<Step>, n: nat) returns (m: nat)
    requires Valid(p) && Stays(p, base) && Schedule(p, base, run, taken) && Fair(p, base, run, taken)
    requires !Complete(p, run(n))
    ensures m >= n && Useful(run, taken, m)
  {
    hide Valid, Stays, Inv, AllSized, Tick, Enabled, ChainStep, Apply, Spins, Complete, Fair;
    ScheduleProgresses(p, base, run, taken, n);
    var step := SomeStepProceeds(p, base, run(n));
    if i: nat :| i >= n && Useful(run, taken, i) {
      return i;
    }
    forall i: nat | i >= n
      ensures Offered(p, base, run(i), step) && taken(i) != Some(step)
    {
      OfferStays(p, base, run, taken, n, i, step);
      assert !Useful(run, taken, i);
    }
    m := FairTakes(p, base, run, taken, n, step);
    assert false;
  }

  /** Eventual completion, if needed coins stay stored. */
  lemma {:induction false} FairCompletes(p: Plan, base: nat, run: nat -> State, taken: nat -> Option<Step>, n: nat)
    returns (m: nat)
    requires Valid(p) && Stays(p, base) && Schedule(p, base, run, taken) && Fair(p, base, run, taken)
    ensures m >= n && Complete(p, run(m)) && run(m).sh.db == p.blocks
    decreases Measure(p, base, run(n))
  {
    hide Valid, Stays, Inv, AllSized, Schedule, Fair, Measure, Complete, Useful;
    ScheduleProgresses(p, base, run, taken, n);
    if Complete(p, run(n)) {
      m := n;
      CompleteIsSequential(p, base, run(n));
    } else {
      var i := SomeUseful(p, base, run, taken, n);
      WorkOverTime(p, base, run, taken, n, i);
      m := FairCompletes(p, base, run, taken, i + 1);
    }
  }
}
