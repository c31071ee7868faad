/**
 The header check (checkHeaderMatch in indexer/indexer.go): every activation of findCoins first
 compares the raw block with the head, and a block that comes next but names another parent is
 turned away before anything is looked up. So Block never returns a block that does not fit the
 head its last check saw.
 */
module PipelineHeaders {
  import opened Blocks
  import opened CoinIds
  import opened BlockParser
  import opened Pipeline
  import opened PipelineWaits
  import opened PipelineTruth

  /** The raw block comes right after the head and names another block as its parent. */
  predicate OffTheHead(db: seq<Block>, raw: RawBlock) {
    db != [] && raw.height == Head(db).index + 1 && raw.previousHash != Head(db).hash
  }

  /** What the step of the check does, in any state: exactly a block off the head is reported as an
      orphan, any other call goes on to its lookups, or to parsing if it has none, and nothing
      else changes. */
  lemma CheckDecides(s: State, c: nat)
    requires CanAdvance(s, c) && s.calls[c].pc.CheckHeader? && Shaped(s.calls[c])
    ensures var before, after := s.calls[c], Advance(s, c).calls[c];
            && Advance(s, c) == State(s.sh, s.calls[c := before.(pc := after.pc)])
            && (after.pc.OrphanHead? <==> OffTheHead(s.sh.db, before.raw))
            && (!OffTheHead(s.sh.db, before.raw) ==>
                  if before.asked == [] then after.pc == Parse(before.outer) else after.pc.ReadSeen?)
  {
    assert s.calls[c].outer + map[] == s.calls[c].outer;
  }

  // ---------------------------------------------------------------- the check of an activation

  /** The call has passed the check of its current activation. */
  predicate PastCheck(pc: Pc) { InLookups(pc) || InWaits(pc) || Returned(pc) }

  /** Step k was that check, and found the block not off the head of that moment. */
  ghost predicate CheckedAt(states: seq<State>, steps: seq<Step>, c: nat, k: nat, call: Call) {
    && k < |steps| && k < |states| && steps[k] == Act(c) && c in states[k].calls
    && states[k].calls[c].pc.CheckHeader? && states[k].calls[c].level == call.level
    && states[k].calls[c].raw == call.raw && !OffTheHead(states[k].sh.db, call.raw)
  }

  /** The block a call has is the one it was asked for. */
  predicate OwnBlock(call: Call) {
    HasBlock(call.pc) ==> call.pc.b.id == BlockIdOf(call.raw) && call.pc.b.parent == ParentIdOf(call.raw)
  }

  /** A step that is not a check stays in the activation, or starts the next one. */
  predicate StaysIn(call: Call, after: Call) {
    && after.raw == call.raw && OwnBlock(after)
    && (PastCheck(after.pc) ==> after.level == call.level)
    && (PastCheck(after.pc) && !call.pc.CheckHeader? ==> PastCheck(call.pc))
  }

  lemma StepStaysIn(sh: Shared, c: nat, call: Call)
    requires CanStep(sh, call) && OwnBlock(call)
    ensures StaysIn(call, CallStep(sh, c, call).call)
  {
    hide CallStep, CanStep, StaysIn, OwnBlock;
    if InLookups(call.pc) {
      LookupStaysIn(sh, c, call);
    } else if InWaits(call.pc) {
      WaitStaysIn(sh, c, call);
    } else {
      OtherStaysIn(sh, c, call);
    }
  }

  lemma NextStaysIn(call: Call)
    ensures forall coin :: var after := Found(call, coin); SameActivation(call, after) && !HasBlock(after.pc)
    ensures var after := Missing(call); SameActivation(call, after) && !HasBlock(after.pc)
  {
  }

  lemma LookupStaysIn(sh: Shared, c: nat, call: Call)
    requires CanStep(sh, call) && InLookups(call.pc)
    ensures StaysIn(call, CallStep(sh, c, call).call)
  {
    hide TransactionHash, RegisterWait, CurrentCoin, Found, Missing, BlockIdOf, ParentIdOf;
    NextStaysIn(call);
  }

  lemma WaitStaysIn(sh: Shared, c: nat, call: Call)
    requires CanStep(sh, call) && InWaits(call.pc)
    ensures StaysIn(call, CallStep(sh, c, call).call)
  {
    hide TransactionHash, Left, WaitHash, BlockIdOf, ParentIdOf;
  }

  lemma OtherStaysIn(sh: Shared, c: nat, call: Call)
    requires CanStep(sh, call) && OwnBlock(call) && !InLookups(call.pc) && !InWaits(call.pc)
    ensures StaysIn(call, CallStep(sh, c, call).call)
  {
    hide PublishCoins, CloseSeen, TransactionsOf, Parses, BlockIdOf, ParentIdOf, HeaderMatches;
  }

  lemma {:induction false} RunsKeepBlocks(states: seq<State>, steps: seq<Step>, n: nat, c: nat)
    requires IsRun(states, steps) && Initial(states[0]) && n < |states| && c in states[n].calls
    ensures OwnBlock(states[n].calls[c])
  {
    hide CallStep, CanStep, AdvanceAdder, CanAdvanceAdder, CanCommit, BlockIdOf, ParentIdOf, Shaped;
    if n > 0 && c in states[n - 1].calls {
      RunsKeepBlocks(states, steps, n - 1, c);
      if steps[n - 1] == Act(c) {
        StepStaysIn(states[n - 1].sh, c, states[n - 1].calls[c]);
      }
    }
  }

  /** In every run, every activation that has gone past the check was checked, at its own level of
      the recursion, against the head of that moment. */
  lemma {:induction false} ActivationsAreChecked(states: seq<State>, steps: seq<Step>, n: nat, c: nat) returns (k: nat)
    requires IsRun(states, steps) && Initial(states[0]) && n < |states|
    requires c in states[n].calls && PastCheck(states[n].calls[c].pc)
    ensures k < n && CheckedAt(states, steps, c, k, states[n].calls[c])
    ensures forall m :: k < m <= n ==> c in states[m].calls && PastCheck(states[m].calls[c].pc)
  {
    hide CallStep, CanStep, AdvanceAdder, CanAdvanceAdder, CanCommit, OffTheHead, Shaped, OwnBlock;
    var s, step := states[n - 1], steps[n - 1];
    RunKeepsWaitInvariant(states, steps, n - 1);
    if step == Act(c) {
      var call := s.calls[c];
      RunsKeepBlocks(states, steps, n - 1, c);
      StepStaysIn(s.sh, c, call);
      if call.pc.CheckHeader? {
        CheckDecides(s, c);
        k := n - 1;
      } else {
        k := ActivationsAreChecked(states, steps, n - 1, c);
      }
    } else {
      NotActed(s, step, c);
      k := ActivationsAreChecked(states, steps, n - 1, c);
    }
  }

  lemma NotActed(s: State, step: Step, c: nat)
    requires Enabled(s, step) && step != Act(c) && c in Apply(s, step).calls && PastCheck(Apply(s, step).calls[c].pc)
    ensures c in s.calls && s.calls[c] == Apply(s, step).calls[c]
  {
    hide CallStep, CanStep, AdvanceAdder, CanAdvanceAdder, CanCommit;
  }

  // ---------------------------------------------------------------- what Block returns

  /** The head does not move between two moments of a run. */
  ghost predicate HeadRests(steps: seq<Step>, from: nat, to: nat) {
    forall m :: from <= m < to && m < |steps| ==> !steps[m].Commit? && !steps[m].Remove?
  }

  lemma {:induction false} SameHead(states: seq<State>, steps: seq<Step>, from: nat, to: nat)
    requires IsRun(states, steps) && from <= to < |states| && HeadRests(steps, from, to)
    ensures states[to].sh.db == states[from].sh.db
  {
    hide CallStep, CanStep, CanCommit, CloseEntries;
    if from < to {
      SameHead(states, steps, from, to - 1);
      var s, step := states[to - 1], steps[to - 1];
      if step.Act? {
        CallKeepsStores(s.sh, step.c, s.calls[step.c]);
      } else if step.Add? {
        AddKeepsHead(s.sh);
      }
    }
  }

  /** A removal takes the block that was added last, and nothing else changes. */
  lemma RemovalUndoesCommit(s: State, b: Block, t: State)
    requires Enabled(s, Commit(b)) && Enabled(t, Remove) && t.sh.db == Apply(s, Commit(b)).sh.db
    ensures Apply(t, Remove) == State(t.sh.(db := s.sh.db), t.calls)
  {
    hide CanCommit;
  }

  lemma AddKeepsHead(sh: Shared)
    requires CanAdvanceAdder(sh)
    ensures AdvanceAdder(sh).db == sh.db
  {
  }

  /** A block that Block returns, in any run, is not off the head that its last check saw: if it
      comes right after that head, then the head is its parent. */
  lemma ReturnedFitsCheckedHead(states: seq<State>, steps: seq<Step>, n: nat, c: nat) returns (k: nat)
    requires IsRun(states, steps) && Initial(states[0]) && n < |states|
    requires c in states[n].calls && HasBlock(states[n].calls[c].pc)
    ensures k < n && steps[k] == Act(c) && c in states[k].calls && states[k].calls[c].pc.CheckHeader?
    ensures forall m :: k < m <= n ==> c in states[m].calls && !states[m].calls[c].pc.CheckHeader?
    ensures var b, db := states[n].calls[c].pc.b, states[k].sh.db;
            db != [] && b.id.index == Head(db).index + 1 && b.id.index != 0 ==> b.parent == Head(db)
  {
    hide Enabled, Apply, Initial;
    k := ActivationsAreChecked(states, steps, n, c);
    RunsKeepBlocks(states, steps, n, c);
  }

  /** So if the head rests while the call runs, a returned block that comes right after the head has
      the head as its parent. */
  lemma ReturnedExtendsHead(states: seq<State>, steps: seq<Step>, from: nat, n: nat, c: nat)
    requires IsRun(states, steps) && Initial(states[0]) && from <= n < |states| && HeadRests(steps, from, n)
    requires c !in states[from].calls && c in states[n].calls && HasBlock(states[n].calls[c].pc)
    ensures var b, db := states[n].calls[c].pc.b, states[n].sh.db;
            db != [] && b.id.index == Head(db).index + 1 && b.id.index != 0 ==> b.parent == Head(db)
  {
    hide Enabled, Apply, Initial, HeadRests;
    var k := ReturnedFitsCheckedHead(states, steps, n, c);
    assert k >= from;
    RestsLater(steps, from, k, n);
    SameHead(states, steps, k, n);
  }

  lemma RestsLater(steps: seq<Step>, from: nat, k: nat, to: nat)
    requires HeadRests(steps, from, to) && from <= k
    ensures HeadRests(steps, k, to)
  {
  }

  // ---------------------------------------------------------------- a block off the head

  /** The call has looked up nothing and registered nothing. */
  predicate TurnedAway(call: Call, raw: RawBlock) {
    && call.raw == raw && (call.pc.CheckHeader? || call.pc.OrphanHead? || call.pc.Failed?)
    && call.next == 0 && call.waited == 0 && call.remaining == [] && call.coinMap == map[]
  }

  /** A call for a block off the head, while the head rests, never looks anything up, registers no
      wait and returns no block: all it can do is report the orphan, or fail. */
  lemma {:induction false} OffTheHeadIsTurnedAway(states: seq<State>, steps: seq<Step>, from: nat, n: nat, c: nat,
                                                 raw: RawBlock)
    requires IsRun(states, steps) && from < n < |states| && steps[from] == Start(c, raw)
    requires OffTheHead(states[from].sh.db, raw) && HeadRests(steps, from, n)
    ensures c in states[n].calls && TurnedAway(states[n].calls[c], raw)
    ensures forall hash, i: nat :: (c, i) !in Waits(states[n], hash)
  {
    hide AdvanceAdder, CanAdvanceAdder, CanCommit, OffTheHead, HeadRests, CallStep, CanStep;
    if n > from + 1 {
      RestsBefore(steps, from, n);
      OffTheHeadIsTurnedAway(states, steps, from, n - 1, c, raw);
      var s, step := states[n - 1], steps[n - 1];
      SameHead(states, steps, from, n - 1);
      if step == Act(c) {
        OnlyTheCheckCanRun(s, c);
        CheckDecides(s, c);
      }
    }
    forall hash, i: nat
      ensures (c, i) !in Waits(states[n], hash)
    {
      assert !IsWait(states[n], c, i, hash);
    }
  }

  lemma OnlyTheCheckCanRun(s: State, c: nat)
    requires CanAdvance(s, c) && TurnedAway(s.calls[c], s.calls[c].raw)
    ensures s.calls[c].pc.CheckHeader? && Shaped(s.calls[c])
  {
  }

  lemma RestsBefore(steps: seq<Step>, from: nat, to: nat)
    requires HeadRests(steps, from, to) && to > 0
    ensures HeadRests(steps, from, to - 1)
  {
  }
}
