/**
 Main results on a fixed valid chain. In every run: what is cached. If needed coins stay
 stored: their hand-off, no lost wake-up and no failure; PipelineCondition shows that they need
 to, and says when every coin is handed off.
 */
module PipelineProgress {
  import opened CoinIds
  import opened CoinLedger
  import opened UtxoLedger
  import opened SequentialIndex
  import opened Pipeline
  import opened PipelineWaits
  import opened PipelineAborts
  import opened PipelineTruth
  import opened FixedChain
  import opened PipelineChain
  import opened PipelineChainSteps

  /** A run on the chain, started with its first base blocks committed. */
  ghost predicate ChainRun(p: Plan, base: nat, states: seq<State>, steps: seq<Step>) {
    && IsRun(states, steps) && Initial(states[0])
    && base <= |p.blocks| && states[0].sh.db == p.blocks[..base]
    && forall k :: 0 <= k < |steps| ==> ChainStep(p, base, states[k], steps[k])
  }

  lemma InitialFacts(p: Plan, base: nat, s: State)
    requires Valid(p) && Initial(s) && base <= |p.blocks| && s.sh.db == p.blocks[..base]
    ensures Facts(p, base, s)
  {
    hide Indexed, Linked, SameHashSameTransaction, Truthful, Genuine, WaitInvariant, Lists;
    InitialWaits(s);
    PlanGenuine(p, |p.blocks|);
    forall k | 0 <= k < base
      ensures Genuine(p.truth, s.sh.db[k])
    {
      TrueParseGenuine(p.truth, p.chain[k], p.blocks[k]);
    }
  }

  lemma InitialInv(p: Plan, base: nat, s: State)
    requires Valid(p) && Stays(p, base) && Initial(s) && base <= |p.blocks| && s.sh.db == p.blocks[..base]
    ensures Inv(p, base, s)
  {
    hide Valid, Stays, Facts;
    InitialFacts(p, base, s);
  }

  /** In every run on the chain. */
  lemma {:induction false} RunFacts(p: Plan, base: nat, states: seq<State>, steps: seq<Step>, n: nat)
    requires Valid(p) && ChainRun(p, base, states, steps) && n < |states|
    ensures Facts(p, base, states[n])
  {
    hide Valid, Facts, Enabled, Apply, ChainStep, Initial;
    if n == 0 {
      InitialFacts(p, base, states[0]);
    } else {
      RunFacts(p, base, states, steps, n - 1);
      StepKeepsFacts(p, base, states[n - 1], steps[n - 1]);
    }
  }

  /** In every run on a chain whose needed coins stay stored. */
  lemma {:induction false} RunInv(p: Plan, base: nat, states: seq<State>, steps: seq<Step>, n: nat)
    requires Valid(p) && Stays(p, base) && ChainRun(p, base, states, steps) && n < |states|
    ensures Inv(p, base, states[n])
  {
    hide Valid, Stays, Inv, Enabled, Apply, ChainStep, Initial;
    if n == 0 {
      InitialInv(p, base, states[0]);
    } else {
      RunInv(p, base, states, steps, n - 1);
      StepKeepsInv(p, base, states[n - 1], steps[n - 1]);
    }
  }

  // ---------------------------------------------------------------- wake-ups

  /** No lost wake-up: when a wait is registered, no BlockSeen of this run for a block with the
      transaction has passed its close section, nor even counted its block, and such a block is
      to come below the waiting one; and as long as the entry is open that stays so. Hence the
      section still to come will close the entry. */
  lemma NoLostWakeup(p: Plan, base: nat, states: seq<State>, steps: seq<Step>, n: nat, k: nat)
    requires Valid(p) && Stays(p, base) && ChainRun(p, base, states, steps) && n < |steps|
    requires steps[n] == Act(k) && k in states[n].calls && Registers(states[n], k)
    ensures var hash := TransactionHash(CurrentCoin(states[n].calls[k]));
            && hash in states[n + 1].sh.table && !states[n + 1].sh.table[hash].channelClosed
            && (forall i: nat :: base <= i && HasHash(p, i, hash) ==> !Bumped(base, states[n], i))
            && (exists j: nat :: base <= j < k && HasHash(p, j, hash))
            && forall m :: n < m < |states| && hash in states[m].sh.table && !states[m].sh.table[hash].channelClosed ==>
                 forall i: nat :: base <= i && HasHash(p, i, hash) ==> !Closed(base, states[m], i)
  {
    hide Valid, Stays, Inv, Apply, ChainStep, Initial, HasHash, TransactionHash, Closed, CallStep;
    RunInv(p, base, states, steps, n);
    var hash := TransactionHash(CurrentCoin(states[n].calls[k]));
    RegistrationFacts(p, base, states[n], k);
    RegisterStep(states[n].sh, k, states[n].calls[k]);
    ActIsAdvance(states[n], k);
    forall m | n < m < |states| && hash in states[m].sh.table && !states[m].sh.table[hash].channelClosed
      ensures forall i: nat :: base <= i && HasHash(p, i, hash) ==> !Closed(base, states[m], i)
    {
      RunInv(p, base, states, steps, m);
      OpenNotClosed(p, base, states[m], hash);
    }
    RegisteredIsOpen(p, base, states[n], k);
  }

  lemma ActIsAdvance(s: State, k: nat)
    requires Enabled(s, Act(k))
    ensures Apply(s, Act(k)).sh == CallStep(s.sh, k, s.calls[k]).sh
  {
    hide CallStep, CanStep;
  }

  lemma OpenNotClosed(p: Plan, base: nat, s: State, hash: string)
    requires Inv(p, base, s) && hash in s.sh.table && !s.sh.table[hash].channelClosed
    ensures forall i: nat :: base <= i && HasHash(p, i, hash) ==> !Closed(base, s, i)
  {
    hide Stays, Facts, AllFine, EarliestWaits, AllReady, HasHash, Closed;
    assert !SomeClosed(p, base, s, hash);
  }

  lemma RegistrationFacts(p: Plan, base: nat, s: State, k: nat)
    requires Valid(p) && Inv(p, base, s) && k in s.calls && Registers(s, k)
    ensures var hash := TransactionHash(CurrentCoin(s.calls[k]));
            && (forall i: nat :: base <= i && HasHash(p, i, hash) ==> !Bumped(base, s, i))
            && exists j: nat :: base <= j < k && HasHash(p, j, hash)
  {
    hide Valid, Stays, WaitInvariant, AllTrue, CacheExact, EarliestWaits, Wakes, HasHash, Lists, Bumped,
      TransactionHash, AllReady, Closed;
    var call := s.calls[k];
    var id := CurrentCoin(call);
    RegistersBeforeCount(p, base, s, k);
    RegisterShape(s, k);
    SearchingNeeds(p, base, s, k, id);
    NeededHash(p, k, id);
    forall i: nat | base <= i && HasHash(p, i, TransactionHash(id))
      ensures !Bumped(base, s, i)
    {
      assert Lists(p, i, id) && Bumped(base, s, i) ==> Available(p, base, s, id);
    }
    assert CallOnChain(p, base, k, call);
    ChainHeight(p, k);
    var j: nat :| base <= j < call.raw.height && Lists(p, j, id);
    assert HasHash(p, j, TransactionHash(id));
  }

  lemma RegisterShape(s: State, k: nat)
    requires WaitInvariant(s) && k in s.calls && s.calls[k].pc.Register?
    ensures CurrentCoin(s.calls[k]) in s.calls[k].asked
  {
    assert Shaped(s.calls[k]);
  }

  /** The entry a wait joins is open. */
  lemma RegisteredIsOpen(p: Plan, base: nat, s: State, k: nat)
    requires Valid(p) && Inv(p, base, s) && k in s.calls && Registers(s, k)
    ensures var hash := TransactionHash(CurrentCoin(s.calls[k]));
            hash in s.sh.table ==> !s.sh.table[hash].channelClosed
  {
    hide Valid, Stays, Facts, AllFine, EarliestWaits, TransactionHash, AllReady, SomeClosed;
    RegistersBeforeCount(p, base, s, k);
  }

  /** No call fails, reports an orphaned head, or searches a third time; no entry is ever aborted;
      and a coin whose wait is over is found in the next activation, where nothing is missing. */
  lemma NothingFails(p: Plan, base: nat, states: seq<State>, steps: seq<Step>, n: nat)
    requires Valid(p) && Stays(p, base) && ChainRun(p, base, states, steps) && n < |states|
    ensures forall k :: k in states[n].calls ==> !states[n].calls[k].pc.Failed? && !states[n].calls[k].pc.OrphanHead?
    ensures forall h :: h in states[n].sh.table ==> !states[n].sh.table[h].aborted
    ensures forall k :: k in states[n].calls && Searching(states[n].calls[k].pc) ==> states[n].calls[k].level <= 1
    ensures forall k :: k in states[n].calls && Searching(states[n].calls[k].pc) && states[n].calls[k].level == 1 ==>
              && states[n].calls[k].remaining == []
              && forall id :: id in states[n].calls[k].asked ==> Reachable(states[n].sh, id)
  {
    hide Valid, Stays, Enabled, Apply, ChainStep, Initial, Facts, Wakes, EarliestWaits, LookupReady, Available,
      Reachable;
    RunInv(p, base, states, steps, n);
    var s := states[n];
    assert forall k :: k in s.calls ==> Fine(s.calls[k].pc) && LevelReady(p, base, s, s.calls[k]);
    forall k, id | k in s.calls && Searching(s.calls[k].pc) && s.calls[k].level == 1 && id in s.calls[k].asked
      ensures Reachable(s.sh, id)
    {
      AvailableIsReachable(p, base, s, k, id);
    }
  }

  lemma AvailableIsReachable(p: Plan, base: nat, s: State, k: nat, id: string)
    requires Inv(p, base, s) && k in s.calls && Searching(s.calls[k].pc) && id in s.calls[k].asked
    requires Available(p, base, s, id)
    ensures Reachable(s.sh, id)
  {
    hide Stays, WaitInvariant, AllTrue, Wakes, EarliestWaits, OnChain, CacheExact, Lists, AllReady, Needs;
    SearchingNeeds(p, base, s, k, id);
    var i: nat :| base <= i && Lists(p, i, id) && Bumped(base, s, i);
    assert Published(base, s, i);
    HandOff(p, base, s, k, i, id);
  }

  // ---------------------------------------------------------------- the cache

  /** At most one block of this run lists the coin. */
  ghost predicate ListedOnce(p: Plan, base: nat, id: string) {
    forall i: nat, j: nat :: base <= i && base <= j && Lists(p, i, id) && Lists(p, j, id) ==> i == j
  }

  /** What is cached in every state: each cached coin is one of a block between its cache write
      and its eviction, and for a coin that one block of the run lists the converse holds. */
  lemma RunCache(p: Plan, base: nat, states: seq<State>, steps: seq<Step>, n: nat)
    requires Valid(p) && ChainRun(p, base, states, steps) && n < |states|
    ensures forall id :: id in states[n].sh.cache ==>
              exists i: nat :: Lists(p, i, id) && Published(base, states[n], i) && i >= Evicted(states[n].sh)
    ensures forall i: nat, id :: Lists(p, i, id) && ListedOnce(p, base, id) && base <= i ==>
              (id in states[n].sh.cache <==> Published(base, states[n], i) && i >= Evicted(states[n].sh))
  {
    hide Valid, WaitInvariant, AllTrue, Lists, Published, Enabled, Apply, ChainStep, CallOnChain, Closed;
    RunFacts(p, base, states, steps, n);
    var s := states[n];
    assert Evicted(s.sh) >= base;
    forall id | id in s.sh.cache
      ensures exists i: nat :: Lists(p, i, id) && Published(base, s, i) && i >= Evicted(s.sh)
    {
      assert Cacheable(p, base, s, id);
    }
    forall i: nat, id | Lists(p, i, id) && ListedOnce(p, base, id) && base <= i
      ensures id in s.sh.cache <==> Published(base, s, i) && i >= Evicted(s.sh)
    {
      if Dropped(p, base, s, id) {
        var j: nat :| base <= j < Evicted(s.sh) && Lists(p, j, id);
        assert j == i;
      }
    }
  }

  /** No BlockSeen and no BlockAdded is under way. */
  ghost predicate Quiet(s: State) {
    s.sh.adder.Idle? && forall k :: k in s.calls && AfterPublish(s.calls[k].pc) ==> s.calls[k].pc.SeenDone?
  }

  /** Block i has been seen in this run and not been added. */
  ghost predicate SeenNotAdded(base: nat, s: State, i: nat) {
    Closed(base, s, i) && i >= |s.sh.db|
  }

  /** At rest every cached coin is one of a block seen and not added, and the cache holds all
      coins of such blocks that no other block of the run lists. */
  lemma CacheIsSeenNotAdded(p: Plan, base: nat, states: seq<State>, steps: seq<Step>, n: nat)
    requires Valid(p) && ChainRun(p, base, states, steps) && n < |states| && Quiet(states[n])
    ensures forall id :: id in states[n].sh.cache ==>
              exists i: nat :: Lists(p, i, id) && SeenNotAdded(base, states[n], i)
    ensures forall i: nat, id :: Lists(p, i, id) && ListedOnce(p, base, id) && SeenNotAdded(base, states[n], i) ==>
              id in states[n].sh.cache
  {
    hide Valid, Enabled, Apply, ChainStep, ListedOnce, Lists;
    RunFacts(p, base, states, steps, n);
    RunCache(p, base, states, steps, n);
    QuietPhases(base, states[n]);
    BaseCommitted(p, base, states[n]);
    var s := states[n];
    forall id | id in s.sh.cache
      ensures exists i: nat :: Lists(p, i, id) && SeenNotAdded(base, s, i)
    {
      var i: nat :| Lists(p, i, id) && Published(base, s, i) && i >= Evicted(s.sh);
      assert SeenNotAdded(base, s, i);
    }
  }

  lemma QuietPhases(base: nat, s: State)
    requires Quiet(s)
    ensures forall i: nat :: Published(base, s, i) <==> Closed(base, s, i)
  {
  }

  lemma BaseCommitted(p: Plan, base: nat, s: State)
    requires Facts(p, base, s)
    ensures |s.sh.db| >= base
  {
  }

  /** Hand-off of needed coins over whole runs, if they stay stored: each is in the cache or the
      store from the cache write of any block of the run that lists it. */
  lemma RunHandOff(p: Plan, base: nat, states: seq<State>, steps: seq<Step>, n: nat, x: nat, i: nat, id: string)
    requires Valid(p) && Stays(p, base) && ChainRun(p, base, states, steps) && n < |states|
    requires |states[n].sh.db| <= x && Needs(p, x, id)
    requires base <= i && Lists(p, i, id) && Published(base, states[n], i)
    ensures id in states[n].sh.cache || id in Store(states[n].sh.db)
  {
    hide Valid, Stays, Enabled, Apply, ChainStep, Lists, Needs, Store, WaitInvariant, AllTrue, OnChain, CacheExact,
      Published;
    RunFacts(p, base, states, steps, n);
    HandOff(p, base, states[n], x, i, id);
  }
}
