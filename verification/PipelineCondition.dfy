/**
 The exact conditions on a chain. Coins are exactly cached at rest if and only if the blocks of
 the run repeat none. Every coin is in the cache or the store until it is spent, if and only if
 none is listed again once it was spent. And no wake-up is lost, nothing is aborted, no call
 fails, and every state can go on to the whole chain committed, each if and only if needed coins
 stay stored: on any other chain there is a run, without reorganisations or failures, in which a
 call waits for blocks that have all been seen, until the abort pass ends it with ErrOrphanHead,
 and its block is never committed.
 */
module PipelineCondition {
  import opened Wrappers
  import opened Blocks
  import opened CoinIds
  import opened CoinFetching
  import opened Pipeline
  import opened PipelineWaits
  import opened PipelineTruth
  import opened PipelineAborts
  import opened PipelineRuns
  import opened FixedChain
  import opened PipelineChain
  import opened PipelineProgress
  import opened PipelineMeasure
  import opened PipelineReplay

  // ---------------------------------------------------------------- the cache

  /** A coin two blocks of the run list: both are seen, the first is added, and its eviction has
      taken the coin of the second, which is not added, out of the cache. */
  lemma RepeatedCoinIsDropped(p: Plan, base: nat, i: nat, j: nat, id: string) returns (t: State)
    requires Valid(p) && base <= i < j && Lists(p, i, id) && Lists(p, j, id)
    ensures Reaches(p, base, t) && Quiet(t) && SeenNotAdded(base, t, j) && id !in t.sh.cache
  {
    hide Valid, Reaches, BlockCoins, WaitInvariant, AllTrue, CacheExact;
    t := SeesAll(p, base, j + 1);
    t := AddsUpTo(p, base, t, j + 1, i + 1);
    ReachedFacts(p, base, t);
    forall k | k in t.calls && AfterPublish(t.calls[k].pc)
      ensures t.calls[k].pc.SeenDone?
    {
      assert CallOnChain(p, base, k, t.calls[k]);
    }
  }

  /** The cache holds the coin exactly when a block that lists it is seen and not added. */
  ghost predicate CachedExactly(p: Plan, base: nat, s: State, id: string) {
    id in s.sh.cache <==> exists i: nat :: Lists(p, i, id) && SeenNotAdded(base, s, i)
  }

  /** That holds at rest in every run exactly for the coins that one block of the run lists. */
  lemma CachedExactlyIff(p: Plan, base: nat, id: string)
    requires Valid(p)
    ensures (forall t :: Reaches(p, base, t) && Quiet(t) ==> CachedExactly(p, base, t, id)) <==> ListedOnce(p, base, id)
  {
    hide Valid, Lists, Quiet, Initial, ChainStep, Enabled, Apply;
    if ListedOnce(p, base, id) {
      forall t | Reaches(p, base, t) && Quiet(t)
        ensures CachedExactly(p, base, t, id)
      {
        var states, steps :| ChainRun(p, base, states, steps) && states[|steps|] == t;
        RunLength(p, base, states, steps);
        CacheIsSeenNotAdded(p, base, states, steps, |steps|);
      }
    } else {
      var i: nat, j: nat :| base <= i && base <= j && Lists(p, i, id) && Lists(p, j, id) && i < j;
      var t := RepeatedCoinIsDropped(p, base, i, j, id);
      assert !CachedExactly(p, base, t, id);
    }
  }

  lemma RunLength(p: Plan, base: nat, states: seq<State>, steps: seq<Step>)
    requires ChainRun(p, base, states, steps)
    ensures |states| == |steps| + 1
  {
  }

  // ---------------------------------------------------------------- hand-off

  /** Block i has made the coin and no committed block after it has spent it. */
  ghost predicate MadeUnspent(p: Plan, s: State, i: nat, id: string) {
    Lists(p, i, id) && forall m: nat :: i < m <= |s.sh.db| ==> Stored(p, m, id)
  }

  /** Each coin is in the cache or the store from the cache write of its block until it is spent. */
  ghost predicate HandsOff(p: Plan, base: nat, s: State) {
    forall i: nat, id :: Published(base, s, i) && MadeUnspent(p, s, i, id) ==> Reachable(s.sh, id)
  }

  lemma HandsOffIfNoneRemade(p: Plan, base: nat, s: State)
    requires Valid(p) && NoneRemade(p, base) && Reaches(p, base, s)
    ensures HandsOff(p, base, s)
  {
    hide Valid, Reaches, Lists, WaitInvariant, AllTrue, CallOnChain, Closed, Published, StoreAt;
    ReachedFacts(p, base, s);
    StoreAtIs(p, |s.sh.db|);
    forall i: nat, id | Published(base, s, i) && MadeUnspent(p, s, i, id)
      ensures Reachable(s.sh, id)
    {
      if i < |s.sh.db| {
        assert Stored(p, |s.sh.db|, id);
      } else if id !in s.sh.cache {
        var j: nat :| base <= j < Evicted(s.sh) && Lists(p, j, id);
        assert Stored(p, |s.sh.db|, id);
      }
    }
  }

  /** A coin made again after it was spent: both blocks are seen before the first is evicted, then
      the first is added, and the blocks up to the one that spends its coin. The second coin, not
      even committed, is in neither place. */
  lemma RemadeIsLost(p: Plan, base: nat, j: nat, n: nat, i: nat, id: string) returns (t: State)
    requires Valid(p) && base <= j < n <= i && Lists(p, j, id) && Lists(p, i, id) && !Stored(p, n, id)
    ensures Reaches(p, base, t) && |t.sh.db| == n && Closed(base, t, i) && MadeUnspent(p, t, i, id)
    ensures !Reachable(t.sh, id)
  {
    hide Valid, Reaches, Stored, BlockCoins;
    t := SeesAll(p, base, i + 1);
    t := AddsUpTo(p, base, t, i + 1, n);
    NotThere(p, base, t, i + 1, j, id);
  }

  /** The exact condition for the hand-off of every coin. */
  lemma HandsOffIff(p: Plan, base: nat)
    requires Valid(p)
    ensures (forall t :: Reaches(p, base, t) ==> HandsOff(p, base, t)) <==> NoneRemade(p, base)
  {
    hide Valid, Reaches, Lists, Stored, MadeUnspent, Reachable;
    if NoneRemade(p, base) {
      forall t | Reaches(p, base, t)
        ensures HandsOff(p, base, t)
      {
        HandsOffIfNoneRemade(p, base, t);
      }
    } else {
      var j: nat, n: nat, i: nat, id: string :|
        base <= j < n <= i && Lists(p, j, id) && Lists(p, i, id) && !Stored(p, n, id);
      var t := RemadeIsLost(p, base, j, n, i, id);
      assert Published(base, t, i);
      assert !HandsOff(p, base, t);
    }
  }

  // ---------------------------------------------------------------- a wait for blocks already seen

  /** The call is about to register a wait, and every block of this run below its own that has the
      transaction has already closed its channels: none of them will wake it. */
  ghost predicate WakeupLost(p: Plan, base: nat, s: State, k: nat) {
    && Registers(s, k)
    && forall i: nat :: base <= i < k && HasHash(p, i, TransactionHash(CurrentCoin(s.calls[k]))) ==> Closed(base, s, i)
  }

  /** Block x is being fetched, its coin number q next, while all blocks below are settled. */
  ghost predicate Fetching(p: Plan, base: nat, s: State, x: nat) {
    && Settled(p, base, s, x) && s.sh.db != [] && s.sh.adder == Idle
    && x in s.calls && s.calls[x].raw.height == x && s.calls[x].level == 0 && s.calls[x].waited == 0
    && !s.calls[x].shouldAbort
  }

  lemma RegistersOpen(sh: Shared, hash: string, height: int)
    requires forall h :: h in sh.table ==> OpenAt(sh.table[h], height)
    ensures var sh' := RegisterWait(sh, hash, height);
            && (forall h :: h in sh'.table ==> OpenAt(sh'.table[h], height))
            && sh'.db == sh.db && sh'.cache == sh.cache && sh'.adder == sh.adder && sh'.holder == None
  {
  }

  lemma MissingIs(call: Call)
    ensures var call' := Missing(call);
            && SameActivation(call, call') && call'.remaining == call.remaining + [CurrentCoin(call)]
            && call'.next == call.next + 1 && call'.shouldAbort == call.shouldAbort
            && (call'.pc.ReadSeen? <==> call.next + 1 < |call.asked|)
            && (call.next + 1 >= |call.asked| ==> call'.pc.GetEntry?)
  {
    hide CurrentCoin;
  }

  /** One more lookup of the call of block x. */
  lemma LooksOn(p: Plan, base: nat, s: State, x: nat) returns (t: State)
    requires Reaches(p, base, s) && Fetching(p, base, s, x) && s.calls[x].pc.ReadSeen?
    ensures Reaches(p, base, t) && Fetching(p, base, t, x)
    ensures t.sh.db == s.sh.db && t.sh.cache == s.sh.cache
    ensures t.calls[x].asked == s.calls[x].asked && t.calls[x].next == s.calls[x].next + 1
    ensures s.calls[x].remaining <= t.calls[x].remaining
    ensures LookedUp(s.sh, CurrentCoin(s.calls[x])) == None ==> t.calls[x].remaining != []
    ensures t.calls[x].pc.ReadSeen? <==> t.calls[x].next < |t.calls[x].asked|
    ensures t.calls[x].next >= |t.calls[x].asked| && t.calls[x].remaining != [] ==> t.calls[x].pc.GetEntry?
  {
    hide Reaches, LookedUp, Found, Missing, CurrentCoin, RegisterWait, OpenAt, Lists;
    t := Looks(p, base, s, x);
    var call := s.calls[x];
    var looked := LookedUp(s.sh, CurrentCoin(call));
    MissingIs(call);
    RegistersOpen(s.sh, TransactionHash(CurrentCoin(call)), x);
    if looked.Some? {
      FoundIs(call, looked.value);
      FoundEnds(call, looked.value);
    }
  }

  lemma FoundEnds(call: Call, coin: AccountCoin)
    ensures call.next + 1 >= |call.asked| && call.remaining != [] ==> Found(call, coin).pc.GetEntry?
  {
    hide CurrentCoin;
  }

  /** The lookups of the call up to coin number q. */
  lemma {:induction false} LooksTo(p: Plan, base: nat, s: State, x: nat, q: nat) returns (t: State)
    requires Reaches(p, base, s) && Fetching(p, base, s, x) && s.calls[x].pc.ReadSeen?
    requires s.calls[x].next <= q < |s.calls[x].asked|
    ensures Reaches(p, base, t) && Fetching(p, base, t, x) && t.calls[x].pc.ReadSeen?
    ensures t.sh.db == s.sh.db && t.sh.cache == s.sh.cache
    ensures t.calls[x].asked == s.calls[x].asked && t.calls[x].next == q
    decreases q - s.calls[x].next
  {
    hide Reaches, Settled, LookedUp, CurrentCoin;
    if s.calls[x].next == q {
      t := s;
    } else {
      t := LooksOn(p, base, s, x);
      t := LooksTo(p, base, t, x, q);
    }
  }

  /** All lookups that are left, of a call that misses a coin. */
  lemma {:induction false} LooksToEnd(p: Plan, base: nat, s: State, x: nat) returns (t: State)
    requires Reaches(p, base, s) && Fetching(p, base, s, x) && s.calls[x].pc.ReadSeen?
    requires s.calls[x].next < |s.calls[x].asked|
    requires s.calls[x].remaining != [] || LookedUp(s.sh, CurrentCoin(s.calls[x])) == None
    ensures Reaches(p, base, t) && Fetching(p, base, t, x) && t.sh.db == s.sh.db
    ensures t.calls[x].pc.GetEntry? && t.calls[x].remaining != []
    decreases |s.calls[x].asked| - s.calls[x].next
  {
    hide Reaches, Settled, LookedUp, CurrentCoin;
    t := LooksOn(p, base, s, x);
    if t.calls[x].next < |t.calls[x].asked| {
      t := LooksToEnd(p, base, t, x);
    }
  }

  /** All lower blocks are seen, and the call of block x stands before a coin that is nowhere. */
  lemma StandsBeforeLost(p: Plan, base: nat, j: nat, n: nat, x: nat, id: string) returns (t: State)
    requires Valid(p) && base <= j < n <= x && Lists(p, j, id) && Needs(p, x, id) && !Stored(p, n, id)
    ensures Reaches(p, base, t) && Fetching(p, base, t, x) && t.calls[x].pc.ReadSeen? && |t.sh.db| == n < x
    ensures t.calls[x].next < |t.calls[x].asked| && CurrentCoin(t.calls[x]) == id
    ensures LookedUp(t.sh, id) == None
  {
    hide Valid, Reaches, BlockCoins, FetchList, StoreAt, Settled;
    PlanLengths(p);
    NeededIsStored(p, x, id);
    assert n < x;
    t := SeesAll(p, base, x);
    NotYetStarted(p, base, t, x);
    t := AddsUpTo(p, base, t, x, n);
    NotThere(p, base, t, x, j, id);
    var looked := LookedUp(t.sh, id);
    var s := t;
    t := Starts(p, base, s, x);
    assert id in t.calls[x].asked;
    ChainHeight(p, x);
    StillSettled(p, base, s, t, x);
    var q :| 0 <= q < |t.calls[x].asked| && t.calls[x].asked[q] == id;
    t := LooksTo(p, base, t, x, q);
    assert LookedUp(t.sh, id) == looked;
  }

  lemma NotYetStarted(p: Plan, base: nat, s: State, x: nat)
    requires Settled(p, base, s, x)
    ensures base <= x <= |p.blocks|
  {
  }

  /** A coin of an evicted block that is not stored is nowhere. */
  lemma NotThere(p: Plan, base: nat, s: State, x: nat, j: nat, id: string)
    requires Valid(p) && Reaches(p, base, s) && Settled(p, base, s, x)
    requires base <= j < Evicted(s.sh) && Lists(p, j, id) && !Stored(p, |s.sh.db|, id)
    ensures LookedUp(s.sh, id) == None
  {
    hide Valid, Reaches, Lists, WaitInvariant, AllTrue, CacheExact, StoreAt, CallOnChain, Closed;
    ReachedFacts(p, base, s);
    StoreAtIs(p, |s.sh.db|);
  }

  lemma StillSettled(p: Plan, base: nat, s: State, t: State, x: nat)
    requires Settled(p, base, s, x) && t.sh == s.sh && x in t.calls && t.calls == s.calls[x := t.calls[x]]
    ensures Settled(p, base, t, x)
  {
    hide Lists;
  }

  // ---------------------------------------------------------------- until the abort pass

  /** The last block below x is added: the pass aborts every entry. */
  lemma LastAborts(p: Plan, base: nat, s: State, x: nat) returns (t: State)
    requires Valid(p) && Reaches(p, base, s) && Settled(p, base, s, x) && |s.sh.db| + 1 == x && s.sh.adder == Idle
    ensures Reaches(p, base, t) && t.calls == s.calls && t.sh.holder == None
    ensures t.sh.table.Keys == s.sh.table.Keys && forall h :: h in t.sh.table ==> t.sh.table[h].aborted
  {
    hide Valid, Reaches, BlockCoins, Swept;
    t := Commits(p, base, s, x);
    t := Evicts(p, base, t, x);
    var s1 := t;
    ReachesOn(p, base, s1, Add);
    t := Apply(s1, Add);
    forall h | h in s1.sh.table
      ensures h in ToAbort(s1.sh.table, x)
    {
      assert OpenAt(s1.sh.table[h], x);
    }
  }

  /** A call that waits on aborted entries only leaves them one by one and reports an orphan. */
  lemma {:induction false} LeavesAborted(p: Plan, base: nat, s: State, x: nat) returns (t: State)
    requires Valid(p) && Reaches(p, base, s) && x in s.calls && s.calls[x].pc.GetEntry? && s.sh.holder == None
    requires forall h :: h in s.sh.table ==> s.sh.table[h].aborted
    ensures Reaches(p, base, t) && x in t.calls && t.calls[x].pc.OrphanHead?
    decreases |s.calls[x].remaining| - s.calls[x].waited
  {
    hide Valid, Reaches, WaitHash, Left, Facts;
    var call := s.calls[x];
    var hash := WaitHash(call);
    AbortedEntry(p, base, s, x);
    ReachesActed(p, base, s, x);
    var channel := s.sh.table[hash].channel;
    var s1 := Moving(s, s.sh, x, call.(pc := Receive(channel)));
    assert Advance(s, x) == s1;
    ReachesActed(p, base, s1, x);
    var s2 := Moving(s, s.sh, x, call.(pc := Consume));
    assert Advance(s1, x) == s2;
    SameWait(call, Consume);
    ReachesActed(p, base, s2, x);
    t := Advance(s2, x);
    assert t == Moving(s, s.sh.(table := Left(s.sh.table, hash)), x, Woken(call.(pc := Consume), true));
    LeftAborted(s.sh.table, hash);
    if t.calls[x].pc.GetEntry? {
      t := LeavesAborted(p, base, t, x);
    }
  }

  lemma SameWait(call: Call, pc: Pc)
    ensures WaitHash(call.(pc := pc)) == WaitHash(call)
  {
  }

  lemma LeftAborted(table: Table, hash: string)
    requires hash in table && forall h :: h in table ==> table[h].aborted
    ensures forall h :: h in Left(table, hash) ==> Left(table, hash)[h].aborted
  {
  }

  lemma AbortedEntry(p: Plan, base: nat, s: State, x: nat)
    requires Valid(p) && Reaches(p, base, s) && x in s.calls && s.calls[x].pc.GetEntry?
    requires forall h :: h in s.sh.table ==> s.sh.table[h].aborted
    ensures WaitHash(s.calls[x]) in s.sh.table && s.sh.table[WaitHash(s.calls[x])].channel in s.sh.closed
    ensures s.calls[x].waited < |s.calls[x].remaining|
  {
    hide Valid, Reaches, WaitHash, AllTrue, OnChain, CacheExact, HeightsOk, LockHeld, AllHoldEntries;
    ReachedFacts(p, base, s);
    assert Shaped(s.calls[x]);
    WaiterHasEntry(s, x);
    var e := s.sh.table[WaitHash(s.calls[x])];
    assert EntryChannel(e, s.sh.closed, s.sh.nextChannel);
  }

  // ---------------------------------------------------------------- the condition is exact

  lemma LosesWakeup(p: Plan, base: nat) returns (t: State, k: nat)
    requires Valid(p) && !Stays(p, base)
    ensures Reaches(p, base, t) && k in t.calls && WakeupLost(p, base, t, k)
  {
    hide Valid, Reaches, Lists, Needs, Stored, LookedUp, CurrentCoin, HasHash, Swept, OpenAt, TransactionHash;
    var j: nat, n: nat, x: nat, id: string :|
      base <= j < n <= x && Lists(p, j, id) && Needs(p, x, id) && !Stored(p, n, id);
    var s := StandsBeforeLost(p, base, j, n, x, id);
    t := StandsAtRegister(p, base, s, x);
    k := x;
  }

  lemma EndsInOrphan(p: Plan, base: nat) returns (s: State, t: State, k: nat)
    requires Valid(p) && !Stays(p, base)
    ensures Reaches(p, base, s) && !NoneAborted(s.sh)
    ensures Reaches(p, base, t) && k in t.calls && t.calls[k].pc.OrphanHead?
  {
    hide Valid, Reaches, Lists, Needs, Stored, LookedUp, CurrentCoin, Settled;
    var j: nat, n: nat, x: nat, id: string :|
      base <= j < n <= x && Lists(p, j, id) && Needs(p, x, id) && !Stored(p, n, id);
    k := x;
    s := StandsBeforeLost(p, base, j, n, x, id);
    s := LooksToEnd(p, base, s, x);
    s := AddsUpTo(p, base, s, x, x - 1);
    s := LastAborts(p, base, s, x);
    AbortedEntry(p, base, s, x);
    t := LeavesAborted(p, base, s, x);
  }

  lemma ReachedInv(p: Plan, base: nat, t: State)
    requires Valid(p) && Stays(p, base) && Reaches(p, base, t)
    ensures Inv(p, base, t)
  {
    hide Valid, Stays, Inv, ChainStep, Initial;
    var states, steps :| ChainRun(p, base, states, steps) && states[|steps|] == t;
    RunInv(p, base, states, steps, |steps|);
  }

  lemma KeepsWakeup(p: Plan, base: nat, t: State, k: nat)
    requires Valid(p) && Stays(p, base) && Reaches(p, base, t) && k in t.calls && Registers(t, k)
    ensures !WakeupLost(p, base, t, k)
  {
    hide Valid, Stays, Reaches, Inv, HasHash, TransactionHash, CurrentCoin, Registers;
    ReachedInv(p, base, t);
    RegistrationFacts(p, base, t, k);
    var hash := TransactionHash(CurrentCoin(t.calls[k]));
    var j: nat :| base <= j < k && HasHash(p, j, hash);
    assert !Bumped(base, t, j);
  }

  /** From t on, steps of the chain can commit everything. */
  ghost predicate CanFinish(p: Plan, base: nat, t: State) {
    exists states, steps :: FinishingRun(p, base, t, states, steps)
  }

  ghost predicate FinishingRun(p: Plan, base: nat, t: State, states: seq<State>, steps: seq<Step>) {
    && IsRun(states, steps) && states[0] == t
    && (forall k :: 0 <= k < |steps| ==> ChainStep(p, base, states[k], steps[k]))
    && Complete(p, states[|steps|])
  }

  /** A call that has reported an orphaned head never moves again. */
  lemma {:induction false} OrphanStays(p: Plan, base: nat, t: State, k: nat, states: seq<State>, steps: seq<Step>,
                                       n: nat)
    requires IsRun(states, steps) && states[0] == t && n <= |steps|
    requires forall m :: 0 <= m < |steps| ==> ChainStep(p, base, states[m], steps[m])
    requires Reaches(p, base, t) && k in t.calls && t.calls[k].pc.OrphanHead?
    ensures Reaches(p, base, states[n]) && k in states[n].calls && states[n].calls[k].pc.OrphanHead?
  {
    hide Reaches, ChainStep, CallStep, AdvanceAdder, CanAdvanceAdder, CanCommit;
    if n > 0 {
      OrphanStays(p, base, t, k, states, steps, n - 1);
      ReachesOn(p, base, states[n - 1], steps[n - 1]);
      NoAbandon(p, base, states[n - 1], steps[n - 1]);
    }
  }

  lemma NoAbandon(p: Plan, base: nat, s: State, step: Step)
    requires ChainStep(p, base, s, step)
    ensures !step.Abandon?
  {
  }

  /** So its block is never committed. */
  lemma OrphanLeavesOut(p: Plan, base: nat, t: State, k: nat)
    requires Valid(p) && Reaches(p, base, t) && k in t.calls && t.calls[k].pc.OrphanHead?
    ensures !Complete(p, t)
  {
    hide Valid, Reaches, WaitInvariant, AllTrue, CacheExact;
    ReachedFacts(p, base, t);
    PlanLengths(p);
    assert CallOnChain(p, base, k, t.calls[k]);
    assert !Closed(base, t, k);
  }

  lemma OrphanCannotFinish(p: Plan, base: nat, t: State, k: nat)
    requires Valid(p) && Reaches(p, base, t) && k in t.calls && t.calls[k].pc.OrphanHead?
    ensures !CanFinish(p, base, t)
  {
    hide Valid, Reaches, ChainStep, Complete, Enabled, Apply;
    forall states: seq<State>, steps: seq<Step> | |states| == |steps| + 1
      ensures !FinishingRun(p, base, t, states, steps)
    {
      if FinishingRun(p, base, t, states, steps) {
        OrphanStays(p, base, t, k, states, steps, |steps|);
        OrphanLeavesOut(p, base, states[|steps|], k);
      }
    }
  }

  lemma InvCanFinish(p: Plan, base: nat, t: State)
    requires Valid(p) && Stays(p, base) && Reaches(p, base, t)
    ensures CanFinish(p, base, t)
  {
    hide Valid, Stays, Initial, ChainStep, Progressing, Complete;
    var states, steps :| ChainRun(p, base, states, steps) && states[|steps|] == t;
    RunLength(p, base, states, steps);
    RunProgressing(p, base, states, steps, |steps|);
    var more, on := CanComplete(p, base, t);
    assert FinishingRun(p, base, t, more, on);
  }

  /** Completion is possible from every reached state under exactly the same condition. */
  lemma FinishIff(p: Plan, base: nat)
    requires Valid(p)
    ensures (forall t :: Reaches(p, base, t) ==> CanFinish(p, base, t)) <==> Stays(p, base)
  {
    hide Valid, Stays, Reaches, CanFinish, NoneAborted;
    if Stays(p, base) {
      forall t | Reaches(p, base, t)
        ensures CanFinish(p, base, t)
      {
        InvCanFinish(p, base, t);
      }
    } else {
      var aborted, orphan, k := EndsInOrphan(p, base);
      OrphanCannotFinish(p, base, orphan, k);
    }
  }

  /** The exact condition. In the runs on a chain no wake-up is lost, nothing is ever aborted, and
      no call fails or reports an orphaned head, each if and only if a coin that a block of the
      run lists stays stored until the last block that needs it. */
  lemma SmoothIff(p: Plan, base: nat)
    requires Valid(p)
    ensures (forall t, k :: Reaches(p, base, t) && k in t.calls ==> !WakeupLost(p, base, t, k)) <==> Stays(p, base)
    ensures (forall t :: Reaches(p, base, t) ==> NoneAborted(t.sh)) <==> Stays(p, base)
    ensures (forall t :: Reaches(p, base, t) ==> AllFine(t)) <==> Stays(p, base)
  {
    hide Valid, Stays, Reaches, WakeupLost, Facts, Wakes, EarliestWaits, AllReady, NoneAborted;
    if Stays(p, base) {
      forall t | Reaches(p, base, t)
        ensures NoneAborted(t.sh) && AllFine(t)
        ensures forall k :: k in t.calls ==> !WakeupLost(p, base, t, k)
      {
        ReachedInv(p, base, t);
        forall k | k in t.calls
          ensures !WakeupLost(p, base, t, k)
        {
          LostRegisters(p, base, t, k);
          if Registers(t, k) {
            KeepsWakeup(p, base, t, k);
          }
        }
      }
    } else {
      var lost, k := LosesWakeup(p, base);
      var aborted, orphan, x := EndsInOrphan(p, base);
      assert !AllFine(orphan);
    }
  }

  lemma LostRegisters(p: Plan, base: nat, t: State, k: nat)
    ensures WakeupLost(p, base, t, k) ==> Registers(t, k)
  {
  }
}
