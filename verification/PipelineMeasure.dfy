/**
 Deadlock freedom and progress on a fixed valid chain whose needed coins stay stored: until
 every block is committed some step is enabled that makes progress, no step ever undoes
 progress, and the amount of work is bounded from the start. What is committed in the end is
 the sequential index of the chain. PipelineCondition shows that the condition is needed.
 */
module PipelineMeasure {
  import opened Wrappers
  import opened Blocks
  import opened BlockParser
  import opened CoinFetching
  import opened CoinLedger
  import opened SequentialIndex
  import opened Pipeline
  import opened PipelineWaits
  import opened PipelineTruth
  import opened FixedChain
  import opened PipelineChain
  import opened PipelineChainSteps
  import opened PipelineProgress

  /** Everything is committed and BlockAdded is over. */
  predicate Complete(p: Plan, s: State) {
    |s.sh.db| == |p.blocks| && s.sh.adder.Idle?
  }

  /** The only steps that lead nowhere: a lookup that finds no head sleeps and starts again. */
  predicate Spins(s: State, step: Step) {
    step.Act? && step.c in s.calls && s.sh.db == [] && (s.calls[step.c].pc.ReadSeen? || s.calls[step.c].pc.ReadStore?)
  }

  // ---------------------------------------------------------------- deadlock freedom

  /** A call that has not finished is waiting only for the lock, or for a lower block. */
  lemma CallProceeds(p: Plan, base: nat, s: State, k: nat)
    requires Valid(p) && Inv(p, base, s) && k in s.calls && !s.calls[k].pc.SeenDone? && s.sh.holder == None
    requires forall j: nat :: j < k ==> Closed(base, s, j)
    ensures CanAdvance(s, k)
  {
    hide Valid, AllTrue, CacheExact, Wakes, EarliestWaits, AllReady, LockHeld, AllListenersCount, Closed, Waits,
      WaitHash, HasHash, HeightsOk;
    var call := s.calls[k];
    assert CallOnChain(p, base, k, call) && Shaped(call) && HoldsEntry(call, s.sh.table, s.sh.closed);
    if call.pc.Receive? {
      var hash := WaitHash(call);
      assert EntryChannel(s.sh.table[hash], s.sh.closed, s.sh.nextChannel);
      WaiterHasEntry(s, k);
      if !s.sh.table[hash].channelClosed {
        OpenEntryWillClose(p, base, s, (k, call.waited), hash);
      }
    }
  }

  lemma HolderProceeds(s: State)
    requires WaitInvariant(s) && s.sh.holder.Some?
    ensures CanAdvance(s, s.sh.holder.value) && s.calls[s.sh.holder.value].pc.Register?
  {
  }

  /** The first block that is not seen yet, if there is one below n. */
  lemma {:induction false} LowestUnseen(base: nat, s: State, n: nat) returns (k: nat)
    ensures k <= n
    ensures forall j: nat :: j < k ==> Closed(base, s, j)
    ensures k < n ==> !Closed(base, s, k)
  {
    hide Closed;
    if n == 0 {
      k := 0;
    } else {
      k := LowestUnseen(base, s, n - 1);
      if k == n - 1 && Closed(base, s, k) {
        k := n;
      }
    }
  }

  lemma AdderProceeds(p: Plan, base: nat, s: State)
    requires Inv(p, base, s) && !s.sh.adder.Idle? && s.sh.holder == None
    ensures Enabled(s, Add) && ChainStep(p, base, s, Add)
  {
    hide Inv;
  }

  /** The first block lists no coins, so its call never spins. */
  lemma FirstListsNothing(p: Plan, base: nat, s: State)
    requires Valid(p) && Inv(p, base, s) && 0 in s.calls && |p.blocks| > 0
    ensures !InLookups(s.calls[0].pc)
  {
    hide WaitInvariant, CacheExact, Wakes, EarliestWaits, AllReady, Indexed, Linked, SameHashSameTransaction,
      TrueParse, FetchList, StoreAt;
    if InLookups(s.calls[0].pc) {
      ShapedCall(s, 0);
      var id := s.calls[0].asked[s.calls[0].next];
      SearchingNeeds(p, base, s, 0, id);
      NeededIsStored(p, 0, id);
      NothingStored(p);
    }
  }

  lemma ShapedCall(s: State, k: nat)
    requires WaitInvariant(s) && k in s.calls
    ensures Shaped(s.calls[k])
  {
    assert Shaped(s.calls[k]);
  }

  /** Calls have been started in the order of the chain. */
  ghost predicate InOrder(base: nat, s: State) {
    forall k, j: nat :: k in s.calls && base <= j < k ==> j in s.calls
  }

  /** Deadlock freedom: in every state that is not complete, reached while needed coins stay stored,
      some step is enabled, and one that makes progress. A new call is only needed once every lower block is seen; so if
      calls are started in order, some call that has not finished can move, or the adder can. */
  lemma SomeStepProceeds(p: Plan, base: nat, s: State) returns (step: Step)
    requires Valid(p) && Inv(p, base, s) && !Complete(p, s)
    ensures Enabled(s, step) && ChainStep(p, base, s, step) && !Spins(s, step)
    ensures step.Start? ==> forall j: nat :: j < step.c ==> Closed(base, s, j)
    ensures step.Start? && InOrder(base, s) ==> forall k :: k in s.calls ==> s.calls[k].pc.SeenDone?
  {
    hide Valid, Stays, WaitInvariant, AllTrue, CacheExact, Wakes, EarliestWaits, AllReady, CanStep, Closed, FetchList,
      CanCommit, InLookups, InOrder;
    if s.sh.holder.Some? {
      HolderProceeds(s);
      step := Act(s.sh.holder.value);
    } else if !s.sh.adder.Idle? {
      AdderProceeds(p, base, s);
      step := Add;
    } else {
      step := IdleStep(p, base, s);
    }
  }

  lemma IdleStep(p: Plan, base: nat, s: State) returns (step: Step)
    requires Valid(p) && Inv(p, base, s) && s.sh.adder.Idle? && s.sh.holder == None && |s.sh.db| < |p.blocks|
    ensures Enabled(s, step) && ChainStep(p, base, s, step) && !Spins(s, step)
    ensures step.Start? ==> forall j: nat :: j < step.c ==> Closed(base, s, j)
    ensures step.Start? && InOrder(base, s) ==> forall k :: k in s.calls ==> s.calls[k].pc.SeenDone?
  {
    hide Valid, Stays, WaitInvariant, AllTrue, CacheExact, Wakes, EarliestWaits, AllReady, CanStep, FetchList,
      CanCommit;
    PlanLengths(p);
    var k := LowestUnseen(base, s, |p.blocks|);
    if k > |s.sh.db| {
      NextCommits(p, base, s);
      step := Commit(p.blocks[|s.sh.db|]);
    } else if k !in s.calls {
      step := Start(k, p.chain[k]);
      if InOrder(base, s) {
        forall x | x in s.calls
          ensures s.calls[x].pc.SeenDone?
        {
          assert CallOnChain(p, base, x, s.calls[x]);
          assert x < k && Closed(base, s, x);
        }
      }
    } else {
      CallProceeds(p, base, s, k);
      if s.sh.db == [] {
        FirstListsNothing(p, base, s);
      }
      step := Act(k);
    }
  }

  // ---------------------------------------------------------------- the work left

  /** The lists of an activation are no longer than what it was asked for. */
  ghost predicate Sized(call: Call) {
    && |call.asked| <= |FetchList(call.raw)| && |call.remaining| <= call.next
  }

  ghost predicate AllSized(s: State) {
    forall k :: k in s.calls ==> Sized(s.calls[k])
  }

  function LookupCost(pc: Pc): nat {
    match pc
    case ReadSeen => 6
    case ReadStore(_) => 5
    case ReadCache(_, _) => 4
    case LockWaiter(_, _) => 3
    case Register(_) => 2
    case _ => 0
  }

  /** The lookup will start again: the counter has moved, or the head has. */
  predicate Stale(sh: Shared, pc: Pc) {
    match pc
    case ReadStore(seen) => seen != sh.seen
    case ReadCache(seen, head) => seen != sh.seen || sh.db == [] || Head(sh.db) != head
    case LockWaiter(seen, head) => seen != sh.seen || sh.db == [] || Head(sh.db) != head
    case Register(seen) => seen != sh.seen
    case _ => false
  }

  /** What a lookup may have to repeat. */
  function Repeat(sh: Shared, pc: Pc): nat {
    (if Stale(sh, pc) then 6 else 0) + (if pc.ReadStore? && sh.db == [] then 1 else 0)
  }

  function WaitCost(pc: Pc): nat {
    match pc
    case GetEntry => 3
    case Receive(_) => 2
    case Consume => 1
    case _ => 0
  }

  function TailCost(pc: Pc): nat {
    match pc
    case Parse(_) => 6
    case Publish(_) => 5
    case Bump(_) => 4
    case StoreSeen(_) => 3
    case CloseChannels(_) => 2
    case _ => 0
  }

  /** The work left once the lookups of the call's activation are over. */
  function After(f: nat, level: nat): nat {
    if level == 0 then 9 * f + 8 else 7
  }

  /** An upper bound on the steps a call has left, for a block with f listed coins. */
  function Work(sh: Shared, f: nat, call: Call): int {
    if call.pc.CheckHeader? then After(f, call.level) + 6 * |call.asked| + 1
    else if InLookups(call.pc) then
      After(f, call.level) + 6 * (|call.asked| - call.next - 1) + LookupCost(call.pc) + Repeat(sh, call.pc)
    else if InWaits(call.pc) then
      6 * f + 8 + 3 * (|call.remaining| - call.waited - 1) + WaitCost(call.pc)
    else TailCost(call.pc)
  }

  lemma FoundWork(sh: Shared, f: nat, call: Call, coin: AccountCoin)
    requires Shaped(call) && InLookups(call.pc) && |call.asked| <= f && |call.remaining| <= call.next
    requires call.level <= 1 && (call.level == 1 ==> call.remaining == [])
    ensures Work(sh, f, Found(call, coin)) < Work(sh, f, call)
    ensures call.level == 0 ==> Work(sh, f, Missing(call)) < Work(sh, f, call)
  {
    hide CurrentCoin, Head;
  }

  lemma WokenWork(sh: Shared, f: nat, call: Call)
    requires Shaped(call) && call.pc.Consume? && |call.remaining| <= f && call.level == 0 && !call.shouldAbort
    ensures Work(sh, f, Woken(call, false)) < Work(sh, f, call)
  {
    hide Head;
  }

  lemma LookupWork(p: Plan, base: nat, s: State, k: nat)
    requires Valid(p) && Inv(p, base, s) && AllSized(s) && CanAdvance(s, k) && InLookups(s.calls[k].pc)
    ensures var f := |FetchList(s.calls[k].raw)|;
            var m := CallStep(s.sh, k, s.calls[k]);
            if Spins(s, Act(k)) then Work(s.sh, f, m.call) <= Work(s.sh, f, s.calls[k])
            else Work(s.sh, f, m.call) < Work(s.sh, f, s.calls[k])
  {
    hide Valid, EarliestWaits, Wakes, AllTrue, CacheExact, ListenersCount, TableOk, LockHeld, AllHoldEntries, Found,
      Missing, Store, RegisterWait, CurrentCoin, Available, NoneAborted, CallOnChain, Closed, OnChain, Head,
      FetchList, SnapshotMiss;
    var call := s.calls[k];
    var f := |FetchList(call.raw)|;
    assert Shaped(call) && LookupReady(p, base, s, call) && LevelReady(p, base, s, call) && Sized(call);
    var id := CurrentCoin(call);
    if call.pc.ReadStore? && s.sh.db != [] && id in Store(s.sh.db) {
      FoundWork(s.sh, f, call, Store(s.sh.db)[id]);
    } else if call.pc.ReadCache? && id in s.sh.cache {
      FoundWork(s.sh, f, call, s.sh.cache[id]);
    } else if call.pc.Register? && s.sh.seen == call.pc.startSeen {
      RegistersBeforeCount(p, base, s, k);
      FoundWork(s.sh, f, call, AccountCoin("", "", 0));
    } else if call.pc.LockWaiter? {
      LookupNeverFails(p, base, s, k);
    }
  }

  lemma WaitWork(p: Plan, base: nat, s: State, k: nat)
    requires Valid(p) && Inv(p, base, s) && AllSized(s) && CanAdvance(s, k) && InWaits(s.calls[k].pc)
    ensures var f := |FetchList(s.calls[k].raw)|;
            Work(s.sh, f, CallStep(s.sh, k, s.calls[k]).call) < Work(s.sh, f, s.calls[k])
  {
    hide Valid, EarliestWaits, Wakes, AllTrue, CacheExact, ListenersCount, TableOk, LockHeld, AllHoldEntries, Woken,
      WaitHash, Available, NoneAborted, OnChain, FetchList, Stale, Left, LookupReady;
    var call := s.calls[k];
    assert Shaped(call) && LevelReady(p, base, s, call) && Sized(call);
    if call.pc.Consume? {
      ConsumedIsAvailable(p, base, s, k);
      WokenWork(s.sh, |FetchList(call.raw)|, call);
    } else {
      WaiterHasEntry(s, k);
    }
  }

  lemma OtherWork(p: Plan, base: nat, s: State, k: nat)
    requires Valid(p) && Inv(p, base, s) && AllSized(s) && CanAdvance(s, k)
    requires !InWaits(s.calls[k].pc) && !InLookups(s.calls[k].pc)
    ensures var f := |FetchList(s.calls[k].raw)|;
            Work(s.sh, f, CallStep(s.sh, k, s.calls[k]).call) < Work(s.sh, f, s.calls[k])
  {
    hide Valid, EarliestWaits, Wakes, AllTrue, CacheExact, AllListenersCount, TableOk, LockHeld, AllHoldEntries,
      Available, NoneAborted, OnChain, FetchList, LookupReady, ParsedBlock, HeaderMatches, PublishCoins, CloseSeen,
      StepReadStore, StepReadCache, StepLockWaiter, StepRegister, StepGetEntry, StepConsume, StepCheckHeader, Head,
      Found, Missing, Woken, CurrentCoin, WaitHash, Stale;
    var call := s.calls[k];
    assert Shaped(call) && LevelReady(p, base, s, call) && Sized(call);
    if call.pc.CheckHeader? {
      HeaderWork(s.sh, |FetchList(call.raw)|, call);
    }
  }

  lemma HeaderWork(sh: Shared, f: nat, call: Call)
    requires Shaped(call) && call.pc.CheckHeader? && call.level <= 1 && |call.asked| <= f
    ensures Work(sh, f, StepCheckHeader(sh, call)) < Work(sh, f, call)
  {
    hide HeaderMatches;
  }

  lemma LoopSized(call: Call, coin: AccountCoin)
    requires Shaped(call) && Sized(call)
    ensures InLookups(call.pc) ==> Sized(Found(call, coin)) && Sized(Missing(call))
    ensures Found(call, coin).raw == call.raw && Missing(call).raw == call.raw
    ensures InWaits(call.pc) ==> Sized(Woken(call, false)) && Sized(Woken(call, true))
    ensures Woken(call, false).raw == call.raw && Woken(call, true).raw == call.raw
  {
    hide CurrentCoin, FetchList;
  }

  lemma LookupSized(sh: Shared, k: nat, call: Call)
    requires CanStep(sh, call) && Shaped(call) && Sized(call) && InLookups(call.pc)
    ensures Sized(CallStep(sh, k, call).call) && CallStep(sh, k, call).call.raw == call.raw
  {
    hide FetchList, Store, Head, RegisterWait, CurrentCoin, Found, Missing, Shaped;
    LoopSized(call, AccountCoin("", "", 0));
    if call.pc.ReadStore? && CurrentCoin(call) in Store(sh.db) {
      LoopSized(call, Store(sh.db)[CurrentCoin(call)]);
    } else if call.pc.ReadCache? && CurrentCoin(call) in sh.cache {
      LoopSized(call, sh.cache[CurrentCoin(call)]);
    }
  }

  lemma StepSized(sh: Shared, k: nat, call: Call)
    requires CanStep(sh, call) && Shaped(call) && Sized(call)
    ensures Sized(CallStep(sh, k, call).call) && CallStep(sh, k, call).call.raw == call.raw
  {
    hide FetchList, ParsedBlock, HeaderMatches, PublishCoins, CloseSeen, WaitHash, Left, Woken, StepReadStore,
      StepReadCache, StepLockWaiter, StepRegister, StepConsume, Shaped, EndLookups;
    if call.pc.Consume? {
      ConsumeSized(sh, k, call);
    } else if InLookups(call.pc) {
      LookupSized(sh, k, call);
    } else {
      LoopSized(call, AccountCoin("", "", 0));
      EndSized(call);
    }
  }

  lemma ConsumeSized(sh: Shared, k: nat, call: Call)
    requires call.pc.Consume? && Shaped(call) && Sized(call)
    ensures Sized(StepConsume(sh, k, call).call) && StepConsume(sh, k, call).call.raw == call.raw
  {
    hide FetchList, WaitHash, Left, Woken, Shaped;
    LoopSized(call, AccountCoin("", "", 0));
  }

  lemma EndSized(call: Call)
    requires Sized(call)
    ensures Sized(EndLookups(call)) && EndLookups(call).raw == call.raw
  {
    hide FetchList;
  }

  // ---------------------------------------------------------------- the measure

  /** The weight of a count or a commit: more than every other call may have to repeat. */
  function EventWeight(p: Plan): int { 7 * |p.chain| + 3 }

  /** The work left for block k; its call may not have started. */
  ghost function BlockWork(p: Plan, base: nat, s: State, k: nat): int
    requires k < |p.chain|
  {
    var f := |FetchList(p.chain[k])|;
    (if k < base then 0
     else if k in s.calls then Work(s.sh, f, s.calls[k])
     else Work(s.sh, f, NewCall(p.chain[k])) + 1)
    + if Bumped(base, s, k) then 0 else EventWeight(p)
  }

  ghost function TotalWork(p: Plan, base: nat, s: State, n: nat): int
    requires n <= |p.chain|
  {
    if n == 0 then 0 else TotalWork(p, base, s, n - 1) + BlockWork(p, base, s, n - 1)
  }

  function AdderWork(adder: Adder): nat {
    match adder
    case Idle => 0
    case Abort(_) => 1
    case Evict(_) => 2
  }

  /** All the work left before the chain is committed. */
  ghost function Measure(p: Plan, base: nat, s: State): int {
    TotalWork(p, base, s, |p.chain|) + EventWeight(p) * (|p.chain| - |s.sh.db|) + AdderWork(s.sh.adder)
  }

  /** Sums: block k gains at most own, every other block at most slack. */
  lemma {:induction false} TotalWorkChanges(p: Plan, base: nat, s: State, s': State, n: nat, k: nat, own: int,
                                            slack: nat)
    requires n <= |p.chain|
    requires forall x: nat :: x < n && x != k ==> BlockWork(p, base, s', x) <= BlockWork(p, base, s, x) + slack
    requires k < n ==> BlockWork(p, base, s', k) <= BlockWork(p, base, s, k) + own
    ensures TotalWork(p, base, s', n) <= TotalWork(p, base, s, n) + slack * n + if k < n then own else 0
  {
    hide BlockWork;
    if n > 0 {
      TotalWorkChanges(p, base, s, s', n - 1, k, own, slack);
      assert slack * n == slack * (n - 1) + slack;
    }
  }

  lemma {:induction false} TotalWorkNatural(p: Plan, base: nat, s: State, n: nat)
    requires n <= |p.chain| && AllShaped(s)
    ensures TotalWork(p, base, s, n) >= 0
  {
    hide Stale, FetchList, Head;
    if n > 0 {
      TotalWorkNatural(p, base, s, n - 1);
      assert n - 1 in s.calls ==> Shaped(s.calls[n - 1]);
    }
  }

  /** What a count or a commit may make another call repeat. */
  lemma RepeatBound(sh: Shared, sh': Shared, f: nat, call: Call)
    requires |sh'.db| >= |sh.db|
    ensures Work(sh', f, call) <= Work(sh, f, call) + 6
    ensures sh'.seen == sh.seen && sh'.db == sh.db ==> Work(sh', f, call) == Work(sh, f, call)
  {
    hide Head;
  }

  lemma OtherBlocks(p: Plan, base: nat, s: State, s': State, x: nat)
    requires x < |p.chain| && |s'.sh.db| >= |s.sh.db|
    requires x in s.calls <==> x in s'.calls
    requires x in s.calls ==> s'.calls[x] == s.calls[x]
    ensures BlockWork(p, base, s', x) <= BlockWork(p, base, s, x) + 6
    ensures s'.sh.seen == s.sh.seen && s'.sh.db == s.sh.db ==> BlockWork(p, base, s', x) == BlockWork(p, base, s, x)
  {
    hide Work, FetchList;
    var f := |FetchList(p.chain[x])|;
    if x in s.calls {
      RepeatBound(s.sh, s'.sh, f, s.calls[x]);
    } else {
      RepeatBound(s.sh, s'.sh, f, NewCall(p.chain[x]));
    }
  }

  lemma ActOthers(p: Plan, base: nat, s: State, k: nat)
    requires CanAdvance(s, k)
    ensures forall x: nat :: x < |p.chain| && x != k ==>
              BlockWork(p, base, Advance(s, k), x) <= BlockWork(p, base, s, x) + if s.calls[k].pc.Bump? then 6 else 0
  {
    hide CallStep, CanStep, BlockWork;
    ActPhases(base, s, k);
    CallKeepsStores(s.sh, k, s.calls[k]);
    forall x: nat | x < |p.chain| && x != k
      ensures BlockWork(p, base, Advance(s, k), x) <= BlockWork(p, base, s, x) + if s.calls[k].pc.Bump? then 6 else 0
    {
      OtherBlocks(p, base, s, Advance(s, k), x);
    }
  }

  lemma OwnWork(p: Plan, base: nat, s: State, k: nat)
    requires Valid(p) && Inv(p, base, s) && AllSized(s) && CanAdvance(s, k)
    ensures k < |p.chain|
    ensures BlockWork(p, base, Advance(s, k), k) <= BlockWork(p, base, s, k)
              - (if Spins(s, Act(k)) then 0 else 1) - (if s.calls[k].pc.Bump? then EventWeight(p) else 0)
  {
    hide Valid, Stays, WaitInvariant, AllTrue, CacheExact, Wakes, EarliestWaits, AllReady, CallStep, CanStep, Work,
      FetchList, Closed;
    var call := s.calls[k];
    var m := CallStep(s.sh, k, call);
    var f := |FetchList(call.raw)|;
    assert CallOnChain(p, base, k, call);
    if InLookups(call.pc) {
      LookupWork(p, base, s, k);
    } else if InWaits(call.pc) {
      WaitWork(p, base, s, k);
    } else {
      OtherWork(p, base, s, k);
    }
    ActPhases(base, s, k);
    CallKeepsStores(s.sh, k, call);
    if call.pc.Bump? {
      BumpWork(s.sh, f, k, call);
    } else {
      RepeatBound(s.sh, m.sh, f, m.call);
    }
  }

  lemma BumpWork(sh: Shared, f: nat, k: nat, call: Call)
    requires call.pc.Bump?
    ensures CallStep(sh, k, call).call.pc.StoreSeen?
    ensures Work(CallStep(sh, k, call).sh, f, CallStep(sh, k, call).call) < Work(sh, f, call)
  {
  }

  lemma ActMeasure(p: Plan, base: nat, s: State, k: nat)
    requires Valid(p) && Inv(p, base, s) && AllSized(s) && CanAdvance(s, k)
    ensures Measure(p, base, Advance(s, k)) <= Measure(p, base, s)
    ensures !Spins(s, Act(k)) ==> Measure(p, base, Advance(s, k)) < Measure(p, base, s)
  {
    hide Valid, Inv, CallStep, CanStep, BlockWork, TotalWork, AllSized;
    var s' := Advance(s, k);
    ActOthers(p, base, s, k);
    OwnWork(p, base, s, k);
    CallKeepsStores(s.sh, k, s.calls[k]);
    ActKeepsAdder(s.sh, k, s.calls[k]);
    var own := -(if Spins(s, Act(k)) then 0 else 1) - (if s.calls[k].pc.Bump? then EventWeight(p) else 0);
    var slack := if s.calls[k].pc.Bump? then 6 else 0;
    TotalWorkChanges(p, base, s, s', |p.chain|, k, own, slack);
  }

  lemma StartMeasure(p: Plan, base: nat, s: State, c: nat, raw: RawBlock)
    requires Enabled(s, Start(c, raw)) && ChainStep(p, base, s, Start(c, raw))
    ensures Measure(p, base, Apply(s, Start(c, raw))) < Measure(p, base, s)
  {
    hide Work, TotalWork, FetchList;
    var s' := Apply(s, Start(c, raw));
    StartPhases(base, s, c, raw);
    TotalWorkChanges(p, base, s, s', |p.chain|, c, -1, 0);
  }

  lemma CommitMeasure(p: Plan, base: nat, s: State, b: Block)
    requires Enabled(s, Commit(b))
    ensures Measure(p, base, Apply(s, Commit(b))) < Measure(p, base, s)
  {
    hide BlockWork, TotalWork;
    var s' := Apply(s, Commit(b));
    forall x: nat | x < |p.chain|
      ensures BlockWork(p, base, s', x) <= BlockWork(p, base, s, x) + 6
    {
      OtherBlocks(p, base, s, s', x);
    }
    TotalWorkChanges(p, base, s, s', |p.chain|, |p.chain|, 0, 6);
    CommitArithmetic(EventWeight(p), |p.chain|, |s.sh.db|);
  }

  lemma CommitArithmetic(weight: int, n: int, committed: int)
    ensures weight * (n - (committed + 1)) == weight * (n - committed) - weight
  {
  }

  lemma AddMeasure(p: Plan, base: nat, s: State)
    requires Enabled(s, Add)
    ensures Measure(p, base, Apply(s, Add)) < Measure(p, base, s)
  {
    hide BlockWork, TotalWork, BlockCoins, CloseAll, ClosesOnce, Channels;
    var s' := Apply(s, Add);
    forall x: nat | x < |p.chain|
      ensures BlockWork(p, base, s', x) <= BlockWork(p, base, s, x) + 0
    {
      OtherBlocks(p, base, s, s', x);
    }
    TotalWorkChanges(p, base, s, s', |p.chain|, |p.chain|, 0, 0);
  }

  // ---------------------------------------------------------------- main results

  /** What a run keeps for the measure to make sense. */
  ghost predicate Progressing(p: Plan, base: nat, s: State) {
    Inv(p, base, s) && AllSized(s)
  }

  lemma StepProgressing(p: Plan, base: nat, s: State, step: Step)
    requires Valid(p) && Progressing(p, base, s) && Enabled(s, step) && ChainStep(p, base, s, step)
    ensures Progressing(p, base, Apply(s, step))
  {
    hide Valid, Inv, CallStep, CanStep, Sized, CanCommit, CloseAll, ClosesOnce, Channels, BlockCoins;
    StepKeepsInv(p, base, s, step);
    if step.Act? {
      InvShapes(p, base, s);
      StepSized(s.sh, step.c, s.calls[step.c]);
    } else if step.Start? {
      NewCallSized(step.raw);
    }
  }

  lemma InvShapes(p: Plan, base: nat, s: State)
    requires Inv(p, base, s)
    ensures AllShaped(s)
  {
  }

  lemma NewCallSized(raw: RawBlock)
    ensures Sized(NewCall(raw))
  {
  }

  /** If needed coins stay stored, no step undoes progress, and every step but the sleeping lookups
      of an empty store makes some. */
  lemma MeasureDecreases(p: Plan, base: nat, s: State, step: Step)
    requires Valid(p) && Progressing(p, base, s) && Enabled(s, step) && ChainStep(p, base, s, step)
    ensures Measure(p, base, Apply(s, step)) <= Measure(p, base, s)
    ensures !Spins(s, step) ==> Measure(p, base, Apply(s, step)) < Measure(p, base, s)
    ensures Measure(p, base, s) >= 0
  {
    hide Valid, Inv, Measure, CanAdvance, Advance, CanCommit, AdvanceAdder, AllSized;
    MeasureNatural(p, base, s);
    match step {
      case Start(c, raw) => StartMeasure(p, base, s, c, raw);
      case Act(c) => ActMeasure(p, base, s, c);
      case Commit(b) => CommitMeasure(p, base, s, b);
      case Add => AddMeasure(p, base, s);
    }
  }

  lemma MeasureNatural(p: Plan, base: nat, s: State)
    requires Valid(p) && Inv(p, base, s)
    ensures Measure(p, base, s) >= 0
  {
    hide Valid, Stays, WaitInvariant, AllTrue, CacheExact, Wakes, EarliestWaits, AllReady, TotalWork, CallOnChain,
      Closed;
    PlanLengths(p);
    InvShapes(p, base, s);
    TotalWorkNatural(p, base, s, |p.chain|);
    ProductNatural(EventWeight(p), |p.chain| - |s.sh.db|);
  }

  lemma ProductNatural(a: int, b: int)
    requires a >= 0 && b >= 0
    ensures a * b >= 0
  {
  }

  lemma {:induction false} RunProgressing(p: Plan, base: nat, states: seq<State>, steps: seq<Step>, n: nat)
    requires Valid(p) && Stays(p, base) && ChainRun(p, base, states, steps) && n < |states|
    ensures Progressing(p, base, states[n])
  {
    hide Valid, Stays, Inv, Enabled, Apply, ChainStep;
    if n == 0 {
      InitialInv(p, base, states[0]);
    } else {
      RunProgressing(p, base, states, steps, n - 1);
      StepProgressing(p, base, states[n - 1], steps[n - 1]);
    }
  }

  /** Steps of a run that make progress. */
  ghost function UsefulSteps(states: seq<State>, steps: seq<Step>, n: nat): nat
    requires n <= |steps| <= |states|
  {
    if n == 0 then 0 else UsefulSteps(states, steps, n - 1) + if Spins(states[n - 1], steps[n - 1]) then 0 else 1
  }

  /** Bounded work, if needed coins stay stored: however a run is scheduled, the steps of its first n
      that make progress, and the work that is then left, are no more than the work there was at the
      start. */
  lemma {:induction false} WorkIsBounded(p: Plan, base: nat, states: seq<State>, steps: seq<Step>, n: nat)
    requires Valid(p) && Stays(p, base) && ChainRun(p, base, states, steps) && n <= |steps|
    ensures UsefulSteps(states, steps, n) + Measure(p, base, states[n]) <= Measure(p, base, states[0])
    ensures Measure(p, base, states[n]) >= 0
  {
    hide Valid, Stays, Inv, Enabled, Apply, ChainStep, Measure, Progressing, Spins, Initial;
    if n == 0 {
      RunInv(p, base, states, steps, 0);
      MeasureNatural(p, base, states[0]);
    } else {
      WorkIsBounded(p, base, states, steps, n - 1);
      RunProgressing(p, base, states, steps, n - 1);
      MeasureDecreases(p, base, states[n - 1], steps[n - 1]);
      RunInv(p, base, states, steps, n);
      MeasureNatural(p, base, states[n]);
    }
  }

  /** No deadlock, if needed coins stay stored: every state of every run can be continued, by steps
      that all make progress, until the whole chain is committed; and what is committed then is
      the sequential index of the chain. */
  lemma {:induction false} CanComplete(p: Plan, base: nat, s: State) returns (states: seq<State>, steps: seq<Step>)
    requires Valid(p) && Progressing(p, base, s)
    ensures IsRun(states, steps) && states[0] == s
    ensures forall k :: 0 <= k < |steps| ==> ChainStep(p, base, states[k], steps[k]) && !Spins(states[k], steps[k])
    ensures Complete(p, states[|steps|]) && states[|steps|].sh.db == p.blocks
    decreases Measure(p, base, s)
  {
    hide Valid, Inv, Enabled, Apply, ChainStep, Measure, AllSized, Spins;
    if Complete(p, s) {
      CompleteIsSequential(p, base, s);
      states, steps := [s], [];
    } else {
      var step := SomeStepProceeds(p, base, s);
      MeasureDecreases(p, base, s, step);
      StepProgressing(p, base, s, step);
      MeasureOfNext(p, base, Apply(s, step));
      var laterStates, laterSteps := CanComplete(p, base, Apply(s, step));
      states, steps := [s] + laterStates, [step] + laterSteps;
      forall k | 0 <= k < |steps|
        ensures Enabled(states[k], steps[k]) && states[k + 1] == Apply(states[k], steps[k])
        ensures ChainStep(p, base, states[k], steps[k]) && !Spins(states[k], steps[k])
      {
        if k > 0 {
          assert states[k] == laterStates[k - 1] && steps[k] == laterSteps[k - 1] && states[k + 1] == laterStates[k];
        }
      }
    }
  }

  lemma MeasureOfNext(p: Plan, base: nat, s: State)
    requires Valid(p) && Progressing(p, base, s)
    ensures Measure(p, base, s) >= 0
  {
    hide Valid, Inv, Measure;
    MeasureNatural(p, base, s);
  }

  lemma CompleteIsSequential(p: Plan, base: nat, s: State)
    requires Inv(p, base, s) && Complete(p, s)
    ensures s.sh.db == p.blocks
  {
    hide CallOnChain, Closed;
  }
}
