/** The invariant of PipelineChain is kept by every step of a run on a fixed chain. */
module PipelineChainSteps {
  import opened Blocks
  import opened CoinIds
  import opened BlockParser
  import opened CoinFetching
  import opened CoinLedger
  import opened UtxoLedger
  import opened SequentialIndex
  import opened Pipeline
  import opened PipelineWaits
  import opened PipelineTruth
  import opened FixedChain
  import opened PipelineChain

  // ---------------------------------------------------------------- phases

  lemma PhaseStep(sh: Shared, c: nat, call: Call)
    requires CanStep(sh, call)
    ensures var pc' := CallStep(sh, c, call).call.pc;
            && (AfterPublish(pc') <==> AfterPublish(call.pc) || call.pc.Publish?)
            && (AfterBump(pc') <==> AfterBump(call.pc) || call.pc.Bump?)
            && (pc'.SeenDone? <==> call.pc.CloseChannels?)
    ensures CallStep(sh, c, call).sh.seen == sh.seen + if call.pc.Bump? then 1 else 0
  {
    hide StepCheckHeader, StepReadStore, StepReadCache, StepGetEntry, StepParse, Missing, Woken, WaitHash, Head,
      BlockCoins, CloseAll, ClosesOnce, Channels, CurrentCoin, TransactionHash, Joined, Left, ToClose;
    if !MayWrite(call.pc) {
      StepKeepsShared(sh, c, call);
      SearchPhase(sh, c, call);
    }
  }

  lemma SearchPhase(sh: Shared, c: nat, call: Call)
    requires CanStep(sh, call) && !MayWrite(call.pc)
    ensures var pc' := CallStep(sh, c, call).call.pc;
            (AfterBump(pc') <==> call.pc.StoreSeen?) && !pc'.Bump? && !pc'.SeenDone?
  {
    hide EndLookups, Found, Head, HeaderMatches, WaitHash, CurrentCoin, Store, ParsedBlock, StepRegister,
      StepLockWaiter, StepConsume, PublishCoins, CloseSeen;
  }

  /** Phases only advance, each by its own step. */
  lemma ActPhases(base: nat, s: State, k: nat)
    requires CanAdvance(s, k)
    ensures var s' := Advance(s, k);
            && (forall i: nat ::
                  Published(base, s', i) <==> Published(base, s, i) || (i == k && s.calls[k].pc.Publish?))
            && (forall i: nat :: Bumped(base, s', i) <==> Bumped(base, s, i) || (i == k && s.calls[k].pc.Bump?))
            && (forall i: nat ::
                  Closed(base, s', i) <==> Closed(base, s, i) || (i == k && s.calls[k].pc.CloseChannels?))
            && s'.sh.seen == s.sh.seen + if s.calls[k].pc.Bump? then 1 else 0
  {
    hide CallStep, AfterPublish, AfterBump;
    PhaseStep(s.sh, k, s.calls[k]);
    assert !s.calls[k].pc.SeenDone?;
  }

  // ---------------------------------------------------------------- no call fails

  lemma HeaderAlwaysMatches(p: Plan, base: nat, s: State, k: nat)
    requires Valid(p) && OnChain(p, base, s) && k in s.calls
    ensures HeaderMatches(s.sh.db, s.calls[k].raw)
  {
    hide Indexed, SameHashSameTransaction, Truthful, Closed;
    assert CallOnChain(p, base, k, s.calls[k]);
    if s.sh.db != [] {
      BlockOf(p, |s.sh.db| - 1);
    }
  }

  /** A wait that is over was ended by BlockSeen: its entry is closed and not aborted, and the
      coin has become available. */
  lemma ConsumedIsAvailable(p: Plan, base: nat, s: State, k: nat)
    requires Valid(p) && Inv(p, base, s) && k in s.calls && s.calls[k].pc.Consume?
    ensures var call := s.calls[k];
            && call.waited < |call.remaining| && WaitHash(call) in s.sh.table && !s.sh.table[WaitHash(call)].aborted
            && s.sh.table[WaitHash(call)].channelClosed
            && Available(p, base, s, call.remaining[call.waited])
  {
    hide Valid, Stays, CacheExact, EarliestWaits, AllReady, AllTrue, OnChain, AllListenersCount, HeightsOk, LockHeld,
      HasHash, Lists;
    var call := s.calls[k];
    assert Shaped(call) && HoldsEntry(call, s.sh.table, s.sh.closed);
    var hash, id := WaitHash(call), call.remaining[call.waited];
    assert EntryChannel(s.sh.table[hash], s.sh.closed, s.sh.nextChannel);
    assert SomeClosed(p, base, s, hash);
    var i: nat :| base <= i && Closed(base, s, i) && HasHash(p, i, hash);
    SearchingNeeds(p, base, s, k, id);
    NeededHash(p, k, id);
    assert Lists(p, i, id) && Bumped(base, s, i);
  }

  lemma ParseSucceeds(p: Plan, base: nat, s: State, k: nat)
    requires Valid(p) && AllTrue(p.truth, s) && OnChain(p, base, s) && k in s.calls && s.calls[k].pc.Parse?
    ensures ParsedBlock(s.calls[k].raw, s.calls[k].pc.coins).Some?
  {
    hide Indexed, Linked, SameHashSameTransaction, Exact, TrueCoins, ParsedBlock, Truthful, Genuine;
    PlanGenuine(p, |p.blocks|);
    assert CallTrue(p.truth, s.calls[k]) && CallOnChain(p, base, k, s.calls[k]);
    assert TrueParse(p.truth, p.chain[k], p.blocks[k]);
  }

  /** No call ever fails or reports an orphaned head. */
  lemma NeverFails(p: Plan, base: nat, s: State, k: nat)
    requires Valid(p) && Inv(p, base, s) && CanAdvance(s, k)
    ensures Fine(CallStep(s.sh, k, s.calls[k]).call.pc)
  {
    hide Valid, Stays, AllTrue, CacheExact, Wakes, EarliestWaits, AllListenersCount, TableOk, LockHeld,
      AllHoldEntries, HeaderMatches, StepReadStore, StepReadCache, StepRegister, ParsedBlock, EndLookups,
      PublishCoins, CloseSeen, WaitHash, Available, Left, SnapshotMiss, StoreAt, NoneAborted;
    var call := s.calls[k];
    assert Fine(call.pc) && Shaped(call) && LookupReady(p, base, s, call) && LevelReady(p, base, s, call);
    if InLookups(call.pc) {
      LookupNeverFails(p, base, s, k);
    } else if call.pc.CheckHeader? {
      HeaderAlwaysMatches(p, base, s, k);
    } else if InWaits(call.pc) {
      WaitNeverFails(p, base, s, k);
    } else if call.pc.Parse? {
      ParseSucceeds(p, base, s, k);
    }
  }

  lemma LookupNeverFails(p: Plan, base: nat, s: State, k: nat)
    requires AllReady(p, base, s) && CanAdvance(s, k) && InLookups(s.calls[k].pc)
    ensures Fine(CallStep(s.sh, k, s.calls[k]).call.pc)
  {
    hide Found, Missing, Store, StoreAt, Head, RegisterWait, CurrentCoin, Available, Closed;
    assert LookupReady(p, base, s, s.calls[k]);
  }

  lemma WokenFine(call: Call)
    requires !call.shouldAbort
    ensures Fine(Woken(call, false).pc)
  {
  }

  lemma WaitNeverFails(p: Plan, base: nat, s: State, k: nat)
    requires Valid(p) && Inv(p, base, s) && CanAdvance(s, k) && InWaits(s.calls[k].pc)
    ensures Fine(CallStep(s.sh, k, s.calls[k]).call.pc)
  {
    hide Valid, Stays, AllTrue, CacheExact, Wakes, EarliestWaits, ListenersCount, TableOk, LockHeld, AllHoldEntries,
      Woken, WaitHash, Available, Left, LookupReady, NoneAborted, Closed;
    var call := s.calls[k];
    assert Fine(call.pc) && Shaped(call) && LevelReady(p, base, s, call);
    if call.pc.Consume? {
      ConsumedIsAvailable(p, base, s, k);
      WokenFine(call);
    } else if call.pc.GetEntry? {
      WaiterHasEntry(s, k);
    }
  }

  // ---------------------------------------------------------------- the chain and the cache

  lemma ActKeepsRaw(sh: Shared, c: nat, call: Call)
    requires CanStep(sh, call)
    ensures CallStep(sh, c, call).call.raw == call.raw
  {
    hide Missing, WaitHash, Head, RegisterWait, CurrentCoin, Found, EndLookups, ParsedBlock, HeaderMatches,
      PublishCoins, CloseSeen, Store, Left;
    ActsOnSame(call);
  }

  lemma ActsOnSame(call: Call)
    ensures forall coin :: Found(call, coin).raw == call.raw
    ensures Missing(call).raw == call.raw && EndLookups(call).raw == call.raw
    ensures forall aborted :: Woken(call, aborted).raw == call.raw
  {
    hide CurrentCoin;
  }

  lemma ActKeepsOnChain(p: Plan, base: nat, s: State, k: nat)
    requires OnChain(p, base, s) && CanAdvance(s, k)
    ensures OnChain(p, base, Advance(s, k))
  {
    hide CallStep, CanStep, Closed;
    ActKeepsRaw(s.sh, k, s.calls[k]);
    CallKeepsStores(s.sh, k, s.calls[k]);
    ActKeepsAdder(s.sh, k, s.calls[k]);
    ActPhases(base, s, k);
  }

  lemma ActKeepsAdder(sh: Shared, c: nat, call: Call)
    requires CanStep(sh, call)
    ensures CallStep(sh, c, call).sh.adder == sh.adder
  {
    hide StepCheckHeader, StepReadStore, StepReadCache, StepGetEntry, StepParse, Missing, Woken, WaitHash, Head,
      BlockCoins, CloseAll, ClosesOnce, Channels, CurrentCoin, TransactionHash, Joined, Left, ToClose;
    if !MayWrite(call.pc) {
      StepKeepsShared(sh, c, call);
    }
  }

  lemma ActKeepsCache(p: Plan, base: nat, s: State, k: nat)
    requires Valid(p) && Facts(p, base, s) && CanAdvance(s, k)
    ensures CacheExact(p, base, Advance(s, k))
  {
    hide Valid, WaitInvariant, CallStep, CanStep, Published, BlockCoins, AllTrue, OnChain;
    var s' := Advance(s, k);
    ActPhases(base, s, k);
    CallKeepsStores(s.sh, k, s.calls[k]);
    ActKeepsAdder(s.sh, k, s.calls[k]);
    assert Evicted(s'.sh) == Evicted(s.sh);
    if s.calls[k].pc.Publish? {
      PlannedBlock(p, base, s, k);
      PublishStep(s.sh, k, s.calls[k]);
      PublisherIsLater(p, base, s, k);
    }
    forall id | id in s'.sh.cache
      ensures Cacheable(p, base, s', id)
    {
      if id in s.sh.cache {
        var i: nat :| Lists(p, i, id) && Published(base, s, i) && i >= Evicted(s.sh);
        assert Published(base, s', i);
      } else {
        assert Lists(p, k, id) && Published(base, s', k);
      }
    }
    forall i: nat, id | Lists(p, i, id) && Published(base, s', i) && i >= Evicted(s'.sh)
      ensures id in s'.sh.cache || Dropped(p, base, s', id)
    {
      if Dropped(p, base, s, id) {
        assert Dropped(p, base, s', id);
      }
    }
  }

  lemma PublisherIsLater(p: Plan, base: nat, s: State, k: nat)
    requires OnChain(p, base, s) && k in s.calls && s.calls[k].pc.Publish?
    ensures k >= |s.sh.db|
  {
    assert CallOnChain(p, base, k, s.calls[k]);
    assert base <= k < |s.sh.db| ==> Closed(base, s, k);
  }

  lemma PublishStep(sh: Shared, c: nat, call: Call)
    requires call.pc.Publish?
    ensures CallStep(sh, c, call).sh.cache == sh.cache + BlockCoins(call.pc.b)
  {
  }

  // ---------------------------------------------------------------- entries

  lemma CloseStep(sh: Shared, c: nat, call: Call)
    requires call.pc.CloseChannels? && CanStep(sh, call)
    ensures var sh' := CallStep(sh, c, call).sh;
            && sh'.table.Keys == sh.table.Keys
            && forall h :: h in sh.table ==>
                 (sh'.table[h].channelClosed <==> sh.table[h].channelClosed || h in TxHashes(call.pc.b))
                 && sh'.table[h].aborted == sh.table[h].aborted
                 && sh'.table[h].earliestBlock == sh.table[h].earliestBlock
  {
    hide TxHashes, Channels, ClosesOnce;
  }

  lemma ConsumeStep(sh: Shared, c: nat, call: Call)
    requires call.pc.Consume? && CanStep(sh, call) && WaitHash(call) in sh.table
    ensures var sh' := CallStep(sh, c, call).sh;
            && sh'.table.Keys <= sh.table.Keys
            && (forall h :: h in sh'.table ==>
                  sh'.table[h].channelClosed == sh.table[h].channelClosed && sh'.table[h].aborted == sh.table[h].aborted
                  && sh'.table[h].earliestBlock == sh.table[h].earliestBlock)
  {
    hide WaitHash, Woken;
  }

  lemma RegisterStep(sh: Shared, c: nat, call: Call)
    requires call.pc.Register? && sh.seen == call.pc.startSeen
    ensures var hash := TransactionHash(CurrentCoin(call));
            var m := CallStep(sh, c, call);
            var t, t' := sh.table, m.sh.table;
            && m.call.remaining == call.remaining + [CurrentCoin(call)] && m.call.waited == call.waited
            && t'.Keys == t.Keys + {hash}
            && (forall h :: h in t && h != hash ==> t'[h] == t[h])
            && t'[hash].channelClosed == (hash in t && t[hash].channelClosed)
            && t'[hash].aborted == (hash in t && t[hash].aborted)
            && t'[hash].earliestBlock ==
                 if hash in t && t[hash].earliestBlock <= call.raw.height then t[hash].earliestBlock
                 else call.raw.height
  {
    hide TransactionHash, CurrentCoin, Missing;
  }

  /** A wait is registered only while every block with its hash is still to be counted. */
  lemma RegistersBeforeCount(p: Plan, base: nat, s: State, k: nat)
    requires Valid(p) && Inv(p, base, s) && k in s.calls && s.calls[k].pc.Register?
    requires s.sh.seen == s.calls[k].pc.startSeen
    ensures !SomeClosed(p, base, s, TransactionHash(CurrentCoin(s.calls[k])))
    ensures !Available(p, base, s, CurrentCoin(s.calls[k])) && s.calls[k].level == 0
    ensures FromRun(p, base, s.calls[k].raw.height, CurrentCoin(s.calls[k]))
  {
    hide Valid, Stays, CacheExact, EarliestWaits, Wakes, AllTrue, OnChain, AllListenersCount, TableOk, LockHeld,
      AllHoldEntries, HasHash, Lists, TransactionHash;
    var call := s.calls[k];
    var id := CurrentCoin(call);
    assert Shaped(call) && LookupReady(p, base, s, call) && LevelReady(p, base, s, call);
    SearchingNeeds(p, base, s, k, id);
    NeededHash(p, k, id);
    forall i: nat | base <= i && HasHash(p, i, TransactionHash(id))
      ensures !Closed(base, s, i)
    {
      assert Lists(p, i, id) ==> !Bumped(base, s, i);
    }
  }

  lemma TableActKeepsWakes(p: Plan, base: nat, s: State, k: nat)
    requires Valid(p) && Inv(p, base, s) && CanAdvance(s, k)
    requires s.calls[k].pc.Consume? || s.calls[k].pc.Register?
    ensures Wakes(p, base, Advance(s, k)) && NoneAborted(Advance(s, k).sh)
  {
    hide Valid, WaitInvariant, OnChain, Stays, CacheExact, EarliestWaits, AllReady, CallStep, CanStep, Closed,
      HasHash, AllTrue, TransactionHash, CurrentCoin, WaitHash;
    var s' := Advance(s, k);
    ActPhases(base, s, k);
    forall h
      ensures SomeClosed(p, base, s', h) <==> SomeClosed(p, base, s, h)
    {
    }
    if s.calls[k].pc.Consume? {
      ConsumedIsAvailable(p, base, s, k);
      ConsumeStep(s.sh, k, s.calls[k]);
    } else if s.sh.seen == s.calls[k].pc.startSeen {
      RegistersBeforeCount(p, base, s, k);
      RegisterStep(s.sh, k, s.calls[k]);
    } else {
      RetryStep(s.sh, k, s.calls[k]);
    }
  }

  lemma RetryStep(sh: Shared, c: nat, call: Call)
    requires call.pc.Register? && sh.seen != call.pc.startSeen
    ensures SameTable(sh, CallStep(sh, c, call).sh)
    ensures CallStep(sh, c, call).call == call.(pc := ReadSeen)
  {
  }

  lemma ActKeepsWakes(p: Plan, base: nat, s: State, k: nat)
    requires Valid(p) && Inv(p, base, s) && CanAdvance(s, k)
    ensures Wakes(p, base, Advance(s, k)) && NoneAborted(Advance(s, k).sh)
  {
    hide Valid, WaitInvariant, OnChain, Stays, CacheExact, EarliestWaits, AllReady, CallStep, CanStep, Closed,
      AllTrue, TxHashes;
    var s' := Advance(s, k);
    ActPhases(base, s, k);
    if s.calls[k].pc.Consume? || s.calls[k].pc.Register? {
      TableActKeepsWakes(p, base, s, k);
    } else if s.calls[k].pc.CloseChannels? {
      PlannedBlock(p, base, s, k);
      CloseStep(s.sh, k, s.calls[k]);
      forall h | h in s'.sh.table
        ensures SomeClosed(p, base, s', h) <==> SomeClosed(p, base, s, h) || h in TxHashes(s.calls[k].pc.b)
      {
        if h in TxHashes(s.calls[k].pc.b) {
          assert Closed(base, s', k) && HasHash(p, k, h);
        }
        if SomeClosed(p, base, s, h) {
          var i: nat :| base <= i && Closed(base, s, i) && HasHash(p, i, h);
          assert Closed(base, s', i);
        }
      }
    } else {
      StepKeepsTable(s.sh, k, s.calls[k]);
      forall h
        ensures SomeClosed(p, base, s', h) <==> SomeClosed(p, base, s, h)
      {
      }
    }
  }

  // ---------------------------------------------------------------- the earliest waiter

  lemma RegisterKeepsEarliest(p: Plan, base: nat, s: State, k: nat)
    requires Inv(p, base, s) && CanAdvance(s, k) && s.calls[k].pc.Register? && s.sh.seen == s.calls[k].pc.startSeen
    requires Valid(p)
    ensures EarliestWaits(Advance(s, k))
  {
    hide Valid, Stays, AllTrue, CacheExact, AllReady, Wakes, CallStep, CanStep, Waits, TransactionHash, CurrentCoin,
      AllListenersCount, TableOk, LockHeld, AllHoldEntries, Closed;
    var s' := Advance(s, k);
    var call := s.calls[k];
    assert Shaped(call) && CallOnChain(p, base, k, call);
    ChainHeight(p, k);
    RegisterStep(s.sh, k, call);
    var coin := CurrentCoin(call);
    forall h | h in s'.sh.table && !s'.sh.table[h].channelClosed
      ensures EarliestWaiter(s', h, s'.sh.table[h].earliestBlock)
    {
      RegisteredWaits(s, k, s'.calls[k], s'.sh, coin, h);
      assert h in s.sh.table && !s.sh.table[h].channelClosed ==> EarliestWaiter(s, h, s.sh.table[h].earliestBlock);
      if h == TransactionHash(coin) {
        assert (k, |call.remaining|) in Waits(s', h);
      }
      if h in s.sh.table && s'.sh.table[h].earliestBlock == s.sh.table[h].earliestBlock {
        var w :| w in Waits(s, h) && w.0 == s.sh.table[h].earliestBlock;
        assert w in Waits(s', h);
      }
    }
  }

  lemma ConsumeKeepsEarliest(p: Plan, base: nat, s: State, k: nat)
    requires Valid(p) && Inv(p, base, s) && CanAdvance(s, k) && s.calls[k].pc.Consume?
    ensures EarliestWaits(Advance(s, k))
  {
    hide Valid, Stays, AllTrue, CacheExact, OnChain, AllReady, Wakes, CanStep, Waits, TransactionHash, WaitHash,
      AllListenersCount, TableOk, LockHeld, AllHoldEntries, Woken, Left;
    var s' := Advance(s, k);
    var call := s.calls[k];
    assert Shaped(call);
    ConsumedIsAvailable(p, base, s, k);
    ConsumeStep(s.sh, k, call);
    WokenWaits(call, s.sh.table[WaitHash(call)].aborted);
    forall h | h in s'.sh.table && !s'.sh.table[h].channelClosed
      ensures EarliestWaiter(s', h, s'.sh.table[h].earliestBlock)
    {
      ConsumedWaits(s, k, s'.calls[k], s'.sh, h);
      assert EarliestWaiter(s, h, s.sh.table[h].earliestBlock);
      var w :| w in Waits(s, h) && w.0 == s.sh.table[h].earliestBlock;
      assert w in Waits(s', h);
    }
  }

  /** Steps that leave every call's waits alone, and close entries at most. */
  lemma SameWaitsEarliest(s: State, s': State)
    requires EarliestWaits(s)
    requires forall x, i, hash :: IsWait(s, x, i, hash) <==> IsWait(s', x, i, hash)
    requires s'.sh.table.Keys <= s.sh.table.Keys
    requires forall h :: h in s'.sh.table && !s'.sh.table[h].channelClosed ==>
               !s.sh.table[h].channelClosed && s'.sh.table[h].earliestBlock == s.sh.table[h].earliestBlock
    ensures EarliestWaits(s')
  {
    hide TransactionHash;
    forall h | h in s'.sh.table && !s'.sh.table[h].channelClosed
      ensures EarliestWaiter(s', h, s'.sh.table[h].earliestBlock)
    {
      assert EarliestWaiter(s, h, s.sh.table[h].earliestBlock);
      var w :| w in Waits(s, h) && w.0 == s.sh.table[h].earliestBlock;
      assert IsWait(s, w.0, w.1, h);
      assert w in Waits(s', h);
    }
  }

  lemma ActKeepsEarliest(p: Plan, base: nat, s: State, k: nat)
    requires Valid(p) && Inv(p, base, s) && CanAdvance(s, k)
    ensures EarliestWaits(Advance(s, k))
  {
    hide AllTrue, Stays, CacheExact, OnChain, AllReady, Wakes, CallStep, CanStep, IsWait, WaitInvariant,
      EarliestWaits, Indexed, Linked, SameHashSameTransaction, Truthful, Stays;
    var s' := Advance(s, k);
    var call := s.calls[k];
    if call.pc.Register? && s.sh.seen == call.pc.startSeen {
      RegisterKeepsEarliest(p, base, s, k);
    } else if call.pc.Consume? {
      ConsumeKeepsEarliest(p, base, s, k);
    } else {
      if call.pc.Register? {
        RetryStep(s.sh, k, call);
      } else {
        StepKeepsWaits(s.sh, k, call);
        if call.pc.CloseChannels? {
          CloseStep(s.sh, k, call);
        } else {
          StepKeepsTable(s.sh, k, call);
        }
      }
      SetCallKeepsWaits(s, k, s'.calls[k], s'.sh);
      SameWaitsEarliest(s, s');
    }
  }

  // ---------------------------------------------------------------- readiness

  /** Other calls are as ready as before: a count only spoils the counters they have read. */
  lemma OthersStayReady(p: Plan, base: nat, s: State, s': State, call: Call)
    requires LookupReady(p, base, s, call) && LevelReady(p, base, s, call)
    requires s'.sh.seen >= s.sh.seen && |s'.sh.db| >= |s.sh.db| && |s'.sh.db| <= |p.blocks|
    requires forall i: nat :: Bumped(base, s, i) ==> Bumped(base, s', i)
    requires s'.sh.seen == s.sh.seen ==> forall i: nat :: Bumped(base, s', i) ==> Bumped(base, s, i)
    ensures LookupReady(p, base, s', call) && LevelReady(p, base, s', call)
  {
    hide Bumped, Lists, StoreAt, CurrentCoin, FromRun;
  }

  /** After a lookup the call reads the counter anew, returns, or waits. */
  lemma FoundReady(p: Plan, base: nat, s: State, call: Call, coin: AccountCoin)
    requires LevelReady(p, base, s, call) && InLookups(call.pc) && Shaped(call)
    ensures LookupReady(p, base, s, Found(call, coin)) && LevelReady(p, base, s, Found(call, coin))
  {
    hide Available, StoreAt, CurrentCoin, FromRun;
  }

  lemma MissingReady(p: Plan, base: nat, s: State, call: Call)
    requires LevelReady(p, base, s, call) && InLookups(call.pc) && Shaped(call) && call.level == 0
    requires FromRun(p, base, call.raw.height, CurrentCoin(call))
    ensures LookupReady(p, base, s, Missing(call)) && LevelReady(p, base, s, Missing(call))
  {
    hide Available, StoreAt, CurrentCoin, FromRun;
  }

  lemma WokenReady(p: Plan, base: nat, s: State, call: Call)
    requires LevelReady(p, base, s, call) && InWaits(call.pc) && Shaped(call)
    requires Available(p, base, s, call.remaining[call.waited])
    ensures LookupReady(p, base, s, Woken(call, false)) && LevelReady(p, base, s, Woken(call, false))
  {
    hide Available, StoreAt, CurrentCoin, FromRun;
    forall id | id in call.remaining && call.waited + 1 == |call.remaining|
      ensures Available(p, base, s, id)
    {
    }
  }

  /** A coin missed in the snapshot and then in the cache: if a block listing it has been
      counted, the coin was moved to the store in the meantime, so the head has moved. */
  lemma CacheMissReady(p: Plan, base: nat, s: State, k: nat)
    requires Inv(p, base, s) && k in s.calls && s.calls[k].pc.ReadCache? && CurrentCoin(s.calls[k]) !in s.sh.cache
    requires Available(p, base, s, CurrentCoin(s.calls[k]))
    ensures s.calls[k].pc.head.index + 1 < |s.sh.db|
  {
    hide EarliestWaits, Wakes, AllTrue, AllListenersCount, TableOk, LockHeld, AllHoldEntries, Lists, Store,
      CallOnChain, Stays, CacheExact, Needs, FromRun;
    var call := s.calls[k];
    var id := CurrentCoin(call);
    assert Shaped(call) && LookupReady(p, base, s, call);
    SearchingNeeds(p, base, s, k, id);
    var i: nat :| base <= i && Lists(p, i, id) && Bumped(base, s, i);
    HandOff(p, base, s, k, i, id);
  }

  /** A coin that was not in a snapshot, and is needed, comes from a block of this run. */
  lemma MissIsFromRun(p: Plan, base: nat, s: State, k: nat)
    requires Valid(p) && Inv(p, base, s) && k in s.calls && s.calls[k].pc.LockWaiter?
    ensures FromRun(p, base, s.calls[k].raw.height, CurrentCoin(s.calls[k]))
  {
    hide Valid, EarliestWaits, Wakes, AllTrue, AllListenersCount, TableOk, LockHeld, AllHoldEntries, Lists, StoreAt,
      Stays, CacheExact, Closed, Available;
    var call := s.calls[k];
    var id := CurrentCoin(call);
    assert Shaped(call) && LookupReady(p, base, s, call) && CallOnChain(p, base, k, call);
    SearchingNeeds(p, base, s, k, id);
    PlanLengths(p);
    NeededIsStored(p, k, id);
    ChainHeight(p, k);
    MissedIsListed(p, call.pc.head.index + 1, k, id);
  }

  lemma LookupKeepsReady(p: Plan, base: nat, s: State, k: nat)
    requires Valid(p) && Inv(p, base, s) && CanAdvance(s, k) && InLookups(s.calls[k].pc)
    ensures var call' := CallStep(s.sh, k, s.calls[k]).call;
            LevelReady(p, base, s, call') && LookupReady(p, base, s, call')
  {
    hide Valid, EarliestWaits, Wakes, AllTrue, Stays, CacheExact, ListenersCount, TableOk, LockHeld, AllHoldEntries,
      Found, Missing, Store, RegisterWait, Available, NoneAborted, CallOnChain, Closed;
    var call := s.calls[k];
    var id := CurrentCoin(call);
    assert Shaped(call) && LookupReady(p, base, s, call) && LevelReady(p, base, s, call);
    if call.pc.ReadStore? && s.sh.db != [] && id in Store(s.sh.db) {
      FoundReady(p, base, s, call, Store(s.sh.db)[id]);
    } else if call.pc.ReadCache? {
      if id in s.sh.cache {
        FoundReady(p, base, s, call, s.sh.cache[id]);
      } else if Available(p, base, s, id) {
        CacheMissReady(p, base, s, k);
      }
    } else if call.pc.Register? && s.sh.seen == call.pc.startSeen {
      RegistersBeforeCount(p, base, s, k);
      MissingReady(p, base, s, call);
    } else if call.pc.ReadStore? && s.sh.db != [] {
      SnapshotTaken(p, base, s, id);
    } else if call.pc.LockWaiter? && s.sh.db != [] {
      HeadIndex(p, base, s);
      MissIsFromRun(p, base, s, k);
    }
  }

  lemma HeadIndex(p: Plan, base: nat, s: State)
    requires Valid(p) && OnChain(p, base, s) && s.sh.db != []
    ensures Head(s.sh.db).index == |s.sh.db| - 1
  {
    hide Indexed, SameHashSameTransaction, Truthful, Closed, CallOnChain;
    BlockOf(p, |s.sh.db| - 1);
  }

  lemma SnapshotTaken(p: Plan, base: nat, s: State, id: string)
    requires Valid(p) && OnChain(p, base, s) && s.sh.db != [] && id !in Store(s.sh.db)
    ensures SnapshotMiss(p, base, s.sh, Head(s.sh.db), id)
  {
    hide Indexed, SameHashSameTransaction, Truthful, Closed, CallOnChain, Store;
    BlockOf(p, |s.sh.db| - 1);
  }

  lemma WaitKeepsReady(p: Plan, base: nat, s: State, k: nat)
    requires Valid(p) && Inv(p, base, s) && CanAdvance(s, k) && InWaits(s.calls[k].pc)
    ensures var call' := CallStep(s.sh, k, s.calls[k]).call;
            LevelReady(p, base, s, call') && LookupReady(p, base, s, call')
  {
    hide Valid, EarliestWaits, Wakes, AllTrue, Stays, CacheExact, ListenersCount, TableOk, LockHeld, AllHoldEntries,
      Woken, CurrentCoin, Available, NoneAborted, OnChain, WaitHash, Left;
    var call := s.calls[k];
    assert Shaped(call) && LookupReady(p, base, s, call) && LevelReady(p, base, s, call);
    if call.pc.Consume? {
      ConsumedIsAvailable(p, base, s, k);
      WokenReady(p, base, s, call);
    }
  }

  lemma OtherKeepsReady(p: Plan, base: nat, s: State, k: nat)
    requires Inv(p, base, s) && CanAdvance(s, k) && !InLookups(s.calls[k].pc) && !InWaits(s.calls[k].pc)
    ensures var call' := CallStep(s.sh, k, s.calls[k]).call;
            LevelReady(p, base, s, call') && LookupReady(p, base, s, call')
  {
    hide EarliestWaits, Wakes, AllTrue, Stays, CacheExact, ListenersCount, TableOk, LockHeld, AllHoldEntries,
      CurrentCoin, Available, NoneAborted, OnChain, HeaderMatches, ParsedBlock, PublishCoins, CloseSeen,
      StepReadStore, StepReadCache, StepLockWaiter, StepRegister, StepGetEntry, StepConsume, SnapshotMiss;
    var call := s.calls[k];
    assert Shaped(call) && LookupReady(p, base, s, call) && LevelReady(p, base, s, call);
  }

  lemma ActKeepsReady(p: Plan, base: nat, s: State, k: nat)
    requires Valid(p) && Inv(p, base, s) && CanAdvance(s, k)
    ensures AllReady(p, base, Advance(s, k))
  {
    hide Valid, WaitInvariant, EarliestWaits, Wakes, AllTrue, Stays, CacheExact, CallStep, CanStep, LookupReady,
      LevelReady, Bumped, CallOnChain, Closed;
    var s' := Advance(s, k);
    if InLookups(s.calls[k].pc) {
      LookupKeepsReady(p, base, s, k);
    } else if InWaits(s.calls[k].pc) {
      WaitKeepsReady(p, base, s, k);
    } else {
      OtherKeepsReady(p, base, s, k);
    }
    ActPhases(base, s, k);
    CallKeepsStores(s.sh, k, s.calls[k]);
    forall x | x in s'.calls
      ensures LookupReady(p, base, s', s'.calls[x]) && LevelReady(p, base, s', s'.calls[x])
    {
      OthersStayReady(p, base, s, s', s'.calls[x]);
    }
  }

  lemma ActKeepsFacts(p: Plan, base: nat, s: State, k: nat)
    requires Valid(p) && Facts(p, base, s) && CanAdvance(s, k)
    ensures Facts(p, base, Advance(s, k))
  {
    hide Valid, WaitInvariant, AllTrue, OnChain, CacheExact, Advance, CanAdvance;
    ActKeepsWaits(s, k);
    InvariantShapes(s);
    StepKeepsTruth(p.truth, s, Act(k));
    ActKeepsOnChain(p, base, s, k);
    ActKeepsCache(p, base, s, k);
  }

  lemma ActKeepsFine(p: Plan, base: nat, s: State, k: nat)
    requires Valid(p) && Inv(p, base, s) && CanAdvance(s, k)
    ensures AllFine(Advance(s, k))
  {
    hide Valid, Stays, Facts, Wakes, NoneAborted, EarliestWaits, AllReady, CanAdvance, Fine, CallStep;
    NeverFails(p, base, s, k);
  }

  lemma ActKeepsInv(p: Plan, base: nat, s: State, k: nat)
    requires Valid(p) && Inv(p, base, s) && CanAdvance(s, k)
    ensures Inv(p, base, Advance(s, k))
  {
    hide Valid, Stays, Facts, AllFine, Wakes, NoneAborted, EarliestWaits, AllReady, Advance, CanAdvance;
    ActKeepsFacts(p, base, s, k);
    ActKeepsFine(p, base, s, k);
    ActKeepsWakes(p, base, s, k);
    ActKeepsEarliest(p, base, s, k);
    ActKeepsReady(p, base, s, k);
  }

  // ---------------------------------------------------------------- the syncer's steps

  lemma StartPhases(base: nat, s: State, c: nat, raw: RawBlock)
    requires Enabled(s, Start(c, raw))
    ensures var s' := Apply(s, Start(c, raw));
            && (forall i: nat :: Published(base, s', i) <==> Published(base, s, i))
            && (forall i: nat :: Bumped(base, s', i) <==> Bumped(base, s, i))
            && (forall i: nat :: Closed(base, s', i) <==> Closed(base, s, i))
  {
    hide FetchList;
  }

  /** The block committed is the next one of the chain. */
  lemma CommitsNext(p: Plan, base: nat, s: State, b: Block)
    requires Valid(p) && AllTrue(p.truth, s) && OnChain(p, base, s)
    requires Enabled(s, Commit(b)) && ChainStep(p, base, s, Commit(b))
    ensures |s.sh.db| < |p.blocks| && b == p.blocks[|s.sh.db|] && Closed(base, s, |s.sh.db|)
  {
    hide Valid, AllTrue, OnChain, Head;
    var c :| c in s.calls && s.calls[c].pc == SeenDone(b);
    PlannedBlock(p, base, s, c);
    PlanLengths(p);
    BlockOf(p, c);
    if s.sh.db != [] {
      HeadIndex(p, base, s);
    } else {
      BlockOf(p, 0);
    }
  }

  lemma CommitOnChain(p: Plan, base: nat, s: State, b: Block)
    requires Valid(p) && Facts(p, base, s) && Enabled(s, Commit(b)) && ChainStep(p, base, s, Commit(b))
    ensures OnChain(p, base, Apply(s, Commit(b)))
  {
    hide Valid, WaitInvariant, AllTrue, CacheExact, CanCommit, CallOnChain, ChainStep;
    var s' := Apply(s, Commit(b));
    var n := |s.sh.db|;
    CommitsNext(p, base, s, b);
    assert s'.sh.db == p.blocks[..n + 1];
    forall k: nat | base <= k < |s'.sh.db|
      ensures Closed(base, s', k)
    {
      assert Closed(base, s, k);
    }
  }

  lemma SameCallsPhases(base: nat, s: State, s': State)
    requires s'.calls == s.calls
    ensures forall i: nat :: Published(base, s', i) <==> Published(base, s, i)
    ensures forall i: nat :: Bumped(base, s', i) <==> Bumped(base, s, i)
    ensures forall i: nat :: Closed(base, s', i) <==> Closed(base, s, i)
  {
  }

  /** A step that neither publishes nor evicts leaves the cache as exact as it was. */
  lemma SameCache(p: Plan, base: nat, s: State, s': State)
    requires CacheExact(p, base, s) && s'.sh.cache == s.sh.cache && Evicted(s'.sh) == Evicted(s.sh)
    requires forall i: nat :: Published(base, s', i) <==> Published(base, s, i)
    ensures CacheExact(p, base, s')
  {
    hide Published, Lists, Evicted;
    forall id | id in s'.sh.cache
      ensures Cacheable(p, base, s', id)
    {
      assert Cacheable(p, base, s, id);
    }
    forall id
      ensures Dropped(p, base, s, id) ==> Dropped(p, base, s', id)
    {
    }
  }

  /** Evicting the coins of the block just committed. */
  lemma EvictKeepsCache(p: Plan, base: nat, s: State)
    requires OnChain(p, base, s) && CacheExact(p, base, s) && s.sh.adder.Evict?
    ensures CacheExact(p, base, Apply(s, Add))
  {
    hide CallOnChain, Closed, Published, BlockCoins;
    var s' := Apply(s, Add);
    var n := |s.sh.db| - 1;
    assert Evicted(s.sh) == n && Evicted(s'.sh) == n + 1;
    SameCallsPhases(base, s, s');
    forall id | id in s'.sh.cache
      ensures Cacheable(p, base, s', id)
    {
      var i: nat :| Lists(p, i, id) && Published(base, s, i) && i >= n;
      assert i != n;
      assert Published(base, s', i);
    }
    forall i: nat, id | Lists(p, i, id) && Published(base, s', i) && i >= n + 1
      ensures id in s'.sh.cache || Dropped(p, base, s', id)
    {
      if id in s.sh.cache {
        assert Lists(p, n, id) ==> Dropped(p, base, s', id);
      } else {
        assert Dropped(p, base, s, id);
        var j: nat :| base <= j < n && Lists(p, j, id);
        assert Dropped(p, base, s', id);
      }
    }
  }

  lemma AddOnChain(p: Plan, base: nat, s: State)
    requires OnChain(p, base, s) && CanAdvanceAdder(s.sh)
    ensures OnChain(p, base, Apply(s, Add))
  {
    hide CallOnChain, Closed, BlockCoins, CloseAll, Channels, ClosesOnce;
    SameCallsPhases(base, s, Apply(s, Add));
  }

  lemma StartOnChain(p: Plan, base: nat, s: State, c: nat, raw: RawBlock)
    requires OnChain(p, base, s) && Enabled(s, Start(c, raw)) && ChainStep(p, base, s, Start(c, raw))
    ensures OnChain(p, base, Apply(s, Start(c, raw)))
  {
    hide Closed, FetchList;
    StartPhases(base, s, c, raw);
  }

  /** Every step of every run keeps the facts. */
  lemma StepKeepsFacts(p: Plan, base: nat, s: State, step: Step)
    requires Valid(p) && Facts(p, base, s) && Enabled(s, step) && ChainStep(p, base, s, step)
    ensures Facts(p, base, Apply(s, step))
  {
    hide Valid, WaitInvariant, AllTrue, OnChain, CacheExact, CanAdvance, Advance, BlockCoins, CloseAll, Channels,
      ClosesOnce, FetchList, ToAbort;
    if step.Act? {
      ActKeepsFacts(p, base, s, step.c);
      return;
    }
    StepIsTruthful(p, base, s, step);
    StepKeepsWaitInvariant(s, step);
    InvariantShapes(s);
    StepKeepsTruth(p.truth, s, step);
    var s' := Apply(s, step);
    match step {
      case Start(c, raw) =>
        StartOnChain(p, base, s, c, raw);
        StartPhases(base, s, c, raw);
        SameCache(p, base, s, s');
      case Commit(b) =>
        CommitOnChain(p, base, s, b);
        SameCallsPhases(base, s, s');
        SameCache(p, base, s, s');
      case Add =>
        AddOnChain(p, base, s);
        if s.sh.adder.Evict? {
          EvictKeepsCache(p, base, s);
        } else {
          SameCallsPhases(base, s, s');
          SameCache(p, base, s, s');
        }
    }
  }

  lemma StepIsTruthful(p: Plan, base: nat, s: State, step: Step)
    requires Valid(p) && ChainStep(p, base, s, step)
    ensures TruthfulStep(p.truth, step)
  {
    hide Indexed, Linked, SameHashSameTransaction, Truthful;
  }

  /** Steps of the syncer leave the calls, and every entry, as ready as they were. */
  lemma SameEntriesInv(p: Plan, base: nat, s: State, s': State)
    requires Inv(p, base, s) && Facts(p, base, s') && s'.calls == s.calls && s'.sh.table == s.sh.table
    requires s'.sh.seen == s.sh.seen && |s.sh.db| <= |s'.sh.db|
    ensures Inv(p, base, s')
  {
    hide Stays, WaitInvariant, AllTrue, CacheExact, LookupReady, LevelReady, HasHash, EarliestWaits, CallOnChain;
    SameCallsPhases(base, s, s');
    SameCallsEarliest(s, s');
    forall x | x in s'.calls
      ensures LookupReady(p, base, s', s'.calls[x]) && LevelReady(p, base, s', s'.calls[x])
    {
      OthersStayReady(p, base, s, s', s.calls[x]);
    }
  }

  lemma SameCallsEarliest(s: State, s': State)
    requires EarliestWaits(s) && s'.calls == s.calls
    requires s'.sh.table.Keys <= s.sh.table.Keys
    requires forall h :: h in s'.sh.table && !s'.sh.table[h].channelClosed ==>
               !s.sh.table[h].channelClosed && s'.sh.table[h].earliestBlock == s.sh.table[h].earliestBlock
    ensures EarliestWaits(s')
  {
    hide EarliestWaits, TransactionHash;
    assert forall x, i, hash :: IsWait(s, x, i, hash) <==> IsWait(s', x, i, hash);
    SameWaitsEarliest(s, s');
  }

  lemma StartEarliest(s: State, c: nat, raw: RawBlock)
    requires Enabled(s, Start(c, raw)) && EarliestWaits(s)
    ensures EarliestWaits(Apply(s, Start(c, raw)))
  {
    hide FetchList, EarliestWaits, TransactionHash;
    var s' := Apply(s, Start(c, raw));
    assert forall x, i, hash :: IsWait(s, x, i, hash) <==> IsWait(s', x, i, hash);
    SameWaitsEarliest(s, s');
  }

  lemma NewCallReady(p: Plan, base: nat, s: State, raw: RawBlock)
    ensures LookupReady(p, base, s, NewCall(raw)) && LevelReady(p, base, s, NewCall(raw))
  {
    hide FetchList, Available;
  }

  lemma StartKeepsInv(p: Plan, base: nat, s: State, c: nat, raw: RawBlock)
    requires Valid(p) && Inv(p, base, s) && Enabled(s, Start(c, raw)) && ChainStep(p, base, s, Start(c, raw))
    ensures Inv(p, base, Apply(s, Start(c, raw)))
  {
    hide Valid, Stays, WaitInvariant, AllTrue, CacheExact, HasHash, LookupReady, LevelReady, FetchList, EarliestWaits,
      IsWait;
    var s' := Apply(s, Start(c, raw));
    StepKeepsFacts(p, base, s, Start(c, raw));
    StartPhases(base, s, c, raw);
    StartEarliest(s, c, raw);
    forall x | x in s'.calls
      ensures LookupReady(p, base, s', s'.calls[x]) && LevelReady(p, base, s', s'.calls[x])
    {
      if x == c {
        NewCallReady(p, base, s', raw);
      } else {
        OthersStayReady(p, base, s, s', s.calls[x]);
      }
    }
  }

  /** The abort pass of a fixed chain does nothing but end. */
  lemma AbortDoesNothing(p: Plan, base: nat, s: State)
    requires Valid(p) && Inv(p, base, s) && Enabled(s, Add) && s.sh.adder.Abort?
    ensures Apply(s, Add) == s.(sh := s.sh.(adder := Idle))
  {
    hide Valid, Stays, WaitInvariant, AllTrue, CacheExact, Wakes, NoneAborted, EarliestWaits, AllReady, CallOnChain,
      Closed;
    PlanLengths(p);
    BlockOf(p, |s.sh.db| - 1);
    NothingToAbort(p, base, s);
    assert CloseAll(s.sh.table, {}, true) == s.sh.table;
    assert Channels(s.sh.table, {}) == {};
  }

  /** Every step of a run keeps the invariant. */
  lemma StepKeepsInv(p: Plan, base: nat, s: State, step: Step)
    requires Valid(p) && Inv(p, base, s) && Enabled(s, step) && ChainStep(p, base, s, step)
    ensures Inv(p, base, Apply(s, step))
  {
    hide Valid, Stays, Facts, AllFine, Wakes, NoneAborted, EarliestWaits, AllReady, Advance, CanAdvance, CanCommit,
      BlockCoins, CloseAll, Channels, ClosesOnce, ToAbort;
    match step {
      case Start(c, raw) => StartKeepsInv(p, base, s, c, raw);
      case Act(c) => ActKeepsInv(p, base, s, c);
      case Commit(b) =>
        StepKeepsFacts(p, base, s, step);
        SameEntriesInv(p, base, s, Apply(s, step));
      case Add =>
        StepKeepsFacts(p, base, s, step);
        if s.sh.adder.Abort? {
          AbortDoesNothing(p, base, s);
        }
        SameEntriesInv(p, base, s, Apply(s, step));
    }
  }

  /** Once the block after the head has been seen it can be committed. */
  lemma NextCommits(p: Plan, base: nat, s: State)
    requires Valid(p) && Facts(p, base, s) && s.sh.adder.Idle? && |s.sh.db| < |p.blocks| && Closed(base, s, |s.sh.db|)
    ensures var step := Commit(p.blocks[|s.sh.db|]);
            Enabled(s, step) && ChainStep(p, base, s, step)
  {
    hide Valid, WaitInvariant, CacheExact, AllTrue, OnChain, Head;
    var n := |s.sh.db|;
    BaseBelow(p, base, s);
    PlanLengths(p);
    PlannedBlock(p, base, s, n);
    assert s.calls[n].pc == SeenDone(p.blocks[n]);
    BlockOf(p, n);
    if n > 0 {
      BlockOf(p, n - 1);
      HeadIs(p, base, s);
    }
  }

  lemma HeadIs(p: Plan, base: nat, s: State)
    requires OnChain(p, base, s) && s.sh.db != []
    ensures Head(s.sh.db) == p.blocks[|s.sh.db| - 1].id
  {
    hide CallOnChain, Closed;
  }

  lemma BaseBelow(p: Plan, base: nat, s: State)
    requires OnChain(p, base, s)
    ensures base <= |s.sh.db|
  {
  }
}
