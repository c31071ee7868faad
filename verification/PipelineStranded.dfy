/**
 Why the abort pass needs its hypothesis: a run, without reorganisations, failures or early
 returns, that ends with a stranded wait. A search starts at height 3 while the head is at 1,
 stands still while block 2 is added and its abort pass goes by, and then registers a wait at
 the height after the head. From then on no abort pass ends the wait: only a block with the
 transaction, seen after all, or a removal of blocks can.
 */
module PipelineStranded {
  import opened Wrappers
  import opened Blocks
  import opened CoinIds
  import opened BlockParser
  import opened CoinFetching
  import opened CoinLedger
  import opened Pipeline
  import opened PipelineWaits
  import opened PipelineTruth
  import opened PipelineAborts
  import opened PipelineRuns
  import opened PipelineChainSteps

  const HEAD: Block := Block(BlockId("b1", 1), BlockId("b0", 0), 0, [])
  const NEXT: RawBlock := RawBlock("b2", 2, "b1", 0, [])
  const ADDED: Block := Block(BlockId("b2", 2), BlockId("b1", 1), 0, [])
  const LATE: RawBlock :=
    RawBlock("b3", 3, "other", 0, [RawTransaction("t", [Input("x", 0, "", "", 0, [])], [])])

  /** Shared state in which nobody waits. */
  function Calm(db: seq<Block>, seen: nat, adder: Adder): Shared {
    Shared(db, map[], seen, map[], {}, 0, None, adder, false, map[])
  }

  lemma LateListsOne()
    ensures |FetchList(LATE)| == 1
  {
    hide InputId;
    assert Listed(LATE, 0, 0);
    assert TxFetchList(LATE, 0, 0) == [];
    assert TxFetchList(LATE, 0, 1) == [InputId(LATE.txs[0].inputs[0])];
    assert FetchPrefix(LATE, 0) == [];
    assert FetchPrefix(LATE, 1) == TxFetchList(LATE, 0, 1);
  }

  lemma NextListsNothing()
    ensures FetchList(NEXT) == [] && ParsedBlock(NEXT, map[]) == Some(ADDED)
  {
  }

  function Search(): Call { NewCall(LATE).(pc := ReadSeen) }

  lemma SearchStarts(s: State)
    requires s == State(Calm([HEAD], 0, Idle), map[])
    ensures Leads(s, State(Calm([HEAD], 0, Idle), map[0 := Search()]))
  {
    hide FetchList, IsRun;
    LateListsOne();
    LeadsNowhere(s);
    var s1 := Apply(s, Start(0, LATE));
    LeadsOn(s, s, Start(0, LATE));
    assert s1 == State(s.sh, map[0 := NewCall(LATE)]);
    LeadsOn(s, s1, Act(0));
    assert Apply(s1, Act(0)) == State(s.sh, map[0 := Search()]);
  }

  /** A call for the next block at a program counter. */
  function Fetch(pc: Pc): Call {
    Call(NEXT, 0, map[], [], 0, map[], [], 0, false, pc)
  }

  function Fetching(seen: nat, pc: Pc): State {
    State(Calm([HEAD], seen, Idle), map[0 := Search(), 1 := Fetch(pc)])
  }

  lemma NextIsFetched(s: State)
    requires Leads(s, State(Calm([HEAD], 0, Idle), map[0 := Search()]))
    ensures Leads(s, Fetching(0, Publish(ADDED)))
  {
    hide Leads, Search, FetchList, ParsedBlock;
    NextListsNothing();
    var s0 := State(Calm([HEAD], 0, Idle), map[0 := Search()]);
    LeadsOn(s, s0, Start(1, NEXT));
    assert Apply(s0, Start(1, NEXT)) == Fetching(0, CheckHeader);
    LeadsOn(s, Fetching(0, CheckHeader), Act(1));
    assert Apply(Fetching(0, CheckHeader), Act(1)) == Fetching(0, Parse(map[]));
    LeadsOn(s, Fetching(0, Parse(map[])), Act(1));
    assert Apply(Fetching(0, Parse(map[])), Act(1)) == Fetching(0, Publish(ADDED));
  }

  /** Its cache write, which writes nothing, and the counting of the block. */
  lemma NextIsCounted(s: State)
    requires Leads(s, Fetching(0, Publish(ADDED)))
    ensures Leads(s, Fetching(1, StoreSeen(ADDED)))
  {
    hide Leads, Search, TxHashes;
    assert BlockCoins(ADDED) == map[];
    LeadsOn(s, Fetching(0, Publish(ADDED)), Act(1));
    assert Apply(Fetching(0, Publish(ADDED)), Act(1)) == Fetching(0, Bump(ADDED));
    LeadsOn(s, Fetching(0, Bump(ADDED)), Act(1));
    assert Apply(Fetching(0, Bump(ADDED)), Act(1)) == Fetching(1, StoreSeen(ADDED));
  }

  /** Its close section, which closes nothing. */
  lemma NextIsSeen(s: State)
    requires Leads(s, Fetching(1, StoreSeen(ADDED)))
    ensures Leads(s, Fetching(1, SeenDone(ADDED)))
  {
    hide Leads, Search, BlockCoins;
    LeadsOn(s, Fetching(1, StoreSeen(ADDED)), Act(1));
    assert Apply(Fetching(1, StoreSeen(ADDED)), Act(1)) == Fetching(1, CloseChannels(ADDED));
    LeadsOn(s, Fetching(1, CloseChannels(ADDED)), Act(1));
    CloseNothing(Calm([HEAD], 1, Idle), {}, false);
    assert ToClose(map[], TxHashes(ADDED)) == {};
    assert Apply(Fetching(1, CloseChannels(ADDED)), Act(1)) == Fetching(1, SeenDone(ADDED));
  }

  /** The block is committed, and its abort pass goes by. */
  lemma NextIsAdded(s: State)
    requires Leads(s, Fetching(1, SeenDone(ADDED)))
    ensures Leads(s, Fetching(1, SeenDone(ADDED)).(sh := Calm([HEAD, ADDED], 1, Idle)))
  {
    hide Leads, Search;
    var seen := Fetching(1, SeenDone(ADDED));
    assert seen.calls[1].pc == SeenDone(ADDED);
    assert BlockCoins(ADDED) == map[];
    LeadsOn(s, seen, Commit(ADDED));
    assert [HEAD] + [ADDED] == [HEAD, ADDED];
    var evicting := seen.(sh := Calm([HEAD, ADDED], 1, Evict(ADDED)));
    assert Apply(seen, Commit(ADDED)) == evicting;
    LeadsOn(s, evicting, Add);
    var aborting := seen.(sh := Calm([HEAD, ADDED], 1, Abort(ADDED)));
    assert Apply(evicting, Add) == aborting;
    LeadsOn(s, aborting, Add);
    CloseNothing(aborting.sh, ToAbort(map[], 3), true);
    assert Apply(aborting, Add) == seen.(sh := Calm([HEAD, ADDED], 1, Idle));
  }

  /** The search goes on: the coin is nowhere, the head and the counter do not move, so it
      registers. */
  lemma SearchRegisters(s: State) returns (t: State)
    requires Leads(s, Fetching(1, SeenDone(ADDED)).(sh := Calm([HEAD, ADDED], 1, Idle)))
    ensures Leads(s, t) && t.sh.db == [HEAD, ADDED] && t.sh.adder == Idle
    ensures TransactionHash(FetchList(LATE)[0]) in t.sh.table
    ensures t.sh.table[TransactionHash(FetchList(LATE)[0])] == Entry(1, 0, false, false, 3)
  {
    hide Leads, FetchList, TransactionHash, IsRun;
    LateListsOne();
    NothingStored();
    var sh := Calm([HEAD, ADDED], 1, Idle);
    var s0 := Fetching(1, SeenDone(ADDED)).(sh := sh);
    LeadsOn(s, s0, Act(0));
    var s1 := State(sh, s0.calls[0 := Search().(pc := ReadStore(1))]);
    assert Apply(s0, Act(0)) == s1;
    LeadsOn(s, s1, Act(0));
    var s2 := State(sh, s0.calls[0 := Search().(pc := ReadCache(1, ADDED.id))]);
    assert Apply(s1, Act(0)) == s2;
    LeadsOn(s, s2, Act(0));
    var s3 := State(sh, s0.calls[0 := Search().(pc := LockWaiter(1, ADDED.id))]);
    assert Apply(s2, Act(0)) == s3;
    LeadsOn(s, s3, Act(0));
    var s4 := State(sh.(holder := Some(0)), s0.calls[0 := Search().(pc := Register(1))]);
    assert Apply(s3, Act(0)) == s4;
    LeadsOn(s, s4, Act(0));
    t := Apply(s4, Act(0));
  }

  // ---------------------------------------------------------------- what can end a stranded wait

  /** An open entry at a height whose abort pass has gone by. */
  predicate Behind(sh: Shared, hash: string) {
    && hash in sh.table && !sh.table[hash].channelClosed
    && sh.db != [] && sh.table[hash].earliestBlock <= Head(sh.db).index + 1
    && (sh.adder.Idle? || sh.table[hash].earliestBlock <= sh.adder.b.id.index)
  }

  /** The step closes the channels of a block with the hash. */
  predicate ClosesHash(s: State, step: Step, hash: string) {
    step.Act? && step.c in s.calls && s.calls[step.c].pc.CloseChannels? && hash in TxHashes(s.calls[step.c].pc.b)
  }

  /** No other step, but a removal, ends a stranded wait. */
  lemma StrandedStays(s: State, step: Step, hash: string)
    requires WaitInvariant(s) && Enabled(s, step) && Behind(s.sh, hash)
    requires !step.Remove? && !ClosesHash(s, step, hash)
    ensures Behind(Apply(s, step).sh, hash)
  {
    hide CanStep, CallStep, AllListenersCount, LockHeld, HeightsOk, TxHashes, BlockCoins, Channels, ClosesOnce,
      FetchList;
    if step.Act? {
      ActLeavesStranded(s, step.c, hash);
    }
  }

  lemma ActLeavesStranded(s: State, c: nat, hash: string)
    requires WaitInvariant(s) && CanAdvance(s, c) && Behind(s.sh, hash) && !ClosesHash(s, Act(c), hash)
    ensures Behind(Advance(s, c).sh, hash)
  {
    hide CallStep, CanStep, Joined, Left, TransactionHash, CurrentCoin, WaitHash, TxHashes, Head, AllListenersCount,
      LockHeld, HeightsOk, RegisterWait;
    var call := s.calls[c];
    CallKeepsStores(s.sh, c, call);
    ActKeepsAdder(s.sh, c, call);
    if call.pc.Register? && s.sh.seen == call.pc.startSeen {
      RegisterStep(s.sh, c, call);
    } else if call.pc.Register? {
      RetryStep(s.sh, c, call);
    } else if call.pc.Consume? {
      assert HoldsEntry(call, s.sh.table, s.sh.closed);
      assert EntryChannel(s.sh.table[WaitHash(call)], s.sh.closed, s.sh.nextChannel);
      LeavesOther(s.sh, c, call, hash);
    } else if call.pc.CloseChannels? {
      CloseStep(s.sh, c, call);
    } else {
      StepKeepsTable(s.sh, c, call);
    }
  }

  lemma LeavesOther(sh: Shared, c: nat, call: Call, hash: string)
    requires call.pc.Consume? && CanStep(sh, call) && WaitHash(call) in sh.table && hash in sh.table
    requires WaitHash(call) != hash
    ensures var sh' := CallStep(sh, c, call).sh;
            hash in sh'.table && sh'.table[hash] == sh.table[hash]
  {
    hide WaitHash, Woken;
  }

  /** Over runs: a stranded wait stays open until a block with its transaction is seen or a block is
      removed. */
  lemma {:induction false} StrandedForLong(states: seq<State>, steps: seq<Step>, n: nat, m: nat, hash: string)
    requires IsRun(states, steps) && Initial(states[0]) && n <= m < |states| && Behind(states[n].sh, hash)
    requires forall k :: n <= k < m ==> !steps[k].Remove? && !ClosesHash(states[k], steps[k], hash)
    ensures Behind(states[m].sh, hash)
  {
    hide Enabled, Apply, Initial, Behind, ClosesHash, WaitInvariant;
    if n < m {
      StrandedForLong(states, steps, n, m - 1, hash);
      RunKeepsWaitInvariant(states, steps, m - 1);
      StrandedStays(states[m - 1], steps[m - 1], hash);
    }
  }

  // ---------------------------------------------------------------- the run

  lemma NothingStored()
    ensures Store([HEAD, ADDED]) == map[]
  {
    NoOperations();
    FoldNothing(map[]);
    assert [HEAD, ADDED][..1] == [HEAD] && [HEAD][..0] == [];
    assert Store([HEAD]) == map[];
  }

  /** Without the hypothesis a wait can be stranded: this run ends with an open entry at the
      height after the head, and no abort pass pending. */
  lemma WaitCanBeStranded() returns (states: seq<State>, steps: seq<Step>)
    ensures IsRun(states, steps) && Initial(states[0]) && HeadInOrder(states[0].sh)
    ensures var sh := states[|steps|].sh;
            && !OpenAhead(sh) && !AbortPending(sh)
            && exists h :: Behind(sh, h)
  {
    hide FetchList, TransactionHash, Enabled, Apply;
    var s := State(Calm([HEAD], 0, Idle), map[]);
    SearchStarts(s);
    NextIsFetched(s);
    NextIsCounted(s);
    NextIsSeen(s);
    NextIsAdded(s);
    var t := SearchRegisters(s);
    states, steps :| IsRun(states, steps) && states[0] == s && states[|steps|] == t;
    LateListsOne();
    var hash := TransactionHash(FetchList(LATE)[0]);
    assert Behind(t.sh, hash) && !Ahead(t.sh, t.sh.table[hash].earliestBlock);
  }
}
