/**
 Runs of the pipeline on a fixed valid chain: no reorganisation, no cancelled context, no
 failing database. Facts holds in every such run. Inv also holds if coins stay stored while
 they are needed (FixedChain.Stays), and from it follow the hand-off of needed coins from the
 cache to the store, the absence of lost wake-ups and of aborts, and that no call ever fails.
 */
module PipelineChain {
  import opened Blocks
  import opened CoinIds
  import opened BlockParser
  import opened CoinFetching
  import opened CoinLedger
  import opened UtxoLedger
  import opened SequentialIndex
  import opened Pipeline
  import opened PipelineWaits
  import opened PipelineTruth
  import opened FixedChain

  // ---------------------------------------------------------------- the invariant

  predicate AfterPublish(pc: Pc) { pc.Bump? || AfterBump(pc) }

  predicate AfterBump(pc: Pc) { pc.StoreSeen? || pc.CloseChannels? || pc.SeenDone? }

  /** Call k fetches block k; the blocks below base were committed before the restart. */
  ghost predicate Published(base: nat, s: State, i: nat) {
    i < base || (i in s.calls && AfterPublish(s.calls[i].pc))
  }

  ghost predicate Bumped(base: nat, s: State, i: nat) {
    i < base || (i in s.calls && AfterBump(s.calls[i].pc))
  }

  ghost predicate Closed(base: nat, s: State, i: nat) {
    i < base || (i in s.calls && s.calls[i].pc.SeenDone?)
  }

  ghost predicate OnChain(p: Plan, base: nat, s: State) {
    && base <= |s.sh.db| <= |p.blocks| && s.sh.db == p.blocks[..|s.sh.db|]
    && (forall k :: k in s.calls ==> CallOnChain(p, base, k, s.calls[k]))
    && (forall k: nat :: base <= k < |s.sh.db| ==> Closed(base, s, k))
    && (s.sh.adder.Evict? || s.sh.adder.Abort? ==> s.sh.db != [] && s.sh.adder.b == p.blocks[|s.sh.db| - 1])
    && (s.sh.adder.Evict? ==> |s.sh.db| > base)
  }

  ghost predicate CallOnChain(p: Plan, base: nat, k: nat, call: Call) {
    base <= k < |p.chain| && call.raw == p.chain[k]
  }

  predicate Fine(pc: Pc) { !pc.Failed? && !pc.OrphanHead? }

  ghost predicate AllFine(s: State) {
    forall k :: k in s.calls ==> Fine(s.calls[k].pc)
  }

  /** The first blocks whose coins have been evicted. */
  function Evicted(sh: Shared): nat {
    if sh.adder.Evict? && sh.db != [] then |sh.db| - 1 else |sh.db|
  }

  /** What is cached. Every cached coin is one of a block that is published and not evicted; and
      the coins of such a block are cached, but for those that an evicted block repeats. */
  ghost predicate CacheExact(p: Plan, base: nat, s: State) {
    && (forall id :: id in s.sh.cache ==> Cacheable(p, base, s, id))
    && (forall i: nat, id :: Lists(p, i, id) && Published(base, s, i) && i >= Evicted(s.sh) ==>
          id in s.sh.cache || Dropped(p, base, s, id))
  }

  ghost predicate Cacheable(p: Plan, base: nat, s: State, id: string) {
    exists i: nat :: Lists(p, i, id) && Published(base, s, i) && i >= Evicted(s.sh)
  }

  ghost predicate Dropped(p: Plan, base: nat, s: State, id: string) {
    exists j: nat :: base <= j < Evicted(s.sh) && Lists(p, j, id)
  }

  predicate Reachable(sh: Shared, id: string) { id in sh.cache || id in Store(sh.db) }

  /** An entry is closed exactly when the BlockSeen of a block with its transaction is over. */
  ghost predicate Wakes(p: Plan, base: nat, s: State) {
    forall h :: h in s.sh.table ==> (s.sh.table[h].channelClosed <==> SomeClosed(p, base, s, h))
  }

  ghost predicate SomeClosed(p: Plan, base: nat, s: State, hash: string) {
    exists i: nat :: base <= i && Closed(base, s, i) && HasHash(p, i, hash)
  }

  ghost predicate HasHash(p: Plan, i: nat, hash: string) {
    i < |p.blocks| && hash in TxHashes(p.blocks[i])
  }

  ghost predicate NoneAborted(sh: Shared) {
    forall h :: h in sh.table ==> !sh.table[h].aborted
  }

  /** Somebody still waits at the earliest block of an open entry. */
  ghost predicate EarliestWaits(s: State) {
    forall h :: h in s.sh.table && !s.sh.table[h].channelClosed ==> EarliestWaiter(s, h, s.sh.table[h].earliestBlock)
  }

  ghost predicate EarliestWaiter(s: State, hash: string, height: int) {
    exists w :: w in Waits(s, hash) && w.0 == height
  }

  /** Some block that lists the coin has counted itself as seen. */
  ghost predicate Available(p: Plan, base: nat, s: State, id: string) {
    exists i: nat :: base <= i && Lists(p, i, id) && Bumped(base, s, i)
  }

  /** The coin was not in the store of the snapshot whose head is given. */
  ghost predicate SnapshotMiss(p: Plan, base: nat, sh: Shared, head: BlockId, id: string) {
    && 0 <= head.index < |sh.db| <= |p.blocks| && base <= head.index + 1
    && head == p.blocks[head.index].id && id !in StoreAt(p, head.index + 1)
  }

  /** A block fetched in this run, below the given height, lists the coin. */
  ghost predicate FromRun(p: Plan, base: nat, height: int, id: string) {
    exists j: nat :: base <= j < height && Lists(p, j, id)
  }

  /** What each lookup step knows. The last two lines are the heart: while the seen counter has
      not moved since it was read, no block that lists the coin can have been counted. */
  ghost predicate LookupReady(p: Plan, base: nat, s: State, call: Call) {
    var id := CurrentCoin(call);
    && (call.pc.ReadStore? ==> call.pc.startSeen <= s.sh.seen)
    && (call.pc.ReadCache? ==> call.pc.startSeen <= s.sh.seen && SnapshotMiss(p, base, s.sh, call.pc.head, id))
    && (call.pc.LockWaiter? ==>
          && call.pc.startSeen <= s.sh.seen && SnapshotMiss(p, base, s.sh, call.pc.head, id)
          && (call.pc.startSeen == s.sh.seen && Available(p, base, s, id) ==> call.pc.head.index + 1 < |s.sh.db|))
    && (call.pc.Register? ==>
          && call.pc.startSeen <= s.sh.seen && FromRun(p, base, call.raw.height, id)
          && (call.pc.startSeen == s.sh.seen ==> !Available(p, base, s, id)))
  }

  /** At most one recursive activation: it asks only for coins that have become available. */
  ghost predicate LevelReady(p: Plan, base: nat, s: State, call: Call) {
    Searching(call.pc) ==>
      && !call.shouldAbort && call.level <= 1
      && (call.level == 1 ==> call.remaining == [] && forall id :: id in call.asked ==> Available(p, base, s, id))
      && (forall i :: 0 <= i < call.waited <= |call.remaining| ==> Available(p, base, s, call.remaining[i]))
      && (forall i :: 0 <= i < |call.remaining| ==> FromRun(p, base, call.raw.height, call.remaining[i]))
  }

  ghost predicate AllReady(p: Plan, base: nat, s: State) {
    forall k :: k in s.calls ==> LookupReady(p, base, s, s.calls[k]) && LevelReady(p, base, s, s.calls[k])
  }

  /** What every run keeps. */
  ghost predicate Facts(p: Plan, base: nat, s: State) {
    WaitInvariant(s) && AllTrue(p.truth, s) && OnChain(p, base, s) && CacheExact(p, base, s)
  }

  /** What it keeps besides if needed coins stay stored. */
  ghost predicate Inv(p: Plan, base: nat, s: State) {
    && Stays(p, base) && Facts(p, base, s) && AllFine(s) && Wakes(p, base, s)
    && NoneAborted(s.sh) && EarliestWaits(s) && AllReady(p, base, s)
  }

  /** What is assumed of a step: calls are for blocks of the chain, none fails or is cancelled,
      nothing is removed, and the first block ever added is the first of the chain. */
  ghost predicate ChainStep(p: Plan, base: nat, s: State, step: Step) {
    && (step.Start? ==> base <= step.c < |p.chain| && step.raw == p.chain[step.c])
    && !step.Abandon? && !step.Remove?
    && (step.Commit? && s.sh.db == [] ==> |p.blocks| > 0 && step.b == p.blocks[0])
  }

  // ---------------------------------------------------------------- consequences

  lemma PlannedBlock(p: Plan, base: nat, s: State, k: nat)
    requires Valid(p) && AllTrue(p.truth, s) && OnChain(p, base, s) && k in s.calls && HasBlock(s.calls[k].pc)
    ensures base <= k < |p.blocks| && s.calls[k].pc.b == p.blocks[k]
  {
    hide Indexed, Linked, SameHashSameTransaction, Exact, TrueCoins, ParsedBlock, Truthful, Genuine;
    PlanGenuine(p, |p.blocks|);
    assert CallTrue(p.truth, s.calls[k]) && CallOnChain(p, base, k, s.calls[k]);
    assert TrueParse(p.truth, p.chain[k], p.blocks[k]);
  }

  /** A call that is still searching fetches an uncommitted block, and needs its coins. */
  lemma SearchingNeeds(p: Plan, base: nat, s: State, k: nat, id: string)
    requires AllTrue(p.truth, s) && OnChain(p, base, s) && k in s.calls && Searching(s.calls[k].pc)
    requires id in s.calls[k].asked || id in s.calls[k].remaining
    ensures Needs(p, k, id) && k >= |s.sh.db|
  {
    hide Genuine, Truthful, TrueCoins, TrueParse, FetchList, CoinsTrue;
    var call := s.calls[k];
    assert CallTrue(p.truth, call) && CallOnChain(p, base, k, call);
    if id in call.remaining {
      assert id in call.asked[..call.next];
    }
    assert base <= k < |s.sh.db| ==> Closed(base, s, k);
  }

  /** A registered wait belongs to a call that is still searching. */
  lemma WaitNeeds(p: Plan, base: nat, s: State, w: (nat, nat), hash: string)
    requires AllShaped(s) && AllTrue(p.truth, s) && OnChain(p, base, s) && AllFine(s) && w in Waits(s, hash)
    ensures w.0 in s.calls && w.1 < |s.calls[w.0].remaining| && Searching(s.calls[w.0].pc)
    ensures var id := s.calls[w.0].remaining[w.1];
            Needs(p, w.0, id) && w.0 >= |s.sh.db| && TransactionHash(id) == hash
  {
    hide AllTrue, TransactionHash;
    assert IsWait(s, w.0, w.1, hash);
    assert Shaped(s.calls[w.0]) && Fine(s.calls[w.0].pc);
    SearchingNeeds(p, base, s, w.0, s.calls[w.0].remaining[w.1]);
  }

  /** The hash of a needed coin is in exactly the blocks that list it, one of them earlier. */
  lemma NeededHash(p: Plan, x: nat, id: string)
    requires Valid(p) && Needs(p, x, id)
    ensures exists j: nat :: j < x && Lists(p, j, id)
    ensures forall i: nat :: HasHash(p, i, TransactionHash(id)) <==> Lists(p, i, id)
  {
    hide Valid, TransactionHash, TxHashes, BlockCoins;
    NeededIsStored(p, x, id);
    PlanLengths(p);
    StoredWasListed(p, x, id);
    var j: nat :| j < x && Lists(p, j, id);
    forall i: nat
      ensures HasHash(p, i, TransactionHash(id)) <==> Lists(p, i, id)
    {
      if i < |p.blocks| {
        HashMeansLists(p, j, id, i);
      }
    }
  }

  lemma PlanLengths(p: Plan)
    requires Valid(p)
    ensures |p.chain| == |p.blocks|
  {
  }

  /** Hand-off of needed coins, if they stay stored: a coin some uncommitted block still needs is in
      the cache or in the store, from the cache write of any block of the run that lists it. For
      all coins see PipelineCondition.HandsOffIff. */
  lemma HandOff(p: Plan, base: nat, s: State, x: nat, i: nat, id: string)
    requires Stays(p, base) && OnChain(p, base, s) && CacheExact(p, base, s)
    requires |s.sh.db| <= x && Needs(p, x, id) && base <= i && Lists(p, i, id) && Published(base, s, i)
    ensures Reachable(s.sh, id)
  {
    hide Lists, Needs, Published, CallOnChain, Closed, Store;
    var j: nat;
    if i < Evicted(s.sh) {
      j := i;
    } else if id in s.sh.cache {
      return;
    } else {
      j :| base <= j < Evicted(s.sh) && Lists(p, j, id);
    }
    assert Stored(p, |s.sh.db|, id);
  }

  /** No lost wake-up: an open entry waits for a transaction whose blocks are all yet to close
      it, and the earliest of them is below the waiting block. */
  lemma OpenEntryWillClose(p: Plan, base: nat, s: State, w: (nat, nat), hash: string)
    requires Valid(p) && Inv(p, base, s) && w in Waits(s, hash) && hash in s.sh.table && !s.sh.table[hash].channelClosed
    ensures exists j: nat :: |s.sh.db| <= j < w.0 && HasHash(p, j, hash) && !Closed(base, s, j)
    ensures forall i: nat :: base <= i && HasHash(p, i, hash) ==> !Closed(base, s, i)
  {
    hide Valid, Stays, AllTrue, CacheExact, LookupReady, EarliestWaits, Waits, HasHash, Lists, TransactionHash,
      AllListenersCount, TableOk, AllHoldEntries, LockHeld, Closed;
    WaitNeeds(p, base, s, w, hash);
    var call := s.calls[w.0];
    var id := call.remaining[w.1];
    assert CallOnChain(p, base, w.0, call) && LevelReady(p, base, s, call);
    ChainHeight(p, w.0);
    NeededHash(p, w.0, id);
    var j: nat :| base <= j < w.0 && Lists(p, j, id);
    assert !SomeClosed(p, base, s, hash);
    assert HasHash(p, j, hash);
    assert !Closed(base, s, j);
  }

  lemma ChainHeight(p: Plan, k: nat)
    requires Valid(p) && k < |p.chain|
    ensures p.chain[k].height == k
  {
    hide Indexed, SameHashSameTransaction, Truthful;
  }

  /** Nothing is ever aborted: no open entry stands at the block after the head. */
  lemma NothingToAbort(p: Plan, base: nat, s: State)
    requires Valid(p) && Inv(p, base, s)
    ensures ToAbort(s.sh.table, |s.sh.db|) == {}
  {
    hide Valid, Stays, Facts, Wakes, AllReady, Waits, HasHash, Closed;
    forall h | h in s.sh.table && !s.sh.table[h].channelClosed
      ensures s.sh.table[h].earliestBlock != |s.sh.db|
    {
      assert EarliestWaiter(s, h, s.sh.table[h].earliestBlock);
      var w :| w in Waits(s, h) && w.0 == s.sh.table[h].earliestBlock;
      OpenEntryWillClose(p, base, s, w, h);
    }
  }
}
