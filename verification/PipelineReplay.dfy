/**
 Runs on a fixed chain that can be brought about at will: every block below a height is seen
 while none of them is evicted, then some are committed, then the next block is fetched. They
 need nothing of the chain but that it is indexed, and they show what goes wrong when a coin
 is repeated.
 */
module PipelineReplay {
  import opened Wrappers
  import opened Blocks
  import opened BlockParser
  import opened CoinFetching
  import opened CoinLedger
  import opened Pipeline
  import opened PipelineWaits
  import opened PipelineTruth
  import opened PipelineAborts
  import opened PipelineRuns
  import opened FixedChain
  import opened PipelineChain
  import opened PipelineChainSteps
  import opened PipelineProgress

  // ---------------------------------------------------------------- reached states

  ghost predicate Reaches(p: Plan, base: nat, t: State) {
    exists states, steps :: ChainRun(p, base, states, steps) && states[|steps|] == t
  }

  /** The state after a restart with the first base blocks committed. */
  function Restarted(p: Plan, base: nat): State
    requires base <= |p.blocks|
  {
    State(Shared(p.blocks[..base], map[], 0, map[], {}, 0, None, Idle, false, map[]), map[])
  }

  lemma ReachesStart(p: Plan, base: nat)
    requires base <= |p.blocks|
    ensures Reaches(p, base, Restarted(p, base))
  {
    var s := Restarted(p, base);
    var none: seq<Step> := [];
    assert ChainRun(p, base, [s], none) && [s][|none|] == s;
  }

  lemma ReachesOn(p: Plan, base: nat, t: State, step: Step)
    requires Reaches(p, base, t) && Enabled(t, step) && ChainStep(p, base, t, step)
    ensures Reaches(p, base, Apply(t, step))
  {
    hide Enabled, Apply, ChainStep, Initial;
    var states, steps :| ChainRun(p, base, states, steps) && states[|steps|] == t;
    var longer, more := states + [Apply(t, step)], steps + [step];
    assert forall k :: 0 <= k < |states| ==> longer[k] == states[k];
    assert forall k :: 0 <= k < |steps| ==> more[k] == steps[k];
    assert ChainRun(p, base, longer, more) && longer[|more|] == Apply(t, step);
  }

  lemma ReachesActed(p: Plan, base: nat, s: State, k: nat)
    requires Reaches(p, base, s) && CanAdvance(s, k)
    ensures Reaches(p, base, Advance(s, k))
  {
    hide Reaches, CanAdvance, Advance;
    ReachesOn(p, base, s, Act(k));
  }

  lemma ReachedFacts(p: Plan, base: nat, t: State)
    requires Valid(p) && Reaches(p, base, t)
    ensures Facts(p, base, t)
  {
    hide Valid, Facts, ChainStep, Initial;
    var states, steps :| ChainRun(p, base, states, steps) && states[|steps|] == t;
    RunFacts(p, base, states, steps, |steps|);
  }

  // ---------------------------------------------------------------- settled states

  /** Blocks base to hi have been seen, nobody is in between, at most the call of block hi is
      waiting, and no coin of an evicted block is cached. */
  ghost predicate Settled(p: Plan, base: nat, s: State, hi: nat) {
    && base <= hi <= |p.blocks| && |s.sh.db| <= hi
    && s.sh.holder == None && !s.sh.adder.Abort?
    && (forall k: nat :: base <= k < hi ==> k in s.calls && s.calls[k].pc == SeenDone(p.blocks[k]))
    && (forall k :: k in s.calls ==> k <= hi)
    && (forall h :: h in s.sh.table ==> OpenAt(s.sh.table[h], hi))
    && Swept(p, base, s)
  }

  predicate OpenAt(e: Entry, height: int) {
    !e.channelClosed && !e.aborted && e.earliestBlock == height
  }

  ghost predicate Swept(p: Plan, base: nat, s: State) {
    forall j: nat, id :: base <= j < Evicted(s.sh) && Lists(p, j, id) ==> id !in s.sh.cache
  }

  // ---------------------------------------------------------------- one call on its own

  /** A state in which only one call moved. */
  function Moving(s: State, sh: Shared, k: nat, call: Call): State {
    State(sh, s.calls[k := call])
  }

  /** One lookup, undisturbed. */
  lemma Looks(p: Plan, base: nat, s: State, k: nat) returns (t: State)
    requires Reaches(p, base, s) && k in s.calls && s.calls[k].pc.ReadSeen? && s.sh.db != [] && s.sh.holder == None
    ensures Reaches(p, base, t)
    ensures var call := s.calls[k];
            var id := CurrentCoin(call);
            t == match LookedUp(s.sh, id)
                 case Some(coin) => Moving(s, s.sh, k, Found(call, coin))
                 case None => Moving(s, AfterLookup(s.sh, id, call.raw.height), k, Missing(call))
  {
    hide Reaches, Store, AfterLookup, Found, Missing, CurrentCoin, RegisterWait;
    var call := s.calls[k];
    var id := CurrentCoin(call);
    UndisturbedLookup(s.sh, k, call);
    var s1 := Moving(s, s.sh, k, call.(pc := ReadStore(s.sh.seen)));
    ReachesActed(p, base, s, k);
    assert Advance(s, k) == s1;
    ReachesActed(p, base, s1, k);
    var s2 := Advance(s1, k);
    assert s2 == Moving(s, s.sh, k, CallStep(s.sh, k, s1.calls[k]).call);
    if id in Store(s.sh.db) {
      return s2;
    }
    ReachesActed(p, base, s2, k);
    var s3 := Advance(s2, k);
    assert s3 == Moving(s, s.sh, k, CallStep(s.sh, k, s2.calls[k]).call);
    if id in s.sh.cache {
      return s3;
    }
    ReachesActed(p, base, s3, k);
    var s4 := Advance(s3, k);
    ReachesActed(p, base, s4, k);
    t := Advance(s4, k);
    assert t.sh == CallStep(s4.sh, k, s4.calls[k]).sh && t.calls == s.calls[k := CallStep(s4.sh, k, s4.calls[k]).call];
  }

  /** A missing coin: the state in which its wait is about to be registered. */
  lemma StandsAtRegister(p: Plan, base: nat, s: State, k: nat) returns (r: State)
    requires Reaches(p, base, s) && k in s.calls && s.calls[k].pc.ReadSeen? && s.sh.db != [] && s.sh.holder == None
    requires LookedUp(s.sh, CurrentCoin(s.calls[k])) == None
    ensures Reaches(p, base, r) && Registers(r, k)
    ensures r == Moving(s, s.sh.(holder := Some(k)), k, s.calls[k].(pc := Register(s.sh.seen)))
  {
    hide Reaches, Store, Found;
    var call := s.calls[k];
    SameLookupAtAnyPc(call, ReadStore(s.sh.seen));
    SameLookupAtAnyPc(call, ReadCache(s.sh.seen, Head(s.sh.db)));
    ReachesActed(p, base, s, k);
    var s1 := Moving(s, s.sh, k, call.(pc := ReadStore(s.sh.seen)));
    assert Advance(s, k) == s1;
    ReachesActed(p, base, s1, k);
    var s2 := Moving(s, s.sh, k, call.(pc := ReadCache(s.sh.seen, Head(s.sh.db))));
    assert Advance(s1, k) == s2;
    ReachesActed(p, base, s2, k);
    var s3 := Moving(s, s.sh, k, call.(pc := LockWaiter(s.sh.seen, Head(s.sh.db))));
    assert Advance(s2, k) == s3;
    ReachesActed(p, base, s3, k);
    r := Moving(s, s.sh.(holder := Some(k)), k, call.(pc := Register(s.sh.seen)));
    assert Advance(s3, k) == r;
  }

  lemma FoundIs(call: Call, coin: AccountCoin)
    ensures var call' := Found(call, coin);
            && SameActivation(call, call') && call'.remaining == call.remaining && call'.next == call.next + 1
            && call'.shouldAbort == call.shouldAbort
            && (call'.pc.ReadSeen? <==> call.next + 1 < |call.asked|)
            && (call.next + 1 >= |call.asked| ==> (call'.pc.Parse? <==> call.remaining == []))
  {
    hide CurrentCoin;
  }

  /** All lookups of a call whose coins are all there. */
  lemma FindsAll(p: Plan, base: nat, s: State, k: nat) returns (t: State)
    requires Reaches(p, base, s) && k in s.calls && s.calls[k].pc.ReadSeen? && s.sh.db != [] && s.sh.holder == None
    requires s.calls[k].remaining == [] && s.calls[k].next < |s.calls[k].asked|
    requires forall n :: s.calls[k].next <= n < |s.calls[k].asked| ==> LookedUp(s.sh, s.calls[k].asked[n]).Some?
    ensures Reaches(p, base, t) && t.sh == s.sh && k in t.calls && t.calls == s.calls[k := t.calls[k]]
    ensures t.calls[k].pc.Parse? && t.calls[k].raw == s.calls[k].raw
    decreases |s.calls[k].asked| - s.calls[k].next
  {
    hide Reaches, LookedUp, Found;
    t := Looks(p, base, s, k);
    var coin := LookedUp(s.sh, s.calls[k].asked[s.calls[k].next]).value;
    FoundIs(s.calls[k], coin);
    if s.calls[k].next + 1 < |s.calls[k].asked| {
      t := FindsAll(p, base, t, k);
    }
  }

  /** From Parse on: the block is compiled, published, counted and closed. */
  lemma Finishes(p: Plan, base: nat, s: State, k: nat) returns (t: State)
    requires Valid(p) && Reaches(p, base, s) && k in s.calls && s.calls[k].pc.Parse?
    requires s.sh.holder == None && s.sh.table == map[]
    ensures k < |p.blocks| && Reaches(p, base, t) && k in t.calls
    ensures t == Moving(s, s.sh.(cache := s.sh.cache + BlockCoins(p.blocks[k]), seen := s.sh.seen + 1), k, t.calls[k])
    ensures t.calls[k].pc == SeenDone(p.blocks[k])
  {
    hide Valid, Reaches, ParsedBlock, BlockCoins, CloseEntries, ToClose;
    var call := s.calls[k];
    FinishesParse(p, base, s, k);
    var b := p.blocks[k];
    var sh := s.sh.(cache := s.sh.cache + BlockCoins(b), seen := s.sh.seen + 1);
    PublishesAndCounts(p, base, s, k, b);
    var s3 := Moving(s, sh, k, call.(pc := StoreSeen(b)));
    ReachesActed(p, base, s3, k);
    var s4 := Moving(s, sh, k, call.(pc := CloseChannels(b)));
    assert Advance(s3, k) == s4;
    ReachesActed(p, base, s4, k);
    CloseNothing(sh, ToClose(sh.table, TxHashes(b)), false);
    t := Moving(s, sh, k, call.(pc := SeenDone(b)));
    assert Advance(s4, k) == t;
  }

  lemma PublishesAndCounts(p: Plan, base: nat, s: State, k: nat, b: Block)
    requires k in s.calls && Reaches(p, base, Moving(s, s.sh, k, s.calls[k].(pc := Publish(b))))
    ensures Reaches(p, base, Moving(s, s.sh.(cache := s.sh.cache + BlockCoins(b), seen := s.sh.seen + 1), k,
                                    s.calls[k].(pc := StoreSeen(b))))
  {
    hide Reaches, BlockCoins;
    var call := s.calls[k];
    var s1 := Moving(s, s.sh, k, call.(pc := Publish(b)));
    ReachesActed(p, base, s1, k);
    var s2 := Moving(s, s.sh.(cache := s.sh.cache + BlockCoins(b)), k, call.(pc := Bump(b)));
    assert Advance(s1, k) == s2;
    ReachesActed(p, base, s2, k);
    assert Advance(s2, k) == Moving(s, s2.sh.(seen := s.sh.seen + 1), k, call.(pc := StoreSeen(b)));
  }

  lemma FinishesParse(p: Plan, base: nat, s: State, k: nat)
    requires Valid(p) && Reaches(p, base, s) && k in s.calls && s.calls[k].pc.Parse?
    ensures k < |p.blocks|
    ensures Reaches(p, base, Moving(s, s.sh, k, s.calls[k].(pc := Publish(p.blocks[k]))))
  {
    hide Valid, Reaches, WaitInvariant, AllTrue, OnChain, CacheExact, ParsedBlock;
    ReachedFacts(p, base, s);
    ParseSucceeds(p, base, s, k);
    ReachesActed(p, base, s, k);
    var t := Advance(s, k);
    ReachedFacts(p, base, t);
    PlannedBlock(p, base, t, k);
    assert t == Moving(s, s.sh, k, s.calls[k].(pc := Publish(p.blocks[k])));
  }

  /** A new call, past the header check. */
  lemma Starts(p: Plan, base: nat, s: State, k: nat) returns (t: State)
    requires Valid(p) && Reaches(p, base, s) && base <= k < |p.blocks| && k !in s.calls
    ensures Reaches(p, base, t) && k in t.calls
    ensures t == Moving(s, s.sh, k, t.calls[k])
    ensures var call := NewCall(p.chain[k]);
            t.calls[k] == if call.asked == [] then call.(pc := Parse(map[])) else call.(pc := ReadSeen)
  {
    hide Valid, Reaches, NewCall, HeaderMatches, StepCheckHeader;
    PlanLengths(p);
    ReachesOn(p, base, s, Start(k, p.chain[k]));
    var s1 := Moving(s, s.sh, k, NewCall(p.chain[k]));
    assert Apply(s, Start(k, p.chain[k])) == s1;
    NewCallChecks(s.sh, p.chain[k]);
    StartedMatches(p, base, s1, k);
    ReachesActed(p, base, s1, k);
    t := Advance(s1, k);
    assert t.sh == s.sh && t.calls == s.calls[k := StepCheckHeader(s.sh, NewCall(p.chain[k]))];
  }

  lemma NewCallChecks(sh: Shared, raw: RawBlock)
    ensures var call := NewCall(raw);
            call.pc == CheckHeader && call.raw == raw
            && (HeaderMatches(sh.db, raw) ==>
                  StepCheckHeader(sh, call) ==
                    if call.asked == [] then call.(pc := Parse(map[])) else call.(pc := ReadSeen))
  {
    hide FetchList, HeaderMatches;
    var none: Coins := map[];
    assert none + none == none;
  }

  lemma StartedMatches(p: Plan, base: nat, s: State, k: nat)
    requires Valid(p) && Reaches(p, base, s) && k in s.calls
    ensures HeaderMatches(s.sh.db, s.calls[k].raw)
  {
    hide Valid, Reaches, WaitInvariant, AllTrue, OnChain, CacheExact;
    ReachedFacts(p, base, s);
    HeaderAlwaysMatches(p, base, s, k);
  }

  // ---------------------------------------------------------------- seeing blocks one after the other

  /** While nothing of this run is evicted, every coin the next block needs is there. */
  lemma NeededIsThere(p: Plan, base: nat, s: State, k: nat, id: string)
    requires Valid(p) && Facts(p, base, s) && Settled(p, base, s, k) && Evicted(s.sh) == base && Needs(p, k, id)
    ensures LookedUp(s.sh, id).Some?
  {
    hide Valid, WaitInvariant, AllTrue, Lists, StoreAt, CallOnChain;
    PlanLengths(p);
    NeededIsStored(p, k, id);
    if id !in Store(s.sh.db) {
      assert StoreAt(p, |s.sh.db|) == Store(s.sh.db) by { StoreAtIs(p, |s.sh.db|); }
      MissedIsListed(p, |s.sh.db|, k, id);
      var i: nat :| |s.sh.db| <= i < k && Lists(p, i, id);
      assert Published(base, s, i);
      assert !Dropped(p, base, s, id);
    }
  }

  lemma StoreAtIs(p: Plan, n: nat)
    requires n <= |p.blocks|
    ensures StoreAt(p, n) == Store(p.blocks[..n])
  {
  }

  lemma FirstNeedsNothing(p: Plan)
    requires Valid(p) && |p.blocks| > 0
    ensures FetchList(p.chain[0]) == []
  {
    hide Valid, FetchList, StoreAt;
    PlanLengths(p);
    if FetchList(p.chain[0]) != [] {
      NeededIsStored(p, 0, FetchList(p.chain[0])[0]);
      NothingStored(p);
    }
  }

  /** The next block is fetched and seen, with nothing in between. */
  lemma SeesNext(p: Plan, base: nat, s: State, k: nat) returns (t: State)
    requires Valid(p) && Reaches(p, base, s) && Settled(p, base, s, k) && k < |p.blocks| && k !in s.calls
    requires Evicted(s.sh) == base && s.sh.table == map[] && (s.sh.db != [] || k == 0)
    ensures Reaches(p, base, t) && Settled(p, base, t, k + 1) && k + 1 !in t.calls
    ensures t.sh.table == map[] && t.sh.db == s.sh.db && t.sh.adder == s.sh.adder
  {
    hide Valid, Reaches, FetchList, LookedUp, Lists, BlockCoins, Facts;
    ReachedFacts(p, base, s);
    var s1 := Starts(p, base, s, k);
    if s1.calls[k].pc.ReadSeen? {
      forall n | 0 <= n < |s1.calls[k].asked|
        ensures LookedUp(s1.sh, s1.calls[k].asked[n]).Some?
      {
        PlanLengths(p);
        NeededIsThere(p, base, s, k, s1.calls[k].asked[n]);
      }
      if k == 0 {
        FirstNeedsNothing(p);
      }
      s1 := FindsAll(p, base, s1, k);
    }
    t := Finishes(p, base, s1, k);
  }

  /** All blocks below hi are seen, and none of them is evicted. */
  lemma {:induction false} SeesAll(p: Plan, base: nat, hi: nat) returns (t: State)
    requires Valid(p) && base <= hi <= |p.blocks| && hi > 0
    ensures Reaches(p, base, t) && Settled(p, base, t, hi) && hi !in t.calls
    ensures t.sh.table == map[] && Evicted(t.sh) == base && t.sh.db != []
    ensures |t.sh.db| == if base == 0 then 1 else base
  {
    hide Valid, Reaches, Lists;
    if base == hi {
      t := Restarted(p, base);
      ReachesStart(p, base);
    } else if hi == 1 {
      var s := Restarted(p, 0);
      ReachesStart(p, 0);
      s := SeesNext(p, 0, s, 0);
      t := Commits(p, base, s, 1);
    } else {
      var s := SeesAll(p, base, hi - 1);
      t := SeesNext(p, base, s, hi - 1);
    }
  }

  // ---------------------------------------------------------------- committing what was seen

  /** The next block is committed; its coins are still in the cache. */
  lemma Commits(p: Plan, base: nat, s: State, hi: nat) returns (t: State)
    requires Valid(p) && Reaches(p, base, s) && Settled(p, base, s, hi) && |s.sh.db| < hi && s.sh.adder == Idle
    ensures Reaches(p, base, t) && Settled(p, base, t, hi) && t.calls == s.calls
    ensures |t.sh.db| == |s.sh.db| + 1 && t.sh.adder == Evict(p.blocks[|s.sh.db|])
    ensures t.sh.db == p.blocks[..|t.sh.db|] && t.sh.table == s.sh.table && Evicted(t.sh) == |s.sh.db|
  {
    hide Valid, Reaches, Lists, WaitInvariant, AllTrue, CacheExact, CallOnChain, CanCommit, ChainStep;
    ReachedFacts(p, base, s);
    var b := p.blocks[|s.sh.db|];
    NextCommits(p, base, s);
    ReachesOn(p, base, s, Commit(b));
    t := Apply(s, Commit(b));
  }

  /** Its coins are evicted, and unless it is the last one seen its abort pass goes by. */
  lemma Adds(p: Plan, base: nat, s: State, hi: nat) returns (t: State)
    requires Valid(p) && Reaches(p, base, s) && Settled(p, base, s, hi) && s.sh.adder.Evict?
    requires |s.sh.db| < hi || s.sh.table == map[]
    ensures Reaches(p, base, t) && Settled(p, base, t, hi) && t.calls == s.calls
    ensures t.sh.db == s.sh.db && t.sh.adder == Idle && t.sh.table == s.sh.table
  {
    hide Valid, Reaches, WaitInvariant, AllTrue, CacheExact, CallOnChain, Closed, BlockCoins, CloseEntries;
    var s1 := Evicts(p, base, s, hi);
    ReachesOn(p, base, s1, Add);
    t := Apply(s1, Add);
    assert ToAbort(s1.sh.table, |s.sh.db|) == {};
    ClosingNothing(s1.sh, true);
  }

  lemma ClosingNothing(sh: Shared, aborting: bool)
    ensures CloseEntries(sh, {}, aborting) == sh
  {
    assert CloseAll(sh.table, {}, aborting) == sh.table;
    assert Channels(sh.table, {}) == {};
  }

  lemma Evicts(p: Plan, base: nat, s: State, hi: nat) returns (t: State)
    requires Valid(p) && Reaches(p, base, s) && Settled(p, base, s, hi) && s.sh.adder.Evict?
    ensures Reaches(p, base, t) && t.calls == s.calls && s.sh.db != []
    ensures s.sh.adder.b.id.index + 1 == |s.sh.db|
    ensures t.sh == s.sh.(cache := t.sh.cache, adder := Abort(s.sh.adder.b)) && Swept(p, base, t)
  {
    hide Valid, Reaches, WaitInvariant, AllTrue, CacheExact, CallOnChain, Closed, BlockCoins;
    ReachedFacts(p, base, s);
    PlanLengths(p);
    BlockOf(p, |s.sh.db| - 1);
    ReachesOn(p, base, s, Add);
    t := Apply(s, Add);
    forall j: nat, id | base <= j < Evicted(t.sh) && Lists(p, j, id)
      ensures id !in t.sh.cache
    {
      assert j < |s.sh.db| - 1 || j == |s.sh.db| - 1;
    }
  }

  /** Blocks are added until n are committed. */
  lemma {:induction false} AddsUpTo(p: Plan, base: nat, s: State, hi: nat, n: nat) returns (t: State)
    requires Valid(p) && Reaches(p, base, s) && Settled(p, base, s, hi) && |s.sh.db| <= n <= hi
    requires n < hi || s.sh.table == map[]
    ensures Reaches(p, base, t) && Settled(p, base, t, hi) && t.calls == s.calls
    ensures |t.sh.db| == n && t.sh.adder == Idle && t.sh.table == s.sh.table && Evicted(t.sh) == n
    decreases n - |s.sh.db|, if s.sh.adder.Idle? then 0 else 1
  {
    hide Valid, Reaches, Swept;
    if s.sh.adder.Evict? {
      t := Adds(p, base, s, hi);
      t := AddsUpTo(p, base, t, hi, n);
    } else if |s.sh.db| < n {
      t := Commits(p, base, s, hi);
      t := Adds(p, base, t, hi);
      t := AddsUpTo(p, base, t, hi, n);
    } else {
      t := s;
    }
  }
}
