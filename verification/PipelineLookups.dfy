/**
 How a wait comes to be registered, and how it ends (findCoin and findCoins in indexer/indexer.go),
 as the history of any run: a coin is declared missing only after the store and the cache have been
 asked, with the same head before and after, the seen counter unchanged throughout, and the wait
 table at rest since the head was read again. And an orphaned head is reported only by the header
 check, or because some entry the activation has left was aborted, in which case it always is.
 */
module PipelineLookups {
  import opened Wrappers
  import opened Blocks
  import opened CoinIds
  import opened CoinLedger
  import opened Pipeline
  import opened PipelineWaits
  import opened PipelineHeaders

  // ---------------------------------------------------------------- one lookup

  /** Where a lookup goes on to its next step, it has come from the one before, having asked what that
      step asks. */
  predicate GoesOn(sh: Shared, call: Call, after: Call) {
    var coin := CurrentCoin(call);
    && (after.pc.ReadStore? ==> call.pc.ReadSeen? && after == call.(pc := ReadStore(sh.seen)))
    && (after.pc.ReadCache? ==>
          && call.pc.ReadStore? && sh.db != [] && coin !in Store(sh.db)
          && after == call.(pc := ReadCache(call.pc.startSeen, Head(sh.db))))
    && (after.pc.LockWaiter? ==>
          && call.pc.ReadCache? && coin !in sh.cache
          && after == call.(pc := LockWaiter(call.pc.startSeen, call.pc.head)))
    && (after.pc.Register? ==>
          && call.pc.LockWaiter? && sh.db != [] && Head(sh.db) == call.pc.head
          && after == call.(pc := Register(call.pc.startSeen)))
  }

  lemma LookupSteps(sh: Shared, c: nat, call: Call)
    requires CanStep(sh, call)
    ensures GoesOn(sh, call, CallStep(sh, c, call).call)
  {
    hide CallStep, CanStep, GoesOn;
    if InLookups(call.pc) {
      LookupGoesOn(sh, c, call);
    } else {
      OtherGoesNotOn(sh, c, call);
    }
  }

  lemma LookupGoesOn(sh: Shared, c: nat, call: Call)
    requires CanStep(sh, call) && InLookups(call.pc)
    ensures GoesOn(sh, call, CallStep(sh, c, call).call)
  {
    hide CurrentCoin, Store, RegisterWait, TransactionHash, Found, Missing;
    LookupEnds(call);
  }

  lemma OtherGoesNotOn(sh: Shared, c: nat, call: Call)
    requires CanStep(sh, call) && !InLookups(call.pc)
    ensures GoesOn(sh, call, CallStep(sh, c, call).call)
  {
    hide CurrentCoin, Store, Left, WaitHash, HeaderMatches, PublishCoins, CloseSeen;
  }

  lemma LookupEnds(call: Call)
    ensures forall coin :: var pc := Found(call, coin).pc; pc.ReadSeen? || pc.Parse? || pc.GetEntry?
    ensures var pc := Missing(call).pc; pc.ReadSeen? || pc.Parse? || pc.GetEntry?
  {
  }

  /** The step that reads the head again under the lock: without a head the call fails, with another
      head it starts the lookup again, and only with the same head it keeps the lock. */
  lemma RelockDecides(s: State, c: nat)
    requires CanAdvance(s, c) && s.calls[c].pc.LockWaiter?
    ensures var before, after := s.calls[c], Advance(s, c);
            && after.calls == s.calls[c := before.(pc := after.calls[c].pc)]
            && (s.sh.db == [] ==> after.calls[c].pc == Failed && after.sh == s.sh)
            && (s.sh.db != [] && s.sh.db[|s.sh.db| - 1].id != before.pc.head ==>
                  after.calls[c].pc == ReadSeen && after.sh == s.sh)
            && (s.sh.db != [] && s.sh.db[|s.sh.db| - 1].id == before.pc.head ==>
                  after.calls[c].pc == Register(before.pc.startSeen) && after.sh == s.sh.(holder := Some(c)))
  {
  }

  /** Step k was one of the call's, at a moment that differs from now in the program counter only. */
  ghost predicate ActedAt(states: seq<State>, steps: seq<Step>, c: nat, k: nat, now: Call) {
    && k < |steps| && k < |states| && steps[k] == Act(c) && c in states[k].calls
    && now == states[k].calls[c].(pc := now.pc)
  }

  ghost predicate CallAt(states: seq<State>, n: nat, c: nat) { n < |states| && c in states[n].calls }

  /** A step that is not the call's leaves a call in its lookups alone. */
  lemma NotItsStep(s: State, step: Step, c: nat)
    requires Enabled(s, step) && step != Act(c) && c in Apply(s, step).calls && InLookups(Apply(s, step).calls[c].pc)
    ensures c in s.calls && s.calls[c] == Apply(s, step).calls[c]
  {
    hide CallStep, CanStep, AdvanceAdder, CanAdvanceAdder, CanCommit;
  }

  /** The counter was read. */
  lemma {:induction false} SeenRead(states: seq<State>, steps: seq<Step>, n: nat, c: nat) returns (k: nat)
    requires IsRun(states, steps) && Initial(states[0]) && CallAt(states, n, c) && states[n].calls[c].pc.ReadStore?
    ensures k < n && ActedAt(states, steps, c, k, states[n].calls[c]) && states[k].calls[c].pc.ReadSeen?
    ensures states[k].sh.seen == states[n].calls[c].pc.startSeen
  {
    hide CallStep, CanStep, AdvanceAdder, CanAdvanceAdder, CanCommit;
    var s, step := states[n - 1], steps[n - 1];
    if step == Act(c) {
      LookupSteps(s.sh, c, s.calls[c]);
      k := n - 1;
    } else {
      NotItsStep(s, step, c);
      k := SeenRead(states, steps, n - 1, c);
    }
  }

  /** And then the store was asked. */
  lemma {:induction false} StoreAsked(states: seq<State>, steps: seq<Step>, n: nat, c: nat) returns (k0: nat, k1: nat)
    requires IsRun(states, steps) && Initial(states[0]) && CallAt(states, n, c) && states[n].calls[c].pc.ReadCache?
    ensures k0 < k1 < n && ActedAt(states, steps, c, k0, states[n].calls[c]) && states[k0].calls[c].pc.ReadSeen?
    ensures states[k0].sh.seen == states[n].calls[c].pc.startSeen
    ensures ActedAt(states, steps, c, k1, states[n].calls[c]) && states[k1].calls[c].pc.ReadStore?
    ensures states[k1].sh.db != [] && Head(states[k1].sh.db) == states[n].calls[c].pc.head
    ensures CurrentCoin(states[n].calls[c]) !in Store(states[k1].sh.db)
  {
    hide CallStep, CanStep, AdvanceAdder, CanAdvanceAdder, CanCommit, Store;
    var s, step := states[n - 1], steps[n - 1];
    if step == Act(c) {
      LookupSteps(s.sh, c, s.calls[c]);
      k0 := SeenRead(states, steps, n - 1, c);
      k1 := n - 1;
    } else {
      NotItsStep(s, step, c);
      k0, k1 := StoreAsked(states, steps, n - 1, c);
    }
  }

  /** And then the cache. */
  lemma {:induction false} CacheAsked(states: seq<State>, steps: seq<Step>, n: nat, c: nat)
    returns (k0: nat, k1: nat, k2: nat)
    requires IsRun(states, steps) && Initial(states[0]) && CallAt(states, n, c) && states[n].calls[c].pc.LockWaiter?
    ensures k0 < k1 < k2 < n && ActedAt(states, steps, c, k0, states[n].calls[c]) && states[k0].calls[c].pc.ReadSeen?
    ensures states[k0].sh.seen == states[n].calls[c].pc.startSeen
    ensures ActedAt(states, steps, c, k1, states[n].calls[c]) && states[k1].calls[c].pc.ReadStore?
    ensures states[k1].sh.db != [] && Head(states[k1].sh.db) == states[n].calls[c].pc.head
    ensures CurrentCoin(states[n].calls[c]) !in Store(states[k1].sh.db)
    ensures ActedAt(states, steps, c, k2, states[n].calls[c]) && states[k2].calls[c].pc.ReadCache?
    ensures CurrentCoin(states[n].calls[c]) !in states[k2].sh.cache
  {
    hide CallStep, CanStep, AdvanceAdder, CanAdvanceAdder, CanCommit, Store;
    var s, step := states[n - 1], steps[n - 1];
    if step == Act(c) {
      LookupSteps(s.sh, c, s.calls[c]);
      k0, k1 := StoreAsked(states, steps, n - 1, c);
      k2 := n - 1;
    } else {
      NotItsStep(s, step, c);
      k0, k1, k2 := CacheAsked(states, steps, n - 1, c);
    }
  }

  // ---------------------------------------------------------------- the waiter lock

  /** While a call holds the waiter lock no other call, nor the abort pass, can take a step that
      needs it, and the table and the channels stay as they are. */
  lemma LockExcludes(s: State, step: Step, c: nat)
    requires Enabled(s, step) && LockHeld(s) && s.sh.holder == Some(c) && step != Act(c)
    ensures Apply(s, step).sh.table == s.sh.table && Apply(s, step).sh.closed == s.sh.closed
    ensures step.Act? ==>
              var pc := s.calls[step.c].pc;
              !pc.LockWaiter? && !pc.GetEntry? && !pc.Consume? && !pc.CloseChannels?
    ensures step.Add? ==> !s.sh.adder.Abort?
  {
    hide Store, BlockCoins, CanCommit, CurrentCoin, WaitHash, RegisterWait, StepParse;
  }

  /** The head was read again, and the table has rested since. */
  lemma {:induction false} HeadReadAgain(states: seq<State>, steps: seq<Step>, n: nat, c: nat)
    returns (k0: nat, k1: nat, k2: nat, k3: nat)
    requires IsRun(states, steps) && Initial(states[0]) && CallAt(states, n, c) && states[n].calls[c].pc.Register?
    ensures k0 < k1 < k2 < k3 < n && ActedAt(states, steps, c, k0, states[n].calls[c])
    ensures states[k0].calls[c].pc.ReadSeen? && states[k0].sh.seen == states[n].calls[c].pc.startSeen
    ensures ActedAt(states, steps, c, k1, states[n].calls[c]) && states[k1].calls[c].pc.ReadStore?
    ensures CurrentCoin(states[n].calls[c]) !in Store(states[k1].sh.db)
    ensures ActedAt(states, steps, c, k2, states[n].calls[c]) && states[k2].calls[c].pc.ReadCache?
    ensures CurrentCoin(states[n].calls[c]) !in states[k2].sh.cache
    ensures ActedAt(states, steps, c, k3, states[n].calls[c]) && states[k3].calls[c].pc.LockWaiter?
    ensures states[k1].sh.db != [] && states[k3].sh.db != [] && Head(states[k1].sh.db) == Head(states[k3].sh.db)
    ensures states[n].sh.table == states[k3].sh.table && states[n].sh.closed == states[k3].sh.closed
  {
    hide CallStep, CanStep, AdvanceAdder, CanAdvanceAdder, CanCommit, Store;
    var s, step := states[n - 1], steps[n - 1];
    if step == Act(c) {
      LookupSteps(s.sh, c, s.calls[c]);
      RelockDecides(s, c);
      k0, k1, k2 := CacheAsked(states, steps, n - 1, c);
      k3 := n - 1;
    } else {
      NotItsStep(s, step, c);
      k0, k1, k2, k3 := HeadReadAgain(states, steps, n - 1, c);
      LockIsHeld(states, steps, n - 1, c);
      LockExcludes(s, step, c);
    }
  }

  lemma LockIsHeld(states: seq<State>, steps: seq<Step>, n: nat, c: nat)
    requires IsRun(states, steps) && Initial(states[0]) && CallAt(states, n, c) && states[n].calls[c].pc.Register?
    ensures LockHeld(states[n]) && states[n].sh.holder == Some(c)
  {
    hide Enabled, Apply, Initial, AllShaped, ChannelsOk, HeightsOk, AllHoldEntries, AllListenersCount;
    RunKeepsWaitInvariant(states, steps, n);
  }

  /** The call joins the entry of its coin: the coin is missing, and the lock is released. */
  predicate JoinsEntry(s: State, t: State, c: nat) {
    c in s.calls && c in t.calls && t.sh.holder == None && t.calls[c].level == s.calls[c].level
    && t.calls[c].remaining == s.calls[c].remaining + [CurrentCoin(s.calls[c])]
    && TransactionHash(CurrentCoin(s.calls[c])) in t.sh.table
  }

  /** The call starts the lookup of its coin again, and has changed nothing. */
  predicate StartsAgain(s: State, t: State, c: nat) {
    c in s.calls && t == State(s.sh.(holder := None), s.calls[c := s.calls[c].(pc := ReadSeen)])
  }

  /** In every run a call joins an entry only after the coin was found neither in the committed store
      nor, later, in the cache, while the head was the same before and after, and no block was
      counted from before the store was asked until now; if one was, it starts again. */
  lemma RegisteredUndisturbed(states: seq<State>, steps: seq<Step>, n: nat, c: nat)
    returns (k0: nat, k1: nat, k2: nat, k3: nat)
    requires IsRun(states, steps) && Initial(states[0]) && n < |steps|
    requires CallAt(states, n, c) && states[n].calls[c].pc.Register? && steps[n] == Act(c)
    ensures var coin := CurrentCoin(states[n].calls[c]);
            && k0 < k1 < k2 < k3 < n
            && ActedAt(states, steps, c, k0, states[n].calls[c]) && ActedAt(states, steps, c, k1, states[n].calls[c])
            && ActedAt(states, steps, c, k2, states[n].calls[c]) && ActedAt(states, steps, c, k3, states[n].calls[c])
            && coin !in Store(states[k1].sh.db) && coin !in states[k2].sh.cache
            && states[k1].sh.db != [] && states[k3].sh.db != [] && Head(states[k1].sh.db) == Head(states[k3].sh.db)
            && states[n].sh.table == states[k3].sh.table
    ensures if states[k0].sh.seen == states[n].sh.seen then JoinsEntry(states[n], states[n + 1], c)
            else StartsAgain(states[n], states[n + 1], c)
  {
    hide AdvanceAdder, CanAdvanceAdder, CanCommit, Store, CurrentCoin, TransactionHash;
    k0, k1, k2, k3 := HeadReadAgain(states, steps, n, c);
    RegisterDecides(states[n], c);
  }

  lemma RegisterDecides(s: State, c: nat)
    requires CanAdvance(s, c) && s.calls[c].pc.Register?
    ensures if s.calls[c].pc.startSeen == s.sh.seen then JoinsEntry(s, Advance(s, c), c)
            else StartsAgain(s, Advance(s, c), c)
  {
    hide CurrentCoin, TransactionHash;
  }

  // ---------------------------------------------------------------- aborted waits

  /** At step m the call left an aborted entry, at this level of the recursion. */
  ghost predicate SawAbort(states: seq<State>, steps: seq<Step>, c: nat, m: nat, level: nat) {
    && m < |steps| && m < |states| && steps[m] == Act(c) && c in states[m].calls
    && var call := states[m].calls[c];
       && call.pc.Consume? && call.level == level
       && WaitHash(call) in states[m].sh.table && states[m].sh.table[WaitHash(call)].aborted
  }

  ghost predicate SawAbortBefore(states: seq<State>, steps: seq<Step>, c: nat, n: nat, level: nat) {
    exists m: nat :: m < n && SawAbort(states, steps, c, m, level)
  }

  /** How a step changes level and flag: the flag gains the entry's as the call leaves it, and the
      level grows as findCoins calls itself, with the flag off. */
  lemma StepLevels(sh: Shared, c: nat, call: Call)
    requires CanStep(sh, call)
    ensures var after := CallStep(sh, c, call).call;
            && (call.pc.Consume? && WaitHash(call) in sh.table ==>
                  if after.pc.CheckHeader? then
                    after.level == call.level + 1 && !after.shouldAbort && after.asked == call.remaining
                    && !(call.shouldAbort || sh.table[WaitHash(call)].aborted)
                  else
                    after.level == call.level
                    && after.shouldAbort == (call.shouldAbort || sh.table[WaitHash(call)].aborted)
                    && (after.pc.OrphanHead? ==> after.shouldAbort))
            && (!call.pc.Consume? ==> after.level == call.level && after.shouldAbort == call.shouldAbort)
            && (after.pc.OrphanHead? ==> call.pc.CheckHeader? || call.pc.Consume?)
            && (call.pc.Consume? && WaitHash(call) !in sh.table ==> after == call.(pc := Failed))
  {
    hide Store, RegisterWait, Left, WaitHash, CurrentCoin, TransactionHash;
    if InLookups(call.pc) {
      LookupKeepsLevel(call);
    }
  }

  lemma LookupKeepsLevel(call: Call)
    ensures forall coin :: var after := Found(call, coin);
              after.level == call.level && after.shouldAbort == call.shouldAbort && !after.pc.OrphanHead?
    ensures var after := Missing(call);
            after.level == call.level && after.shouldAbort == call.shouldAbort && !after.pc.OrphanHead?
  {
  }

  /** Calls stay, and their level never falls. */
  lemma {:induction false} LevelsGrow(states: seq<State>, steps: seq<Step>, m: nat, n: nat, c: nat)
    requires IsRun(states, steps) && m <= n < |states| && c in states[m].calls
    ensures c in states[n].calls && states[m].calls[c].level <= states[n].calls[c].level
  {
    hide CallStep, CanStep, AdvanceAdder, CanAdvanceAdder, CanCommit;
    if m < n {
      LevelsGrow(states, steps, m, n - 1, c);
      if steps[n - 1] == Act(c) {
        StepLevels(states[n - 1].sh, c, states[n - 1].calls[c]);
      }
    }
  }

  /** In every run the flag of a call is set exactly if the current activation of findCoins has left an
      aborted entry. */
  lemma {:induction false} FlagIsHistory(states: seq<State>, steps: seq<Step>, n: nat, c: nat)
    requires IsRun(states, steps) && Initial(states[0]) && CallAt(states, n, c)
    ensures states[n].calls[c].shouldAbort <==> SawAbortBefore(states, steps, c, n, states[n].calls[c].level)
  {
    hide Enabled, Apply, Initial, SawAbort;
    if n == 0 {
      NoCallsAtFirst(states[0]);
    } else if c in states[n - 1].calls {
      FlagIsHistory(states, steps, n - 1, c);
      FlagStep(states, steps, n, c);
    } else {
      NewFlag(states[n - 1], steps[n - 1], c);
      NoEarlierAbort(states, steps, n, c, 0);
    }
  }

  lemma NoCallsAtFirst(s: State)
    requires Initial(s)
    ensures s.calls == map[]
  {
  }

  lemma NewFlag(s: State, step: Step, c: nat)
    requires Enabled(s, step) && c !in s.calls && c in Apply(s, step).calls
    ensures !Apply(s, step).calls[c].shouldAbort && Apply(s, step).calls[c].level == 0
  {
    hide CallStep, CanStep, AdvanceAdder, CanAdvanceAdder, CanCommit;
  }

  /** Before a call is started it has left nothing. */
  lemma NoEarlierAbort(states: seq<State>, steps: seq<Step>, n: nat, c: nat, level: nat)
    requires IsRun(states, steps) && 0 < n < |states| && c !in states[n - 1].calls
    ensures !SawAbortBefore(states, steps, c, n, level)
  {
    hide IsRun;
    forall m: nat | m < n
      ensures !SawAbort(states, steps, c, m, level)
    {
      if c in states[m].calls {
        LevelsGrow(states, steps, m, n - 1, c);
      }
    }
  }

  /** What one step adds to the history. */
  lemma FlagStep(states: seq<State>, steps: seq<Step>, n: nat, c: nat)
    requires IsRun(states, steps) && Initial(states[0]) && 0 < n && CallAt(states, n, c) && CallAt(states, n - 1, c)
    requires states[n - 1].calls[c].shouldAbort
             <==> SawAbortBefore(states, steps, c, n - 1, states[n - 1].calls[c].level)
    ensures states[n].calls[c].shouldAbort <==> SawAbortBefore(states, steps, c, n, states[n].calls[c].level)
  {
    hide CallStep, CanStep, AdvanceAdder, CanAdvanceAdder, CanCommit, WaitHash, Initial;
    var before, after := states[n - 1].calls[c], states[n].calls[c];
    if steps[n - 1] == Act(c) {
      StepLevels(states[n - 1].sh, c, before);
      if before.pc.Consume? {
        WaiterAlwaysFound(states, steps, n - 1, c);
      }
      if after.level != before.level {
        NoAbortAbove(states, steps, n, c);
      }
    }
    SplitHistory(states, steps, c, n, after.level);
  }

  lemma SplitHistory(states: seq<State>, steps: seq<Step>, c: nat, n: nat, level: nat)
    requires n > 0
    ensures SawAbortBefore(states, steps, c, n, level) <==>
              SawAbortBefore(states, steps, c, n - 1, level) || SawAbort(states, steps, c, n - 1, level)
  {
    hide SawAbort;
  }

  lemma NoAbortAbove(states: seq<State>, steps: seq<Step>, n: nat, c: nat)
    requires IsRun(states, steps) && 0 < n && CallAt(states, n, c) && CallAt(states, n - 1, c)
    requires states[n].calls[c].level > states[n - 1].calls[c].level
    ensures !SawAbortBefore(states, steps, c, n, states[n].calls[c].level)
  {
    hide IsRun;
    forall m: nat | m < n
      ensures !SawAbort(states, steps, c, m, states[n].calls[c].level)
    {
      if c in states[m].calls {
        LevelsGrow(states, steps, m, n - 1, c);
      }
    }
  }

  /** As a call leaves its last entry it reports an orphaned head exactly if one of the entries it left
      in this activation was aborted, whichever it was; else findCoins calls itself with the coins
      that were missing. */
  lemma AbortIsReported(states: seq<State>, steps: seq<Step>, n: nat, c: nat)
    requires IsRun(states, steps) && Initial(states[0]) && n < |steps| && steps[n] == Act(c) && CallAt(states, n, c)
    requires states[n].calls[c].pc.Consume? && states[n].calls[c].waited + 1 == |states[n].calls[c].remaining|
    ensures var before, after := states[n].calls[c], states[n + 1].calls[c];
            if SawAbortBefore(states, steps, c, n + 1, before.level) then after.pc.OrphanHead?
            else after.pc.CheckHeader? && after.level == before.level + 1 && after.asked == before.remaining
  {
    hide Initial, SawAbort, Left, WaitHash, CallStep, CanStep, AdvanceAdder, CanAdvanceAdder, CanCommit;
    FlagIsHistory(states, steps, n, c);
    WaiterAlwaysFound(states, steps, n, c);
    SplitHistory(states, steps, c, n + 1, states[n].calls[c].level);
    LastEntryLeft(states[n], c);
    assert SawAbort(states, steps, c, n, states[n].calls[c].level)
        <==> states[n].sh.table[WaitHash(states[n].calls[c])].aborted by { SawsIt(states, steps, n, c); }
  }

  lemma SawsIt(states: seq<State>, steps: seq<Step>, n: nat, c: nat)
    requires n < |steps| && CallAt(states, n, c) && steps[n] == Act(c)
    requires states[n].calls[c].pc.Consume? && WaitHash(states[n].calls[c]) in states[n].sh.table
    ensures SawAbort(states, steps, c, n, states[n].calls[c].level)
            <==> states[n].sh.table[WaitHash(states[n].calls[c])].aborted
  {
  }

  lemma LastEntryLeft(s: State, c: nat)
    requires CanAdvance(s, c) && s.calls[c].pc.Consume?
    requires WaitHash(s.calls[c]) in s.sh.table && s.calls[c].waited + 1 == |s.calls[c].remaining|
    ensures var before, after := s.calls[c], Advance(s, c).calls[c];
            if before.shouldAbort || s.sh.table[WaitHash(before)].aborted then after.pc.OrphanHead?
            else after.pc.CheckHeader? && after.level == before.level + 1 && after.asked == before.remaining
  {
    hide WaitHash, Left;
  }

  /** And in no other way does a call come to report an orphaned head, but by the header check. */
  lemma {:induction false} OrphanHasACause(states: seq<State>, steps: seq<Step>, n: nat, c: nat) returns (k: nat)
    requires IsRun(states, steps) && Initial(states[0]) && CallAt(states, n, c) && states[n].calls[c].pc.OrphanHead?
    ensures k < n && steps[k] == Act(c) && c in states[k].calls && states[k].calls[c].raw == states[n].calls[c].raw
    ensures (states[k].calls[c].pc.CheckHeader? && OffTheHead(states[k].sh.db, states[k].calls[c].raw))
         || SawAbort(states, steps, c, k, states[n].calls[c].level)
  {
    hide CallStep, CanStep, AdvanceAdder, CanAdvanceAdder, CanCommit, OffTheHead, SawAbort;
    var s, step := states[n - 1], steps[n - 1];
    if step == Act(c) {
      var call := s.calls[c];
      RunsKeepBlocks(states, steps, n - 1, c);
      StepStaysIn(s.sh, c, call);
      StepLevels(s.sh, c, call);
      if call.pc.CheckHeader? {
        RunKeepsWaitInvariant(states, steps, n - 1);
        CheckDecides(s, c);
        k := n - 1;
      } else {
        WaiterAlwaysFound(states, steps, n - 1, c);
        FlagIsHistory(states, steps, n, c);
        k :| k < n && SawAbort(states, steps, c, k, states[n].calls[c].level);
        RawStays(states, steps, k, n, c);
      }
    } else {
      OrphanWas(s, step, c);
      k := OrphanHasACause(states, steps, n - 1, c);
    }
  }

  lemma OrphanWas(s: State, step: Step, c: nat)
    requires Enabled(s, step) && step != Act(c) && c in Apply(s, step).calls && Apply(s, step).calls[c].pc.OrphanHead?
    ensures c in s.calls && s.calls[c] == Apply(s, step).calls[c]
  {
    hide CallStep, CanStep, AdvanceAdder, CanAdvanceAdder, CanCommit;
  }

  lemma {:induction false} RawStays(states: seq<State>, steps: seq<Step>, m: nat, n: nat, c: nat)
    requires IsRun(states, steps) && Initial(states[0]) && m <= n < |states|
    requires exists level :: SawAbort(states, steps, c, m, level)
    ensures c in states[m].calls && c in states[n].calls && steps[m] == Act(c)
    ensures states[m].calls[c].raw == states[n].calls[c].raw
  {
    hide CallStep, CanStep, AdvanceAdder, CanAdvanceAdder, CanCommit, WaitHash;
    if m < n {
      RawStays(states, steps, m, n - 1, c);
      if steps[n - 1] == Act(c) {
        RunsKeepBlocks(states, steps, n - 1, c);
        StepStaysIn(states[n - 1].sh, c, states[n - 1].calls[c]);
      }
    }
  }
}
