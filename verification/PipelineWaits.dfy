/**
 What every step of the pipeline keeps of the wait table: an entry's listeners are exactly
 the registered waits nobody has consumed yet, so no live entry is deleted, no wait finds its
 entry gone, and no channel is closed twice. No assumption is made on the blocks, on reorgs,
 or on calls that return early.
 */
module PipelineWaits {
  import opened Wrappers
  import opened Blocks
  import opened CoinIds
  import opened BlockParser
  import opened CoinFetching
  import opened CoinLedger
  import opened Pipeline

  // ---------------------------------------------------------------- calls

  predicate InLookups(pc: Pc) {
    pc.ReadSeen? || pc.ReadStore? || pc.ReadCache? || pc.LockWaiter? || pc.Register?
  }

  predicate InWaits(pc: Pc) { pc.GetEntry? || pc.Receive? || pc.Consume? }

  predicate Returned(pc: Pc) {
    pc.Parse? || pc.Publish? || pc.Bump? || pc.StoreSeen? || pc.CloseChannels? || pc.SeenDone?
  }

  /** Where the two loops of findCoins stand at each program counter. */
  predicate Shaped(call: Call) {
    && call.next <= |call.asked| && call.waited <= |call.remaining|
    && (call.pc.CheckHeader? ==> call.next == 0 && call.remaining == [] && call.coinMap == map[])
    && (InLookups(call.pc) ==> call.next < |call.asked| && call.waited == 0)
    && (InWaits(call.pc) ==> call.next == |call.asked| && call.waited < |call.remaining|)
    && (Returned(call.pc) ==> call.remaining == [])
    && (call.pc.OrphanHead? ==> call.waited == |call.remaining|)
  }

  ghost predicate AllShaped(s: State) {
    forall c :: c in s.calls ==> Shaped(s.calls[c])
  }

  /** The waiter lock is held by exactly the call that is about to register. */
  ghost predicate LockHeld(s: State) {
    && (forall c :: c in s.calls && s.calls[c].pc.Register? ==> s.sh.holder == Some(c))
    && (s.sh.holder.Some? ==> s.sh.holder.value in s.calls && s.calls[s.sh.holder.value].pc.Register?)
  }

  // ---------------------------------------------------------------- waits

  /** Wait i of call c is registered on the hash and not consumed. */
  predicate IsWait(s: State, c: nat, i: nat, hash: string) {
    c in s.calls && s.calls[c].waited <= i < |s.calls[c].remaining| && TransactionHash(s.calls[c].remaining[i]) == hash
  }

  /** All of them. The waits of a call that returned early stay in this set. */
  ghost function Waits(s: State, hash: string): set<(nat, nat)> {
    set c, i | c in s.calls && s.calls[c].waited <= i < |s.calls[c].remaining| && IsWait(s, c, i, hash) :: (c, i)
  }

  /** Those of calls that are still running. */
  ghost function LiveWaits(s: State, hash: string): set<(nat, nat)> {
    set w | w in Waits(s, hash) && !s.calls[w.0].pc.Failed?
  }

  /** The listeners of an entry are its waits, and there is an entry only if there are waits. */
  ghost predicate ListenersCount(s: State, hash: string) {
    if hash in s.sh.table then s.sh.table[hash].listeners == |Waits(s, hash)| && Waits(s, hash) != {}
    else Waits(s, hash) == {}
  }

  ghost predicate AllListenersCount(s: State) {
    forall hash :: ListenersCount(s, hash)
  }

  // ---------------------------------------------------------------- channels

  predicate EntryChannel(e: Entry, closed: set<nat>, nextChannel: nat) {
    && e.channel < nextChannel
    && (e.channelClosed <==> e.channel in closed)
    && (e.aborted ==> e.channelClosed)
  }

  ghost predicate ChannelsOk(sh: Shared) {
    && (forall h :: h in sh.table ==> EntryChannel(sh.table[h], sh.closed, sh.nextChannel))
    && (forall g, h :: g in sh.table && h in sh.table && g != h ==> sh.table[g].channel != sh.table[h].channel)
    && (forall x :: x in sh.closed ==> x < sh.nextChannel)
    && !sh.doubleClose
  }

  /** earliestBlock is the least height ever registered on the entry. */
  predicate EntryHeights(e: Entry, heights: map<nat, set<int>>) {
    && e.channel in heights
    && e.earliestBlock in heights[e.channel]
    && forall x :: x in heights[e.channel] ==> e.earliestBlock <= x
  }

  ghost predicate HeightsOk(sh: Shared) {
    && (forall h :: h in sh.table ==> EntryHeights(sh.table[h], sh.heights))
    && (forall x :: x in sh.heights ==> x < sh.nextChannel)
  }

  /** A call that has fetched its entry's channel waits on the entry that is still in the table. */
  predicate HoldsEntry(call: Call, table: Table, closed: set<nat>) {
    && (call.pc.Receive? ==> WaitHash(call) in table && table[WaitHash(call)].channel == call.pc.channel)
    && (call.pc.Consume? ==> WaitHash(call) in table && table[WaitHash(call)].channel in closed)
  }

  ghost predicate AllHoldEntries(s: State) {
    forall c :: c in s.calls ==> HoldsEntry(s.calls[c], s.sh.table, s.sh.closed)
  }

  ghost predicate WaitInvariant(s: State) {
    && AllShaped(s) && LockHeld(s) && AllListenersCount(s) && TableOk(s.sh) && AllHoldEntries(s)
  }

  // ---------------------------------------------------------------- the shape of calls

  lemma LookupShape(call: Call, coin: AccountCoin)
    requires Shaped(call) && InLookups(call.pc)
    ensures Shaped(Found(call, coin)) && Shaped(Missing(call))
  {
    hide CurrentCoin;
  }

  lemma WokenShape(call: Call, aborted: bool)
    requires Shaped(call) && InWaits(call.pc)
    ensures Shaped(Woken(call, aborted))
  {
  }

  lemma LookupStepShape(sh: Shared, c: nat, call: Call)
    requires CanStep(sh, call) && Shaped(call) && InLookups(call.pc)
    ensures Shaped(CallStep(sh, c, call).call)
  {
    hide Store, CurrentCoin, Found, Missing, Head, RegisterWait;
    var id := CurrentCoin(call);
    if call.pc.ReadStore? && sh.db != [] && id in Store(sh.db) {
      LookupShape(call, Store(sh.db)[id]);
    } else if call.pc.ReadCache? && id in sh.cache {
      LookupShape(call, sh.cache[id]);
    } else if call.pc.Register? {
      LookupShape(call, AccountCoin("", "", 0));
    }
  }

  lemma WaitStepShape(sh: Shared, c: nat, call: Call)
    requires CanStep(sh, call) && Shaped(call) && InWaits(call.pc)
    ensures Shaped(CallStep(sh, c, call).call)
  {
    hide WaitHash, Woken, Left;
    if call.pc.Consume? && WaitHash(call) in sh.table {
      WokenShape(call, sh.table[WaitHash(call)].aborted);
    }
  }

  lemma StepShape(sh: Shared, c: nat, call: Call)
    requires CanStep(sh, call) && Shaped(call)
    ensures Shaped(CallStep(sh, c, call).call)
  {
    hide StepReadStore, StepReadCache, StepLockWaiter, StepRegister, StepGetEntry, StepConsume, HeaderMatches,
      ParsedBlock, PublishCoins, CloseSeen;
    if InLookups(call.pc) {
      LookupStepShape(sh, c, call);
    } else if InWaits(call.pc) {
      WaitStepShape(sh, c, call);
    }
  }

  /** A call's waits change only when it registers one or consumes one. */
  lemma StepKeepsWaits(sh: Shared, c: nat, call: Call)
    requires CanStep(sh, call) && !call.pc.Register? && !call.pc.Consume?
    ensures SameActivation(call, CallStep(sh, c, call).call)
    ensures CallStep(sh, c, call).call.remaining == call.remaining
  {
    hide ParsedBlock, HeaderMatches, PublishCoins, CloseSeen, StepReadStore, StepReadCache, StepLockWaiter,
      StepRegister, StepConsume, StepGetEntry, EndLookups;
    if InLookups(call.pc) || call.pc.GetEntry? {
      SearchKeepsWaits(sh, c, call);
    }
  }

  lemma SearchKeepsWaits(sh: Shared, c: nat, call: Call)
    requires CanStep(sh, call) && (InLookups(call.pc) || call.pc.GetEntry?) && !call.pc.Register?
    ensures SameActivation(call, CallStep(sh, c, call).call)
    ensures CallStep(sh, c, call).call.remaining == call.remaining
  {
    hide Store, CurrentCoin, WaitHash, Head, Found, PublishCoins, CloseSeen, StepRegister, StepConsume, StepCheckHeader,
      StepParse;
  }

  /** Most steps leave the shared state alone. */
  lemma StepKeepsShared(sh: Shared, c: nat, call: Call)
    requires CanStep(sh, call) && !call.pc.LockWaiter? && !call.pc.Register? && !call.pc.Consume?
    requires !call.pc.Publish? && !call.pc.Bump? && !call.pc.CloseChannels?
    ensures CallStep(sh, c, call).sh == sh
    ensures !CallStep(sh, c, call).call.pc.Register?
  {
    hide Store, ParsedBlock, CurrentCoin, WaitHash, HeaderMatches, Head, PublishCoins, CloseSeen, StepLockWaiter,
      StepRegister, StepConsume, Found, EndLookups;
  }

  /** The lock is taken only by a step that leaves the call about to register, and released by
      its next step. */
  lemma StepHolder(sh: Shared, c: nat, call: Call)
    requires CanStep(sh, call)
    requires call.pc.Consume? ==> WaitHash(call) in sh.table
    ensures var m := CallStep(sh, c, call);
            if m.call.pc.Register? then m.sh.holder == Some(c) && sh.holder == None
            else m.sh.holder == if call.pc.Register? then None else sh.holder
  {
    hide StepCheckHeader, StepReadStore, StepReadCache, StepGetEntry, StepParse, Missing, Woken, Joined, Left,
      WaitHash, BlockCoins, ToClose, CloseAll, Channels, ClosesOnce, Head;
    if !MayWrite(call.pc) {
      StepKeepsShared(sh, c, call);
    }
  }

  // ---------------------------------------------------------------- the table

  predicate SameTable(a: Shared, b: Shared) {
    && a.table == b.table && a.closed == b.closed && a.nextChannel == b.nextChannel
    && a.doubleClose == b.doubleClose && a.heights == b.heights
  }

  lemma SameTableOk(a: Shared, b: Shared)
    requires SameTable(a, b) && TableOk(a)
    ensures TableOk(b)
  {
    hide EntryChannel, EntryHeights;
    assert forall h :: h in b.table ==>
             EntryChannel(a.table[h], a.closed, a.nextChannel) && EntryHeights(a.table[h], a.heights);
  }

  lemma StepKeepsTable(sh: Shared, c: nat, call: Call)
    requires CanStep(sh, call) && !call.pc.Register? && !call.pc.Consume? && !call.pc.CloseChannels?
    ensures SameTable(sh, CallStep(sh, c, call).sh)
  {
    hide StepCheckHeader, StepReadStore, StepReadCache, StepGetEntry, StepParse, BlockCoins, Head, StepRegister,
      StepConsume, CloseSeen;
    if !(call.pc.LockWaiter? || call.pc.Publish? || call.pc.Bump?) {
      StepKeepsShared(sh, c, call);
    }
  }

  /** A waiting call is in the waits of its hash, so its entry is there. */
  lemma WaiterHasEntry(s: State, c: nat)
    requires AllListenersCount(s) && c in s.calls && Shaped(s.calls[c]) && InWaits(s.calls[c].pc)
    ensures (c, s.calls[c].waited) in Waits(s, WaitHash(s.calls[c]))
    ensures WaitHash(s.calls[c]) in s.sh.table
  {
    hide TransactionHash;
    assert IsWait(s, c, s.calls[c].waited, WaitHash(s.calls[c]));
    assert ListenersCount(s, WaitHash(s.calls[c]));
  }

  /** States whose calls have the same waits, in tables with the same listeners. */
  lemma SameWaitsCount(s: State, s': State)
    requires AllListenersCount(s)
    requires forall c, i, hash :: IsWait(s, c, i, hash) <==> IsWait(s', c, i, hash)
    requires s'.sh.table.Keys == s.sh.table.Keys
    requires forall h :: h in s.sh.table ==> s'.sh.table[h].listeners == s.sh.table[h].listeners
    ensures AllListenersCount(s')
  {
    hide TransactionHash;
    forall hash
      ensures ListenersCount(s', hash)
    {
      assert ListenersCount(s, hash);
      forall c: nat, i: nat
        ensures (c, i) in Waits(s', hash) <==> (c, i) in Waits(s, hash)
      {
        assert IsWait(s, c, i, hash) <==> IsWait(s', c, i, hash);
      }
      assert Waits(s', hash) == Waits(s, hash);
    }
  }

  /** Changing one call without changing its waits changes nobody's waits. */
  lemma SetCallKeepsWaits(s: State, c: nat, call: Call, sh: Shared)
    requires c in s.calls && call.remaining == s.calls[c].remaining && call.waited == s.calls[c].waited
    ensures forall x, i, hash :: IsWait(s, x, i, hash) <==> IsWait(State(sh, s.calls[c := call]), x, i, hash)
  {
    hide TransactionHash;
  }

  lemma RegisteredWaits(s: State, c: nat, call: Call, sh: Shared, coin: string, hash: string)
    requires c in s.calls && s.calls[c].waited == 0 == call.waited && call.remaining == s.calls[c].remaining + [coin]
    ensures var s' := State(sh, s.calls[c := call]);
            Waits(s', hash) ==
              if hash == TransactionHash(coin) then Waits(s, hash) + {(c, |s.calls[c].remaining|)}
              else Waits(s, hash)
    ensures (c, |s.calls[c].remaining|) !in Waits(s, hash)
  {
    hide TransactionHash;
    var s' := State(sh, s.calls[c := call]);
    var n := |s.calls[c].remaining|;
    forall x, i
      ensures IsWait(s', x, i, hash) <==> IsWait(s, x, i, hash) || (x == c && i == n && hash == TransactionHash(coin))
    {
    }
  }

  /** Registering a wait adds one listener to one entry. */
  lemma RegisterCounts(s: State, c: nat)
    requires AllListenersCount(s) && c in s.calls && Shaped(s.calls[c]) && s.calls[c].pc.Register?
    requires s.sh.seen == s.calls[c].pc.startSeen
    ensures AllListenersCount(Advance(s, c))
  {
    hide TransactionHash, IsWait, Waits, Missing, CurrentCoin;
    var call := s.calls[c];
    var s' := Advance(s, c);
    var coin := CurrentCoin(call);
    forall hash
      ensures ListenersCount(s', hash)
    {
      assert ListenersCount(s, hash);
      RegisteredWaits(s, c, s'.calls[c], s'.sh, coin, hash);
    }
  }

  lemma ConsumedWaits(s: State, c: nat, call: Call, sh: Shared, hash: string)
    requires c in s.calls && s.calls[c].waited < |s.calls[c].remaining|
    requires (call.remaining == s.calls[c].remaining && call.waited == s.calls[c].waited + 1)
          || (s.calls[c].waited + 1 == |s.calls[c].remaining| && call.remaining == [] && call.waited == 0)
    ensures var s' := State(sh, s.calls[c := call]);
            Waits(s', hash) == Waits(s, hash) - {(c, s.calls[c].waited)}
    ensures (c, s.calls[c].waited) in Waits(s, hash) <==> hash == WaitHash(s.calls[c])
  {
    hide TransactionHash;
    var s' := State(sh, s.calls[c := call]);
    forall x, i
      ensures IsWait(s', x, i, hash) <==> IsWait(s, x, i, hash) && !(x == c && i == s.calls[c].waited)
    {
    }
    assert IsWait(s, c, s.calls[c].waited, hash) <==> hash == WaitHash(s.calls[c]);
  }

  lemma WokenWaits(call: Call, aborted: bool)
    requires Shaped(call) && InWaits(call.pc)
    ensures var call' := Woken(call, aborted);
            || (call'.remaining == call.remaining && call'.waited == call.waited + 1)
            || (call.waited + 1 == |call.remaining| && call'.remaining == [] && call'.waited == 0)
  {
  }

  /** Consuming a wait removes one listener from one entry, and the entry with its last one. */
  lemma ConsumeCounts(s: State, c: nat)
    requires AllListenersCount(s) && c in s.calls && Shaped(s.calls[c]) && s.calls[c].pc.Consume? && CanAdvance(s, c)
    ensures WaitHash(s.calls[c]) in s.sh.table
    ensures AllListenersCount(Advance(s, c))
  {
    hide TransactionHash, IsWait, Waits, Woken, WaitHash;
    WaiterHasEntry(s, c);
    var call := s.calls[c];
    WokenWaits(call, s.sh.table[WaitHash(call)].aborted);
    var s' := Advance(s, c);
    forall hash
      ensures ListenersCount(s', hash)
    {
      assert ListenersCount(s, hash);
      ConsumedWaits(s, c, s'.calls[c], s'.sh, hash);
      if hash == WaitHash(call) {
        assert Waits(s', hash) + {(c, call.waited)} == Waits(s, hash);
      } else {
        assert Waits(s', hash) == Waits(s, hash);
      }
    }
  }

  // ---------------------------------------------------------------- channels and heights

  /** What the table alone must satisfy. */
  ghost predicate TableOk(sh: Shared) {
    ChannelsOk(sh) && HeightsOk(sh)
  }

  lemma RegisterKeepsTable(sh: Shared, hash: string, height: int)
    requires TableOk(sh)
    ensures TableOk(RegisterWait(sh, hash, height))
    ensures sh.table.Keys <= RegisterWait(sh, hash, height).table.Keys
    ensures forall h :: h in sh.table ==> RegisterWait(sh, hash, height).table[h].channel == sh.table[h].channel
    ensures RegisterWait(sh, hash, height).closed == sh.closed
  {
  }

  lemma LeaveKeepsTable(sh: Shared, hash: string)
    requires TableOk(sh) && hash in sh.table
    ensures TableOk(sh.(table := Left(sh.table, hash)))
    ensures forall h :: h in Left(sh.table, hash) ==>
              h in sh.table && Left(sh.table, hash)[h].channel == sh.table[h].channel
  {
  }

  /** Closing entries whose channels are open closes each channel for the first time. */
  lemma CloseKeepsTable(sh: Shared, hashes: set<string>, aborting: bool)
    requires TableOk(sh)
    requires forall h :: h in hashes ==> h in sh.table && !sh.table[h].channelClosed
    ensures ClosesOnce(sh.table, sh.closed, hashes)
    ensures TableOk(CloseEntries(sh, hashes, aborting))
    ensures CloseEntries(sh, hashes, aborting).table.Keys == sh.table.Keys
    ensures forall h :: h in sh.table ==>
              CloseEntries(sh, hashes, aborting).table[h].channel == sh.table[h].channel
              && CloseEntries(sh, hashes, aborting).table[h].listeners == sh.table[h].listeners
    ensures sh.closed <= CloseEntries(sh, hashes, aborting).closed
  {
    var sh' := CloseEntries(sh, hashes, aborting);
    forall h | h in sh'.table
      ensures EntryChannel(sh'.table[h], sh'.closed, sh'.nextChannel)
      ensures EntryHeights(sh'.table[h], sh'.heights)
    {
      assert EntryChannel(sh.table[h], sh.closed, sh.nextChannel) && EntryHeights(sh.table[h], sh.heights);
    }
  }

  // ---------------------------------------------------------------- the invariant is kept

  /** The table kept every entry a call may hold, with its channel. */
  ghost predicate KeepsEntries(s: State, s': State, x: nat) {
    x in s.calls && InWaits(s.calls[x].pc) && WaitHash(s.calls[x]) in s.sh.table ==>
      WaitHash(s.calls[x]) in s'.sh.table
      && s'.sh.table[WaitHash(s.calls[x])].channel == s.sh.table[WaitHash(s.calls[x])].channel
  }

  /** A call that did not move still holds its entry. */
  lemma OthersHoldEntries(s: State, s': State)
    requires AllHoldEntries(s) && s.sh.closed <= s'.sh.closed
    requires forall x :: x in s.calls && x in s'.calls && s'.calls[x] == s.calls[x] ==> KeepsEntries(s, s', x)
    ensures forall x :: x in s.calls && x in s'.calls && s'.calls[x] == s.calls[x] ==>
              HoldsEntry(s'.calls[x], s'.sh.table, s'.sh.closed)
  {
    hide WaitHash;
    forall x | x in s.calls && x in s'.calls && s'.calls[x] == s.calls[x]
      ensures HoldsEntry(s'.calls[x], s'.sh.table, s'.sh.closed)
    {
      assert HoldsEntry(s.calls[x], s.sh.table, s.sh.closed) && KeepsEntries(s, s', x);
    }
  }

  lemma NotWaitingAfter(sh: Shared, c: nat, call: Call)
    requires CanStep(sh, call) && !InWaits(call.pc) && !call.pc.Register? && !call.pc.CloseChannels?
    ensures var pc := CallStep(sh, c, call).call.pc;
            !pc.Receive? && !pc.Consume?
  {
    hide BlockCoins, Head, StepRegister, StepConsume, CloseSeen, PublishCoins, EndLookups, Found, HeaderMatches,
      Store, ParsedBlock, WaitHash, CurrentCoin;
  }

  lemma NotWaitingHolds(call: Call, sh: Shared)
    requires !call.pc.Receive? && !call.pc.Consume?
    ensures HoldsEntry(call, sh.table, sh.closed)
  {
  }

  /** A step that leaves the table alone: the call still holds its entry. */
  lemma QuietCallHolds(sh: Shared, c: nat, call: Call)
    requires CanStep(sh, call) && HoldsEntry(call, sh.table, sh.closed)
    requires !call.pc.Register? && !call.pc.Consume? && !call.pc.CloseChannels?
    ensures var m := CallStep(sh, c, call);
            HoldsEntry(m.call, m.sh.table, m.sh.closed)
  {
    hide TransactionHash, StepCheckHeader, StepReadStore, StepReadCache, StepLockWaiter, StepRegister, StepConsume,
      StepParse, PublishCoins, CloseSeen;
    if !InWaits(call.pc) {
      NotWaitingAfter(sh, c, call);
    }
  }

  lemma InitialWaits(s: State)
    requires Initial(s)
    ensures WaitInvariant(s)
  {
    forall hash
      ensures ListenersCount(s, hash)
    {
      assert Waits(s, hash) == {};
    }
  }

  lemma ActKeepsLock(s: State, c: nat)
    requires WaitInvariant(s) && CanAdvance(s, c)
    ensures AllShaped(Advance(s, c)) && LockHeld(Advance(s, c))
  {
    hide CallStep, CanStep, Shaped, TableOk, AllHoldEntries, AllListenersCount, WaitHash;
    assert Shaped(s.calls[c]);
    if s.calls[c].pc.Consume? {
      ConsumeCounts(s, c);
    }
    StepShape(s.sh, c, s.calls[c]);
    StepHolder(s.sh, c, s.calls[c]);
  }

  lemma QuietActKeepsWaits(s: State, c: nat)
    requires WaitInvariant(s) && CanAdvance(s, c)
    requires !s.calls[c].pc.Register? && !s.calls[c].pc.Consume? && !s.calls[c].pc.CloseChannels?
    ensures var s' := Advance(s, c);
            AllListenersCount(s') && TableOk(s'.sh) && AllHoldEntries(s')
  {
    hide CallStep, CanStep, Shaped, LockHeld, ListenersCount, HoldsEntry, EntryChannel, EntryHeights;
    var s' := Advance(s, c);
    StepKeepsTable(s.sh, c, s.calls[c]);
    SameTableOk(s.sh, s'.sh);
    StepKeepsWaits(s.sh, c, s.calls[c]);
    SetCallKeepsWaits(s, c, s'.calls[c], s'.sh);
    SameWaitsCount(s, s');
    QuietCallHolds(s.sh, c, s.calls[c]);
  }

  lemma RegisterKeepsWaits(s: State, c: nat)
    requires WaitInvariant(s) && CanAdvance(s, c) && s.calls[c].pc.Register?
    ensures var s' := Advance(s, c);
            AllListenersCount(s') && TableOk(s'.sh) && AllHoldEntries(s')
  {
    hide ListenersCount, HoldsEntry, EntryChannel, EntryHeights, LockHeld, Missing, CurrentCoin, TransactionHash,
      RegisterWait, WaitHash, TableOk;
    var s' := Advance(s, c);
    var call := s.calls[c];
    if s.sh.seen != call.pc.startSeen {
      SetCallKeepsWaits(s, c, s'.calls[c], s'.sh);
      SameWaitsCount(s, s');
      SameTableOk(s.sh, s'.sh);
    } else {
      RegisterCounts(s, c);
      RegisterKeepsTable(s.sh, TransactionHash(CurrentCoin(call)), call.raw.height);
    }
    OthersHoldEntries(s, s');
    NotWaitingHolds(s'.calls[c], s'.sh);
  }

  lemma ConsumeKeepsWaits(s: State, c: nat)
    requires WaitInvariant(s) && CanAdvance(s, c) && s.calls[c].pc.Consume?
    ensures var s' := Advance(s, c);
            AllListenersCount(s') && TableOk(s'.sh) && AllHoldEntries(s')
  {
    hide ListenersCount, HoldsEntry, TableOk, LockHeld, Woken, TransactionHash, WaitHash, Left, Waits, Shaped;
    var s' := Advance(s, c);
    var call := s.calls[c];
    assert Shaped(call);
    ConsumeCounts(s, c);
    LeaveKeepsTable(s.sh, WaitHash(call));
    forall x | x in s.calls
      ensures x != c ==> KeepsEntries(s, s', x)
    {
      if x != c && InWaits(s.calls[x].pc) {
        assert Shaped(s.calls[x]);
        WaiterHasEntry(s', x);
      }
    }
    OthersHoldEntries(s, s');
    NotWaitingHolds(s'.calls[c], s'.sh);
  }

  /** BlockSeen's close pass and BlockAdded's abort pass. */
  lemma CloseKeepsWaits(s: State, s': State, hashes: set<string>, aborting: bool)
    requires WaitInvariant(s)
    requires forall h :: h in hashes ==> h in s.sh.table && !s.sh.table[h].channelClosed
    requires SameTable(s'.sh, CloseEntries(s.sh, hashes, aborting))
    requires forall x :: x in s.calls <==> x in s'.calls
    requires forall x, i, hash :: IsWait(s, x, i, hash) <==> IsWait(s', x, i, hash)
    ensures AllListenersCount(s') && TableOk(s'.sh)
    ensures forall x :: x in s.calls && s'.calls[x] == s.calls[x] ==> HoldsEntry(s'.calls[x], s'.sh.table, s'.sh.closed)
  {
    hide IsWait, HoldsEntry, EntryChannel, EntryHeights, LockHeld, ListenersCount, CloseEntries, WaitHash, Shaped;
    CloseKeepsTable(s.sh, hashes, aborting);
    SameWaitsCount(s, s');
    OthersHoldEntries(s, s');
  }

  lemma CloseActKeepsWaits(s: State, c: nat)
    requires WaitInvariant(s) && CanAdvance(s, c) && s.calls[c].pc.CloseChannels?
    ensures var s' := Advance(s, c);
            AllListenersCount(s') && TableOk(s'.sh) && AllHoldEntries(s')
  {
    hide HoldsEntry, TableOk, LockHeld, AllListenersCount, CloseEntries, IsWait, AllShaped, TxHashes;
    var s' := Advance(s, c);
    SetCallKeepsWaits(s, c, s'.calls[c], s'.sh);
    CloseKeepsWaits(s, s', ToClose(s.sh.table, TxHashes(s.calls[c].pc.b)), false);
    NotWaitingHolds(s'.calls[c], s'.sh);
  }

  lemma ActKeepsWaits(s: State, c: nat)
    requires WaitInvariant(s) && CanAdvance(s, c)
    ensures WaitInvariant(Advance(s, c))
  {
    hide CallStep, CanStep, AllListenersCount, TableOk, AllHoldEntries, AllShaped, LockHeld;
    ActKeepsLock(s, c);
    if s.calls[c].pc.Register? {
      RegisterKeepsWaits(s, c);
    } else if s.calls[c].pc.Consume? {
      ConsumeKeepsWaits(s, c);
    } else if s.calls[c].pc.CloseChannels? {
      CloseActKeepsWaits(s, c);
    } else {
      QuietActKeepsWaits(s, c);
    }
  }

  /** A call begins, or ends early: its waits are none, or stay where they are. */
  lemma OtherStepsKeepWaits(s: State, step: Step)
    requires WaitInvariant(s) && Enabled(s, step) && !step.Act? && !step.Add?
    ensures WaitInvariant(Apply(s, step))
  {
    hide ListenersCount, TableOk, TransactionHash, FetchList, Head, CanCommit, WaitHash;
    var s' := Apply(s, step);
    assert forall x, i, hash :: IsWait(s, x, i, hash) <==> IsWait(s', x, i, hash);
    SameWaitsCount(s, s');
    SameTableOk(s.sh, s'.sh);
  }

  lemma EvictKeepsWaits(s: State)
    requires WaitInvariant(s) && Enabled(s, Add) && s.sh.adder.Evict?
    ensures WaitInvariant(Apply(s, Add))
  {
    hide ListenersCount, TableOk, TransactionHash, HoldsEntry, BlockCoins, Shaped;
    var s' := Apply(s, Add);
    SameWaitsCount(s, s');
    SameTableOk(s.sh, s'.sh);
  }

  lemma AbortKeepsWaits(s: State)
    requires WaitInvariant(s) && Enabled(s, Add) && s.sh.adder.Abort?
    ensures WaitInvariant(Apply(s, Add))
  {
    hide ListenersCount, TableOk, TransactionHash, HoldsEntry, CloseAll, ClosesOnce, Channels, Shaped;
    var s' := Apply(s, Add);
    assert forall x, i, hash :: IsWait(s, x, i, hash) <==> IsWait(s', x, i, hash);
    CloseKeepsWaits(s, s', ToAbort(s.sh.table, s.sh.adder.b.id.index + 1), true);
  }

  /** Every step of every interleaving keeps the wait invariant. */
  lemma StepKeepsWaitInvariant(s: State, step: Step)
    requires WaitInvariant(s) && Enabled(s, step)
    ensures WaitInvariant(Apply(s, step))
  {
    hide WaitInvariant, Advance, CanAdvance, AdvanceAdder;
    match step {
      case Act(c) => ActKeepsWaits(s, c);
      case Add =>
        if s.sh.adder.Evict? {
          EvictKeepsWaits(s);
        } else {
          AbortKeepsWaits(s);
        }
      case _ => OtherStepsKeepWaits(s, step);
    }
  }

  // ---------------------------------------------------------------- over whole runs

  lemma {:induction false} RunKeepsWaitInvariant(states: seq<State>, steps: seq<Step>, n: nat)
    requires IsRun(states, steps) && Initial(states[0]) && n < |states|
    ensures WaitInvariant(states[n])
  {
    hide WaitInvariant, Enabled, Apply, Initial;
    if n == 0 {
      InitialWaits(states[0]);
    } else {
      RunKeepsWaitInvariant(states, steps, n - 1);
      StepKeepsWaitInvariant(states[n - 1], steps[n - 1]);
    }
  }

  /** Listener conservation: in every state of every run an entry has one listener for each
      wait registered on it and not consumed, and there is an entry exactly where there is such
      a wait. Calls that returned early keep theirs, so the listeners are at least the live
      waits, and equal to them when no call ended early. */
  lemma ListenersAreWaits(states: seq<State>, steps: seq<Step>, n: nat, hash: string)
    requires IsRun(states, steps) && Initial(states[0]) && n < |states|
    ensures var s := states[n];
            && (hash in s.sh.table <==> Waits(s, hash) != {})
            && (hash in s.sh.table ==>
                  && s.sh.table[hash].listeners == |Waits(s, hash)|
                  && s.sh.table[hash].listeners >= |LiveWaits(s, hash)|)
            && ((forall c :: c in s.calls ==> !s.calls[c].pc.Failed?) ==> LiveWaits(s, hash) == Waits(s, hash))
  {
    hide Enabled, Apply, Initial, IsWait;
    RunKeepsWaitInvariant(states, steps, n);
    var s := states[n];
    assert ListenersCount(s, hash);
    assert LiveWaits(s, hash) <= Waits(s, hash);
    SubsetCardinality(LiveWaits(s, hash), Waits(s, hash));
    forall w | w in Waits(s, hash)
      ensures w.0 in s.calls
    {
    }
  }

  lemma {:induction false} SubsetCardinality(a: set<(nat, nat)>, b: set<(nat, nat)>)
    requires a <= b
    ensures |a| <= |b|
  {
    assert |b| == |a| + |b - a| by { assert b == a + (b - a); }
  }

  /** Neither of the two "not in waiter" errors can be returned, so the waiter lock is never
      left held by a call that has returned. */
  lemma WaiterAlwaysFound(states: seq<State>, steps: seq<Step>, n: nat, c: nat)
    requires IsRun(states, steps) && Initial(states[0]) && n < |states|
    requires c in states[n].calls && InWaits(states[n].calls[c].pc)
    ensures WaitHash(states[n].calls[c]) in states[n].sh.table
  {
    hide Enabled, Apply, Initial, WaitHash;
    RunKeepsWaitInvariant(states, steps, n);
    assert Shaped(states[n].calls[c]);
    WaiterHasEntry(states[n], c);
  }

  /** The entry whose channel a call waits for is the entry it later leaves, and a channel is
      never closed twice. */
  lemma NoDoubleClose(states: seq<State>, steps: seq<Step>, n: nat)
    requires IsRun(states, steps) && Initial(states[0]) && n < |states|
    ensures !states[n].sh.doubleClose
    ensures forall c :: c in states[n].calls && states[n].calls[c].pc.Receive? ==>
              var call := states[n].calls[c];
              WaitHash(call) in states[n].sh.table && states[n].sh.table[WaitHash(call)].channel == call.pc.channel
  {
    hide Enabled, Apply, Initial, WaitHash;
    RunKeepsWaitInvariant(states, steps, n);
    forall c | c in states[n].calls && states[n].calls[c].pc.Receive?
      ensures WaitHash(states[n].calls[c]) in states[n].sh.table
      ensures states[n].sh.table[WaitHash(states[n].calls[c])].channel == states[n].calls[c].pc.channel
    {
      assert HoldsEntry(states[n].calls[c], states[n].sh.table, states[n].sh.closed);
    }
  }

  /** While an entry lives, in the table and with its channel, neither of its flags is reset,
      and its earliest block only falls; closed channels stay closed. */
  ghost predicate EntriesAge(sh: Shared, sh': Shared) {
    && sh.closed <= sh'.closed
    && forall h :: h in sh.table && h in sh'.table ==>
         && sh'.table[h].channel == sh.table[h].channel
         && (sh.table[h].channelClosed ==> sh'.table[h].channelClosed)
         && (sh.table[h].aborted ==> sh'.table[h].aborted)
         && sh'.table[h].earliestBlock <= sh.table[h].earliestBlock
  }

  lemma SharedStepAges(sh: Shared, c: nat, call: Call)
    requires CanStep(sh, call)
    ensures EntriesAge(sh, CallStep(sh, c, call).sh)
  {
    hide StepCheckHeader, StepReadStore, StepReadCache, StepLockWaiter, StepGetEntry, StepParse, Missing, Woken,
      BlockCoins, TransactionHash, TxHashes, CurrentCoin, WaitHash, ClosesOnce;
    if !(call.pc.Register? || call.pc.Consume? || call.pc.CloseChannels?) {
      StepKeepsTable(sh, c, call);
    }
  }

  lemma FlagsNeverRevert(s: State, step: Step)
    requires Enabled(s, step)
    ensures EntriesAge(s.sh, Apply(s, step).sh)
  {
    hide CallStep, CanStep, ClosesOnce, BlockCoins, CanCommit;
    if step.Act? {
      SharedStepAges(s.sh, step.c, s.calls[step.c]);
    }
  }

  /** Over whole runs: a channel is closed exactly when its entry says so, an aborted entry is
      closed, and the earliest block is the least height ever registered on the entry. */
  lemma EntriesOverRuns(states: seq<State>, steps: seq<Step>, n: nat, hash: string)
    requires IsRun(states, steps) && Initial(states[0]) && n < |states| && hash in states[n].sh.table
    ensures var sh := states[n].sh;
            var e := sh.table[hash];
            && (e.channelClosed <==> e.channel in sh.closed)
            && (e.aborted ==> e.channelClosed)
            && e.channel in sh.heights && e.earliestBlock in sh.heights[e.channel]
            && (forall x :: x in sh.heights[e.channel] ==> e.earliestBlock <= x)
  {
    hide Enabled, Apply, Initial, AllListenersCount, AllShaped, LockHeld, AllHoldEntries;
    RunKeepsWaitInvariant(states, steps, n);
    assert EntryChannel(states[n].sh.table[hash], states[n].sh.closed, states[n].sh.nextChannel);
    assert EntryHeights(states[n].sh.table[hash], states[n].sh.heights);
  }
}
