/**
 The indexer object (indexer/indexer.go): the coin cache, the seen counter and the wait
 table, and the loops of BlockSeen, BlockAdded, findCoin and findCoins over them. Each method
 is one critical section. Represents ties the object to the shared state of the machine in
 Pipeline, and every method is proved to move the object as the machine's step moves that
 state; on the way each close of a channel is proved to be its first.
 */
module IndexerObject {
  import opened Wrappers
  import opened Blocks
  import opened CoinIds
  import opened CoinLedger
  import opened Pipeline
  import opened PipelineWaits
  import opened PipelineRuns
  import opened WaitTables

  class Indexer {
    var coinCache: Coins
    var seen: nat
    const waiter: WaitTable

    constructor ()
      ensures fresh(waiter)
      ensures forall s: State :: Initial(s) ==> Represents(s.sh)
    {
      coinCache := map[];
      seen := 0;
      waiter := new WaitTable();
    }

    /** The object is what the machine's shared state says. In a run of the machine the wait
        invariant holds, and it has TableOk in it. */
    ghost predicate Represents(sh: Shared)
      reads this, waiter, waiter.Entries(), waiter.OpenChannels()
    {
      && coinCache == sh.cache
      && seen == sh.seen
      && waiter.channelsMade == sh.nextChannel
      && waiter.Valid()
      && waiter.View() == sh.table
      && TableOk(sh)
    }

    // ---------------------------------------------------------------- BlockSeen

    /** The inner loop, over the operations of a transaction. */
    method AddCreated(ops: seq<Operation>)
      modifies this`coinCache
      ensures coinCache == old(coinCache) + CreatedCoins(ops)
    {
      hide Creates, CreatedCoin, CreatedCoins;
      NoOperations();
      for k := 0 to |ops|
        invariant coinCache == old(coinCache) + CreatedCoins(ops[..k])
      {
        CoinsOfNext(ops, k);
        if Creates(ops[k]) {
          CreatesId(ops[k]);
          coinCache := coinCache[ops[k].created.value := CreatedCoin(ops[k])];
        }
      }
      assert ops[..|ops|] == ops;
    }

    /** Lines 432-454: loads the coins a seen block creates. */
    method LoadIntermediate(block: Block, ghost sh: Shared)
      requires Represents(sh)
      modifies this`coinCache
      ensures Represents(PublishCoins(sh, block))
    {
      hide Operations, CreatedCoins, TxHashes, TableOk, WaitTableEntry.View, WaitTableEntry.Valid;
      NoOperations();
      for t := 0 to |block.txs|
        invariant coinCache == sh.cache + CreatedCoins(Operations(block.txs[..t]))
      {
        OperationsOfNext(block.txs, t);
        CreatedCoinsConcat(Operations(block.txs[..t]), block.txs[t].operations);
        AddCreated(block.txs[t].operations);
      }
      assert block.txs[..|block.txs|] == block.txs;
      SameTableOk(sh, PublishCoins(sh, block));
    }

    /** Lines 456-459. */
    method CountSeen(ghost sh: Shared)
      requires Represents(sh)
      modifies this`seen
      ensures Represents(sh.(seen := sh.seen + 1))
    {
      hide TableOk, WaitTableEntry.View, WaitTableEntry.Valid;
      SameTableOk(sh, sh.(seen := sh.seen + 1));
      seen := seen + 1;
    }

    /** Lines 473-497: closes the channels of everyone waiting on a transaction of the block. */
    method CloseChannels(block: Block, ghost sh: Shared)
      requires Represents(sh)
      modifies waiter.Entries(), waiter.OpenChannels()
      ensures Represents(CloseSeen(sh, block))
    {
      hide CloseAll, ToClose, WaitTable.View, WaitTable.Valid, TableOk;
      ghost var done: set<string> := {};
      var t := 0;
      CloseNone(sh.table, {}, false);
      while t < |block.txs|
        invariant t <= |block.txs|
        invariant done == set i | 0 <= i < t :: block.txs[i].hash
        invariant waiter.Valid() && waiter.View() == CloseAll(sh.table, ToClose(sh.table, done), false)
      {
        var txHash := block.txs[t].hash;
        var val := waiter.Get(txHash);
        CloseNext(sh.table, done, txHash);
        if val != null {
          waiter.ViewOf(txHash);
          if !val.channelClosed {
            waiter.CloseEntry(txHash, false);
          }
        }
        done := done + {txHash};
        t := t + 1;
      }
      assert done == TxHashes(block);
      OpenOnes(sh.table, done, 0);
      CloseKeepsTable(sh, ToClose(sh.table, done), false);
    }

    /** BlockSeen with nothing in between; the machine lets other steps come between its parts. */
    method BlockSeen(block: Block, ghost sh: Shared)
      requires Represents(sh)
      modifies this`coinCache, this`seen, waiter.Entries(), waiter.OpenChannels()
      ensures Represents(CloseSeen(PublishCoins(sh, block).(seen := sh.seen + 1), block))
      ensures forall h :: h in waiter.table && h in TxHashes(block) ==> waiter.table[h].channel.closed
    {
      hide TableOk, WaitTableEntry.View, WaitTableEntry.Valid;
      LoadIntermediate(block, sh);
      CountSeen(PublishCoins(sh, block));
      ghost var counted := PublishCoins(sh, block).(seen := sh.seen + 1);
      CloseChannels(block, counted);
      EntriesOf(CloseSeen(counted, block));
    }

    // ---------------------------------------------------------------- BlockAdded

    /** The inner loop, over the operations of a transaction. */
    method DropCreated(ops: seq<Operation>)
      modifies this`coinCache
      ensures coinCache == old(coinCache) - CreatedCoins(ops).Keys
    {
      hide Creates, CreatedCoin, CreatedCoins;
      NoOperations();
      for k := 0 to |ops|
        invariant coinCache == old(coinCache) - CreatedCoins(ops[..k]).Keys
      {
        CoinsOfNext(ops, k);
        if Creates(ops[k]) {
          CreatesId(ops[k]);
          coinCache := coinCache - {ops[k].created.value};
        }
      }
      assert ops[..|ops|] == ops;
    }

    /** Lines 376-391: drops from the cache the coins the committed block created. */
    method CleanIntermediate(block: Block, ghost sh: Shared)
      requires Represents(sh)
      modifies this`coinCache
      ensures Represents(sh.(cache := sh.cache - BlockCoins(block).Keys))
    {
      hide Operations, CreatedCoins, TxHashes, TableOk, WaitTableEntry.View, WaitTableEntry.Valid;
      NoOperations();
      for t := 0 to |block.txs|
        invariant coinCache == sh.cache - CreatedCoins(Operations(block.txs[..t])).Keys
      {
        OperationsOfNext(block.txs, t);
        CreatedCoinsConcat(Operations(block.txs[..t]), block.txs[t].operations);
        DropCreated(block.txs[t].operations);
      }
      assert block.txs[..|block.txs|] == block.txs;
      SameTableOk(sh, sh.(cache := sh.cache - BlockCoins(block).Keys));
    }

    /** Lines 396-410: aborts the waits of the next block that are still open. The entries are
        visited in any order. */
    method AbortWaits(index: int, ghost sh: Shared)
      requires Represents(sh)
      modifies waiter.Entries(), waiter.OpenChannels()
      ensures Represents(CloseEntries(sh, ToAbort(sh.table, index + 1), true))
    {
      hide CloseAll, ToAbort, WaitTable.View, WaitTable.Valid, TableOk;
      var left := waiter.table.Keys;
      CloseNone(sh.table, left, true);
      while left != {}
        invariant left <= waiter.table.Keys
        invariant waiter.Valid() && waiter.View() == CloseAll(sh.table, ToAbort(sh.table, index + 1) - left, true)
        decreases |left|
      {
        var txHash :| txHash in left;
        var val := waiter.table[txHash];
        waiter.ViewOf(txHash);
        AbortNext(sh.table, index + 1, left, txHash);
        if val.earliestBlock == index + 1 && !val.channelClosed {
          waiter.CloseEntry(txHash, true);
        }
        left := left - {txHash};
      }
      assert ToAbort(sh.table, index + 1) - left == ToAbort(sh.table, index + 1);
      OpenOnes(sh.table, {}, index + 1);
      CloseKeepsTable(sh, ToAbort(sh.table, index + 1), true);
    }

    /** BlockAdded after the commit, with nothing in between. */
    method BlockAdded(block: Block, ghost sh: Shared)
      requires Represents(sh) && sh.adder == Evict(block)
      modifies this`coinCache, waiter.Entries(), waiter.OpenChannels()
      ensures Represents(AdvanceAdder(AdvanceAdder(sh).(holder := None)))
      ensures forall h :: h in waiter.table && waiter.table[h].earliestBlock == block.id.index + 1 ==>
                waiter.table[h].channel.closed
    {
      hide CloseAll, ToAbort, TableOk, WaitTable.View, WaitTable.Valid, WaitTableEntry.View, WaitTableEntry.Valid,
        Channels, ClosesOnce, BlockCoins;
      CleanIntermediate(block, sh);
      ghost var evicted := sh.(cache := sh.cache - BlockCoins(block).Keys);
      AbortWaits(block.id.index, evicted);
      ghost var aborted := CloseEntries(evicted, ToAbort(sh.table, block.id.index + 1), true);
      SameTableOk(aborted, AdvanceAdder(AdvanceAdder(sh).(holder := None)));
      AbortClosesAll(sh.table, block.id.index + 1);
      EntriesOf(aborted);
    }

    // ---------------------------------------------------------------- findCoin and findCoins

    /** Lines 608-630, after the head was found unchanged: unless a block has been seen since
        the lookups began, the caller joins the entry of the coin's transaction. */
    method RegisterMissing(coinIdentifier: string, height: int, startSeen: nat, ghost sh: Shared, ghost call: Call)
      returns (missing: bool)
      requires Represents(sh)
      requires call.pc == Register(startSeen) && CurrentCoin(call) == coinIdentifier && call.raw.height == height
      modifies waiter, waiter.Entries()
      ensures Represents(StepRegister(sh, call).sh)
      ensures StepRegister(sh, call).call == if missing then Missing(call) else call.(pc := ReadSeen)
      ensures waiter.table == old(waiter.table)
              || (TransactionHash(coinIdentifier) in waiter.table
                  && fresh(waiter.table[TransactionHash(coinIdentifier)])
                  && waiter.table - {TransactionHash(coinIdentifier)} == old(waiter.table))
    {
      hide TransactionHash, Missing, Joined, WaitTable.View, WaitTable.Valid, TableOk;
      RegisterKeepsTable(sh, TransactionHash(coinIdentifier), height);
      if seen != startSeen {
        SameTableOk(sh, sh.(holder := None));
        return false;
      }
      waiter.Join(TransactionHash(coinIdentifier), height);
      return true;
    }

    /** What the machine says of the entries holds of the objects. */
    lemma EntriesOf(sh: Shared)
      requires Represents(sh)
      ensures forall h :: h in waiter.table ==>
                h in sh.table && waiter.table[h].earliestBlock == sh.table[h].earliestBlock
                && waiter.table[h].channel.closed == sh.table[h].channelClosed
    {
      forall h | h in waiter.table
        ensures h in sh.table && sh.table[h] == waiter.table[h].View()
      {
        waiter.ViewOf(h);
      }
    }

    /** Lines 698-701: the channel to wait on. */
    function ChannelOf(txHash: string): Channel?
      reads waiter
    {
      var entry := waiter.Get(txHash);
      if entry == null then null else entry.channel
    }

    /** It is the one the machine's step fetches, open or closed as there. */
    lemma ChannelIs(txHash: string, sh: Shared, call: Call)
      requires Represents(sh) && WaitHash(call) == txHash
      ensures var channel := ChannelOf(txHash);
              && StepGetEntry(sh, call) ==
                   (if channel == null then call.(pc := Failed) else call.(pc := Receive(channel.id)))
              && (channel == null <==> txHash !in sh.table)
              && (channel != null ==> channel.closed == sh.table[txHash].channelClosed)
    {
      hide WaitHash;
      if ChannelOf(txHash) != null {
        EntriesOf(sh);
        waiter.ViewOf(txHash);
      }
    }

    /** Lines 719-728: a woken caller leaves the entry, and the last one removes it. */
    method LeaveEntry(txHash: string, ghost sh: Shared) returns (aborted: bool)
      requires Represents(sh) && txHash in sh.table
      modifies waiter, waiter.Entries()
      ensures Represents(sh.(table := Left(sh.table, txHash)))
      ensures aborted == sh.table[txHash].aborted
      ensures waiter.table == old(waiter.table) || waiter.table == old(waiter.table) - {txHash}
    {
      hide Left, WaitTable.View, WaitTable.Valid, TableOk;
      waiter.ViewOf(txHash);
      LeaveKeepsTable(sh, txHash);
      aborted := waiter.Get(txHash).aborted;
      waiter.Leave(txHash);
    }

    /** Lines 710-729. */
    method Consume(txHash: string, ghost sh: Shared, ghost c: nat, ghost call: Call)
      returns (found: bool, aborted: bool)
      requires Represents(sh) && WaitHash(call) == txHash
      modifies waiter, waiter.Entries()
      ensures Represents(StepConsume(sh, c, call).sh)
      ensures StepConsume(sh, c, call).call == if found then Woken(call, aborted) else call.(pc := Failed)
      ensures waiter.table == old(waiter.table) || waiter.table == old(waiter.table) - {txHash}
    {
      hide TransactionHash, Woken, Left, WaitTable.View, WaitTable.Valid, TableOk;
      if waiter.Get(txHash) == null {
        SameTableOk(sh, sh.(holder := Some(c)));
        return false, false;
      }
      aborted := LeaveEntry(txHash, sh);
      return true, aborted;
    }

    /** findCoin, lines 546-631, when no other step comes between its own and there is a head. */
    method FindCoin(db: seq<Block>, coinIdentifier: string, height: int, ghost sh: Shared)
      returns (coin: Option<AccountCoin>)
      requires Represents(sh) && db == sh.db && db != []
      modifies waiter, waiter.Entries()
      ensures coin == LookedUp(sh, coinIdentifier)
      ensures Represents(AfterLookup(sh, coinIdentifier, height))
      ensures forall h :: h in waiter.table ==> fresh(waiter.table[h]) || waiter.table[h] in old(waiter.Entries())
    {
      hide Store, TransactionHash, Joined, WaitTable.View, WaitTable.Valid, TableOk;
      var startSeen := seen;
      var store := Store(db);
      if coinIdentifier in store {
        return Some(store[coinIdentifier]);
      }
      if coinIdentifier in coinCache {
        return Some(coinCache[coinIdentifier]);
      }
      RegisterKeepsTable(sh, TransactionHash(coinIdentifier), height);
      waiter.Join(TransactionHash(coinIdentifier), height);
      return None;
    }

    /** The first loop of findCoins, lines 665-687, when nothing comes between: the coins found
        and the coins missing partition the request, and each missing one has a listener. */
    method LookUpCoins(db: seq<Block>, coins: seq<string>, height: int, ghost sh: Shared)
      returns (coinMap: Coins, remainingCoins: seq<string>)
      requires Represents(sh) && db == sh.db && db != []
      modifies waiter, waiter.Entries()
      ensures coinMap == FoundAmong(sh, coins) && remainingCoins == MissingAmong(sh, coins)
      ensures Represents(RegisterAll(sh, remainingCoins, height))
    {
      hide LookedUp, TransactionHash, Indexer.Represents, RegisterWait;
      coinMap, remainingCoins := map[], [];
      var n := 0;
      while n < |coins|
        invariant n <= |coins|
        invariant coinMap == FoundAmong(sh, coins[..n]) && remainingCoins == MissingAmong(sh, coins[..n])
        invariant Represents(RegisterAll(sh, remainingCoins, height))
        invariant forall h :: h in waiter.table ==> fresh(waiter.table[h]) || waiter.table[h] in old(waiter.Entries())
      {
        ghost var now := RegisterAll(sh, remainingCoins, height);
        RegisterAllKeepsCoins(sh, remainingCoins, height);
        SameLookup(sh, now, coins[n]);
        LookUpNext(sh, coins, n);
        var coin := FindCoin(db, coins[n], height, now);
        if coin.Some? {
          coinMap := coinMap[coins[n] := coin.value];
        } else {
          remainingCoins := remainingCoins + [coins[n]];
          assert remainingCoins[..|remainingCoins| - 1] == MissingAmong(sh, coins[..n]);
        }
        n := n + 1;
      }
      assert coins[..n] == coins;
    }

    /** The second loop of findCoins, lines 694-735, once every channel is closed and nothing
        comes between: every entry is found, each loses the listeners that were this call's,
        those without listeners are gone, and the call aborts exactly if one entry was aborted. */
    method LeaveEntries(remainingCoins: seq<string>, ghost sh: Shared, ghost call: Call) returns (shouldAbort: bool)
      requires Represents(sh) && call.remaining == remainingCoins
      requires forall id :: id in remainingCoins ==>
                 var hash := TransactionHash(id);
                 hash in sh.table && sh.table[hash].channelClosed
                 && CountOf(remainingCoins, hash) <= sh.table[hash].listeners
      modifies waiter, waiter.Entries()
      ensures Represents(sh.(table := LeftBy(sh.table, remainingCoins)))
      ensures shouldAbort <==> exists id :: id in remainingCoins && sh.table[TransactionHash(id)].aborted
    {
      hide TransactionHash, Left, LeftBy, CountOf, Indexer.Represents;
      shouldAbort := false;
      var n := 0;
      LeftByNone(sh.table);
      assert remainingCoins[..0] == [];
      while n < |remainingCoins|
        invariant n <= |remainingCoins|
        invariant Represents(sh.(table := LeftBy(sh.table, remainingCoins[..n])))
        invariant shouldAbort <==>
                    exists id :: id in remainingCoins[..n] && sh.table[TransactionHash(id)].aborted
        invariant forall h :: h in waiter.table ==> waiter.table[h] in old(waiter.Entries())
      {
        var txHash := TransactionHash(remainingCoins[n]);
        ghost var now := sh.(table := LeftBy(sh.table, remainingCoins[..n]));
        LeftByNext(sh.table, remainingCoins, n);
        assert remainingCoins[..n + 1] == remainingCoins[..n] + [remainingCoins[n]];
        var channel := ChannelOf(txHash);
        ChannelIs(txHash, now, call.(waited := n));
        assert channel != null && channel.closed; // so the receive returns at once
        var aborted := LeaveEntry(txHash, now);
        assert now.(table := Left(now.table, txHash)) == sh.(table := LeftBy(sh.table, remainingCoins[..n + 1]));
        shouldAbort := shouldAbort || aborted;
        n := n + 1;
      }
      assert remainingCoins[..n] == remainingCoins;
    }
  }

  // ---------------------------------------------------------------- findCoins undisturbed

  function FoundAmong(sh: Shared, ids: seq<string>): Coins {
    map id | id in ids && LookedUp(sh, id).Some? :: LookedUp(sh, id).value
  }

  function MissingAmong(sh: Shared, ids: seq<string>): seq<string> {
    if ids == [] then []
    else
      var id := ids[|ids| - 1];
      MissingAmong(sh, ids[..|ids| - 1]) + if LookedUp(sh, id).None? then [id] else []
  }

  function RegisterAll(sh: Shared, ids: seq<string>, height: int): Shared {
    if ids == [] then sh
    else RegisterWait(RegisterAll(sh, ids[..|ids| - 1], height), TransactionHash(ids[|ids| - 1]), height)
  }

  /** How many of the coins are of one transaction. */
  function CountOf(ids: seq<string>, hash: string): nat {
    if ids == [] then 0
    else CountOf(ids[..|ids| - 1], hash) + if TransactionHash(ids[|ids| - 1]) == hash then 1 else 0
  }

  function LeftBy(table: Table, ids: seq<string>): Table {
    map h | h in table && (CountOf(ids, h) == 0 || table[h].listeners != CountOf(ids, h)) ::
      table[h].(listeners := table[h].listeners - CountOf(ids, h))
  }

  lemma {:induction false} RegisterAllKeepsCoins(sh: Shared, ids: seq<string>, height: int)
    ensures RegisterAll(sh, ids, height).db == sh.db && RegisterAll(sh, ids, height).cache == sh.cache
  {
    if ids != [] {
      RegisterAllKeepsCoins(sh, ids[..|ids| - 1], height);
    }
  }

  lemma SameLookup(a: Shared, b: Shared, id: string)
    requires a.db == b.db && a.cache == b.cache
    ensures LookedUp(a, id) == LookedUp(b, id)
  {
  }

  lemma LookUpNext(sh: Shared, ids: seq<string>, n: nat)
    requires n < |ids|
    ensures FoundAmong(sh, ids[..n + 1]) ==
              if LookedUp(sh, ids[n]).Some? then FoundAmong(sh, ids[..n])[ids[n] := LookedUp(sh, ids[n]).value]
              else FoundAmong(sh, ids[..n])
    ensures MissingAmong(sh, ids[..n + 1]) ==
              MissingAmong(sh, ids[..n]) + if LookedUp(sh, ids[n]).None? then [ids[n]] else []
  {
    hide LookedUp;
    assert ids[..n + 1] == ids[..n] + [ids[n]];
    assert ids[..n + 1][..n] == ids[..n];
  }

  /** One coin fewer can only count less. */
  lemma {:induction false} CountOfPrefix(ids: seq<string>, n: nat, hash: string)
    requires n <= |ids|
    ensures CountOf(ids[..n], hash) <= CountOf(ids, hash)
    decreases |ids| - n
  {
    hide TransactionHash;
    if n < |ids| {
      CountOfPrefix(ids, n + 1, hash);
      assert ids[..n + 1][..n] == ids[..n];
    } else {
      assert ids[..n] == ids;
    }
  }

  lemma LeftByNone(table: Table)
    ensures LeftBy(table, []) == table
  {
  }

  lemma LeftByNext(table: Table, ids: seq<string>, n: nat)
    requires n < |ids|
    requires TransactionHash(ids[n]) in table
    requires CountOf(ids, TransactionHash(ids[n])) <= table[TransactionHash(ids[n])].listeners
    ensures var hash := TransactionHash(ids[n]);
            && hash in LeftBy(table, ids[..n]) && LeftBy(table, ids[..n])[hash].aborted == table[hash].aborted
            && LeftBy(table, ids[..n])[hash].channelClosed == table[hash].channelClosed
            && LeftBy(table, ids[..n + 1]) == Left(LeftBy(table, ids[..n]), hash)
  {
    hide TransactionHash, CountOf;
    var hash := TransactionHash(ids[n]);
    CountOfPrefix(ids, n + 1, hash);
    CountOfNext(ids, n);
    var before, after := LeftBy(table, ids[..n]), LeftBy(table, ids[..n + 1]);
    assert CountOf(ids[..n + 1], hash) == CountOf(ids[..n], hash) + 1;
    assert forall h :: h != hash ==> (h in before <==> h in after);
    assert forall h :: h != hash && h in before ==> before[h] == after[h];
    assert hash in after ==> after[hash] == before[hash].(listeners := before[hash].listeners - 1);
    assert hash in after <==> before[hash].listeners - 1 != 0;
  }

  lemma CountOfNext(ids: seq<string>, n: nat)
    requires n < |ids|
    ensures forall h :: CountOf(ids[..n + 1], h) ==
                          CountOf(ids[..n], h) + if TransactionHash(ids[n]) == h then 1 else 0
  {
    hide TransactionHash;
    assert ids[..n + 1][..n] == ids[..n];
  }

  /** Registering waits and then leaving them gives every entry that was there its listeners
      back, and the entries made for the waits go. */
  lemma {:induction false} RegisterThenLeave(sh: Shared, ids: seq<string>, height: int)
    requires forall h :: h in sh.table ==> sh.table[h].listeners > 0
    ensures var table := RegisterAll(sh, ids, height).table;
            && LeftBy(table, ids).Keys == sh.table.Keys
            && (forall id :: id in ids ==>
                  TransactionHash(id) in table
                  && CountOf(ids, TransactionHash(id)) <= table[TransactionHash(id)].listeners)
            && forall h :: h in sh.table ==>
                 LeftBy(table, ids)[h].listeners == sh.table[h].listeners
                 && LeftBy(table, ids)[h].channel == sh.table[h].channel
  {
    hide TransactionHash;
    ListenersAfter(sh, ids, height);
    CountsOnly(ids);
  }

  lemma {:induction false} ListenersAfter(sh: Shared, ids: seq<string>, height: int)
    ensures var table := RegisterAll(sh, ids, height).table;
            forall h :: h in table <==> h in sh.table || CountOf(ids, h) > 0
    ensures var table := RegisterAll(sh, ids, height).table;
            forall h :: h in table ==>
              table[h].listeners == CountOf(ids, h) + (if h in sh.table then sh.table[h].listeners else 0)
              && (h in sh.table ==> table[h].channel == sh.table[h].channel)
  {
    hide TransactionHash;
    if ids != [] {
      ListenersAfter(sh, ids[..|ids| - 1], height);
    }
  }

  lemma {:induction false} CountsOnly(ids: seq<string>)
    ensures forall id :: id in ids ==> CountOf(ids, TransactionHash(id)) > 0
  {
    hide TransactionHash;
    if ids != [] {
      CountsOnly(ids[..|ids| - 1]);
      assert ids == ids[..|ids| - 1] + [ids[|ids| - 1]];
    }
  }

  // ---------------------------------------------------------------- what the loops rely on

  lemma OperationsOfNext(txs: seq<Transaction>, t: nat)
    requires t < |txs|
    ensures Operations(txs[..t + 1]) == Operations(txs[..t]) + txs[t].operations
  {
    assert txs[..t + 1][..t] == txs[..t];
  }

  lemma CreatesId(op: Operation)
    requires Creates(op)
    ensures op.OutputOp? && op.created.Some?
  {
  }

  lemma CoinsOfNext(ops: seq<Operation>, k: nat)
    requires k < |ops|
    ensures CreatedCoins(ops[..k + 1]) ==
              if Creates(ops[k]) then CreatedCoins(ops[..k])[ops[k].created.value := CreatedCoin(ops[k])]
              else CreatedCoins(ops[..k])
  {
    assert ops[..k + 1][..k] == ops[..k];
  }

  lemma CloseNone(table: Table, left: set<string>, aborting: bool)
    ensures CloseAll(table, {}, aborting) == table
    ensures ToClose(table, {}) == {}
    ensures left == table.Keys ==> forall height :: ToAbort(table, height) - left == {}
  {
  }

  lemma OpenOnes(table: Table, hashes: set<string>, height: int)
    ensures forall h :: h in ToClose(table, hashes) ==> h in table && !table[h].channelClosed
    ensures forall h :: h in ToAbort(table, height) ==> h in table && !table[h].channelClosed
  {
  }

  lemma CloseNext(table: Table, done: set<string>, hash: string)
    ensures var closed := CloseAll(table, ToClose(table, done), false);
            CloseAll(table, ToClose(table, done + {hash}), false) ==
              if hash in table && !closed[hash].channelClosed then CloseAll(closed, {hash}, false) else closed
  {
  }

  lemma AbortNext(table: Table, height: int, left: set<string>, hash: string)
    requires hash in left && left <= table.Keys
    ensures var closed := CloseAll(table, ToAbort(table, height) - left, true);
            CloseAll(table, ToAbort(table, height) - (left - {hash}), true) ==
              if closed[hash].earliestBlock == height && !closed[hash].channelClosed
              then CloseAll(closed, {hash}, true) else closed
  {
  }

  lemma AbortClosesAll(table: Table, height: int)
    ensures forall h :: h in CloseAll(table, ToAbort(table, height), true) ==>
              var e := CloseAll(table, ToAbort(table, height), true)[h];
              e.earliestBlock == height ==> e.channelClosed
  {
  }
}
