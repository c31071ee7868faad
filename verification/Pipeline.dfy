/**
 The concurrent coin-fetch pipeline (indexer/indexer.go, indexer/wait_table.go) as a state
 machine. Each call of Block, followed by the BlockSeen of the block it returns, is a call
 with a program counter; BlockAdded is the adder, of which there is one. A step is one
 critical section, one database access, or one bare read of the seen counter, so every
 interleaving of the program is a run of this machine.

 The section of findCoin that holds the waiter lock reads the head block and the seen
 counter, which that lock does not protect, so it is two steps with the lock held between
 them, and other calls and the adder may commit or count in the meantime.
 */
module Pipeline {
  import opened Wrappers
  import opened Blocks
  import opened CoinIds
  import opened BlockParser
  import opened CoinFetching
  import opened CoinLedger

  // ---------------------------------------------------------------- state

  /** A wait-table entry; channels are numbered in the order they are made. */
  datatype Entry = Entry(listeners: int, channel: nat, channelClosed: bool, aborted: bool, earliestBlock: int)

  type Table = map<string, Entry>

  datatype Pc =
    | CheckHeader                               // findCoins, before checkHeaderMatch
    | ReadSeen                                  // findCoin, at the head of its loop
    | ReadStore(startSeen: nat)                 // before the database snapshot
    | ReadCache(startSeen: nat, head: BlockId)  // the coin is not in the snapshot
    | LockWaiter(startSeen: nat, head: BlockId) // nor in the cache
    | Register(startSeen: nat)                  // holds the waiter lock; the head has not moved
    | GetEntry                                  // findCoins, at the head of its waiting loop
    | Receive(channel: nat)                     // waiting for the channel to close
    | Consume                                   // woken, before it leaves the entry
    | Parse(coins: Coins)                       // findCoins has returned
    | Publish(b: Block)                         // Block has returned; BlockSeen starts
    | Bump(b: Block)
    | StoreSeen(b: Block)
    | CloseChannels(b: Block)
    | SeenDone(b: Block)                        // BlockSeen has returned
    | OrphanHead                                // Block has returned ErrOrphanHead
    | Failed                                    // some other error was returned

  /** One activation of findCoins at a time is active; outer is what the suspended ones have
      found, asked the coins of the active one. Waits number waited and up are unconsumed. */
  datatype Call = Call(raw: RawBlock, level: nat, outer: Coins, asked: seq<string>, next: nat, coinMap: Coins,
                       remaining: seq<string>, waited: nat, shouldAbort: bool, pc: Pc)

  datatype Adder = Idle | Evict(b: Block) | Abort(b: Block)

  /** What the calls share. closed holds the channels that have been closed, doubleClose
      records a second close (a run-time panic), and heights the block heights ever registered
      on a channel's entry. */
  datatype Shared = Shared(db: seq<Block>, cache: Coins, seen: nat, table: Table, closed: set<nat>, nextChannel: nat,
                           holder: Option<nat>, adder: Adder, doubleClose: bool, heights: map<nat, set<int>>)

  datatype State = State(sh: Shared, calls: map<nat, Call>)

  function Head(db: seq<Block>): BlockId
    requires db != []
  {
    db[|db| - 1].id
  }

  function CurrentCoin(call: Call): string {
    if call.next < |call.asked| then call.asked[call.next] else ""
  }

  /** The hash the call waits on. */
  function WaitHash(call: Call): string {
    if call.waited < |call.remaining| then TransactionHash(call.remaining[call.waited]) else ""
  }

  function NewCall(raw: RawBlock): Call {
    Call(raw, 0, map[], FetchList(raw), 0, map[], [], 0, false, CheckHeader)
  }

  // ---------------------------------------------------------------- the loops of findCoins

  /** Two moments of one activation of findCoins. */
  predicate SameActivation(a: Call, b: Call) {
    a.raw == b.raw && a.level == b.level && a.outer == b.outer && a.asked == b.asked && a.waited == b.waited
  }

  /** After the last lookup: return, or wait for the coins that are missing. */
  function EndLookups(call: Call): (after: Call)
    ensures after.pc.Parse? || after.pc.GetEntry?
    ensures SameActivation(call, after) && after.remaining == call.remaining
  {
    call.(pc := if call.remaining == [] then Parse(call.outer + call.coinMap) else GetEntry)
  }

  function NextLookup(call: Call): (after: Call)
    ensures after.pc.ReadSeen? || after.pc.Parse? || after.pc.GetEntry?
    ensures SameActivation(call, after) && after.remaining == call.remaining
  {
    var call' := call.(next := call.next + 1);
    if call'.next < |call.asked| then call'.(pc := ReadSeen) else EndLookups(call')
  }

  /** The current coin was found. */
  function Found(call: Call, coin: AccountCoin): (after: Call)
    ensures after.pc.ReadSeen? || after.pc.Parse? || after.pc.GetEntry?
    ensures SameActivation(call, after) && after.remaining == call.remaining
  {
    NextLookup(call.(coinMap := call.coinMap[CurrentCoin(call) := coin]))
  }

  /** The current coin is missing and a wait is registered for it. */
  function Missing(call: Call): (after: Call)
    ensures after.pc.ReadSeen? || after.pc.Parse? || after.pc.GetEntry?
    ensures SameActivation(call, after) && after.remaining == call.remaining + [CurrentCoin(call)]
  {
    NextLookup(call.(remaining := call.remaining + [CurrentCoin(call)]))
  }

  /** The recursive call of findCoins for the coins that were missing. */
  function Recurse(call: Call): Call {
    call.(level := call.level + 1, outer := call.outer + call.coinMap, asked := call.remaining, next := 0,
          coinMap := map[], remaining := [], waited := 0, shouldAbort := false, pc := CheckHeader)
  }

  /** One wait is over. */
  function Woken(call: Call, aborted: bool): (after: Call)
    ensures after.pc.GetEntry? || after.pc.OrphanHead? || after.pc.CheckHeader?
  {
    var call' := call.(waited := call.waited + 1, shouldAbort := call.shouldAbort || aborted);
    if call'.waited < |call.remaining| then call'.(pc := GetEntry)
    else if call'.shouldAbort then call'.(pc := OrphanHead)
    else Recurse(call')
  }

  // ---------------------------------------------------------------- the wait table

  /** Lines 613-627: a listener joins the entry of a hash, made if it does not exist. */
  function Joined(table: Table, hash: string, height: int, newChannel: nat): Table {
    var e := if hash in table then table[hash] else Entry(0, newChannel, false, false, height);
    table[hash := e.(listeners := e.listeners + 1,
                     earliestBlock := if e.earliestBlock > height then height else e.earliestBlock)]
  }

  /** Lines 723-728: a listener leaves, and the last one removes the entry. */
  function Left(table: Table, hash: string): Table
    requires hash in table
  {
    var e := table[hash];
    if e.listeners - 1 == 0 then table - {hash} else table[hash := e.(listeners := e.listeners - 1)]
  }

  /** The entries BlockSeen closes. */
  function ToClose(table: Table, hashes: set<string>): set<string> {
    set h | h in table && h in hashes && !table[h].channelClosed
  }

  /** The entries BlockAdded aborts. */
  function ToAbort(table: Table, height: int): set<string> {
    set h | h in table && table[h].earliestBlock == height && !table[h].channelClosed
  }

  function CloseAll(table: Table, hashes: set<string>, aborting: bool): Table {
    map h | h in table ::
      if h in hashes then table[h].(channelClosed := true, aborted := table[h].aborted || aborting) else table[h]
  }

  function Channels(table: Table, hashes: set<string>): set<nat> {
    set h | h in table && h in hashes :: table[h].channel
  }

  /** Closing these entries closes each channel for the first time. */
  predicate ClosesOnce(table: Table, closed: set<nat>, hashes: set<string>) {
    && (forall h :: h in table && h in hashes ==> table[h].channel !in closed)
    && (forall g, h :: g in table && h in table && g in hashes && h in hashes && g != h ==>
          table[g].channel != table[h].channel)
  }

  function CloseEntries(sh: Shared, hashes: set<string>, aborting: bool): Shared {
    sh.(table := CloseAll(sh.table, hashes, aborting), closed := sh.closed + Channels(sh.table, hashes),
        doubleClose := sh.doubleClose || !ClosesOnce(sh.table, sh.closed, hashes))
  }

  // ---------------------------------------------------------------- steps of a call

  /** What a step of a call leaves: the shared state and the call itself. */
  datatype Moved = Moved(sh: Shared, call: Call)

  /** checkHeaderMatch: only the block after the head is checked. */
  predicate HeaderMatches(db: seq<Block>, raw: RawBlock) {
    db != [] && raw.height == Head(db).index + 1 ==> raw.previousHash == Head(db).hash
  }

  function StepCheckHeader(sh: Shared, call: Call): Call {
    if !HeaderMatches(sh.db, call.raw) then call.(pc := OrphanHead)
    else if call.asked == [] then EndLookups(call)
    else call.(pc := ReadSeen)
  }

  /** The snapshot gives the head and the coins at one instant. Without a head the loop
      sleeps and starts again. */
  function StepReadStore(sh: Shared, call: Call): Call
    requires call.pc.ReadStore?
  {
    var id := CurrentCoin(call);
    if sh.db == [] then call.(pc := ReadSeen)
    else if id in Store(sh.db) then Found(call, Store(sh.db)[id])
    else call.(pc := ReadCache(call.pc.startSeen, Head(sh.db)))
  }

  function StepReadCache(sh: Shared, call: Call): Call
    requires call.pc.ReadCache?
  {
    var id := CurrentCoin(call);
    if id in sh.cache then Found(call, sh.cache[id])
    else call.(pc := LockWaiter(call.pc.startSeen, call.pc.head))
  }

  /** Takes the waiter lock and reads the head again; the lock is kept only if it is the same. */
  function StepLockWaiter(sh: Shared, c: nat, call: Call): Moved
    requires call.pc.LockWaiter?
  {
    if sh.db == [] then Moved(sh, call.(pc := Failed))
    else if Head(sh.db) != call.pc.head then Moved(sh, call.(pc := ReadSeen))
    else Moved(sh.(holder := Some(c)), call.(pc := Register(call.pc.startSeen)))
  }

  /** Reads the seen counter again and registers the wait; either way the lock is released. */
  function StepRegister(sh: Shared, call: Call): Moved
    requires call.pc.Register?
  {
    if sh.seen != call.pc.startSeen then Moved(sh.(holder := None), call.(pc := ReadSeen))
    else Moved(RegisterWait(sh, TransactionHash(CurrentCoin(call)), call.raw.height), Missing(call))
  }

  function RegisterWait(sh: Shared, hash: string, height: int): Shared {
    var table := Joined(sh.table, hash, height, sh.nextChannel);
    var channel := table[hash].channel;
    sh.(holder := None,
        table := table,
        nextChannel := if hash in sh.table then sh.nextChannel else sh.nextChannel + 1,
        heights := sh.heights[channel := (if channel in sh.heights then sh.heights[channel] else {}) + {height}])
  }

  function StepGetEntry(sh: Shared, call: Call): Call {
    var hash := WaitHash(call);
    if hash in sh.table then call.(pc := Receive(sh.table[hash].channel)) else call.(pc := Failed)
  }

  /** If the entry is gone the call fails with the waiter lock held. */
  function StepConsume(sh: Shared, c: nat, call: Call): Moved {
    var hash := WaitHash(call);
    if hash !in sh.table then Moved(sh.(holder := Some(c)), call.(pc := Failed))
    else Moved(sh.(table := Left(sh.table, hash)), Woken(call, sh.table[hash].aborted))
  }

  ghost function StepParse(call: Call): Call
    requires call.pc.Parse?
  {
    match ParsedBlock(call.raw, call.pc.coins)
    case None => call.(pc := Failed)
    case Some(b) => call.(pc := Publish(b))
  }

  function PublishCoins(sh: Shared, b: Block): Shared {
    sh.(cache := sh.cache + BlockCoins(b))
  }

  function CloseSeen(sh: Shared, b: Block): Shared {
    CloseEntries(sh, ToClose(sh.table, TxHashes(b)), false)
  }

  /** Where a step of a call may change what the calls share. */
  predicate MayWrite(pc: Pc) {
    pc.LockWaiter? || pc.Register? || pc.Consume? || pc.Publish? || pc.Bump? || pc.CloseChannels?
  }

  /** A call that needs the waiter lock waits for it, and a receive for its channel. */
  predicate CanStep(sh: Shared, call: Call) {
    match call.pc
    case LockWaiter(_, _) => sh.holder == None
    case GetEntry => sh.holder == None
    case Consume => sh.holder == None
    case CloseChannels(_) => sh.holder == None
    case Receive(channel) => channel in sh.closed
    case SeenDone(_) => false
    case OrphanHead => false
    case Failed => false
    case _ => true
  }

  ghost function CallStep(sh: Shared, c: nat, call: Call): Moved
    requires CanStep(sh, call)
  {
    match call.pc
    case CheckHeader => Moved(sh, StepCheckHeader(sh, call))
    case ReadSeen => Moved(sh, call.(pc := ReadStore(sh.seen)))
    case ReadStore(_) => Moved(sh, StepReadStore(sh, call))
    case ReadCache(_, _) => Moved(sh, StepReadCache(sh, call))
    case LockWaiter(_, _) => StepLockWaiter(sh, c, call)
    case Register(_) => StepRegister(sh, call)
    case GetEntry => Moved(sh, StepGetEntry(sh, call))
    case Receive(_) => Moved(sh, call.(pc := Consume))
    case Consume => StepConsume(sh, c, call)
    case Parse(_) => Moved(sh, StepParse(call))
    case Publish(b) => Moved(PublishCoins(sh, b), call.(pc := Bump(b)))
    case Bump(b) => Moved(sh.(seen := sh.seen + 1), call.(pc := StoreSeen(b)))
    case StoreSeen(b) => Moved(sh, call.(pc := CloseChannels(b)))
    case CloseChannels(b) => Moved(CloseSeen(sh, b), call.(pc := SeenDone(b)))
  }

  predicate CanAdvance(s: State, c: nat) {
    c in s.calls && CanStep(s.sh, s.calls[c])
  }

  ghost function Advance(s: State, c: nat): State
    requires CanAdvance(s, c)
  {
    var moved := CallStep(s.sh, c, s.calls[c]);
    State(moved.sh, s.calls[c := moved.call])
  }

  /** Where a cancelled context or a failing database makes the program return early. */
  predicate MayFail(pc: Pc) {
    pc.CheckHeader? || pc.ReadSeen? || pc.ReadStore? || pc.LockWaiter? || pc.Receive? || pc.Parse? || pc.Publish?
    || pc.StoreSeen?
  }

  // ---------------------------------------------------------------- steps of the syncer

  /** Adds extend the head by one, and a block is seen before it is added. */
  predicate CanCommit(s: State, b: Block) {
    && s.sh.adder.Idle?
    && (exists c :: c in s.calls && s.calls[c].pc == SeenDone(b))
    && (s.sh.db != [] ==> b.parent == Head(s.sh.db) && b.id.index == Head(s.sh.db).index + 1)
  }

  predicate CanAdvanceAdder(sh: Shared) {
    sh.adder.Evict? || (sh.adder.Abort? && sh.holder == None)
  }

  function AdvanceAdder(sh: Shared): Shared
    requires CanAdvanceAdder(sh)
  {
    match sh.adder
    case Evict(b) => sh.(cache := sh.cache - BlockCoins(b).Keys, adder := Abort(b))
    case Abort(b) => CloseEntries(sh, ToAbort(sh.table, b.id.index + 1), true).(adder := Idle)
  }

  datatype Step =
    | Start(c: nat, raw: RawBlock)
    | Act(c: nat)
    | Abandon(c: nat)
    | Commit(b: Block)
    | Add
    | Remove

  ghost predicate Enabled(s: State, step: Step) {
    match step
    case Start(c, _) => c !in s.calls
    case Act(c) => CanAdvance(s, c)
    case Abandon(c) => c in s.calls && MayFail(s.calls[c].pc)
    case Commit(b) => CanCommit(s, b)
    case Add => CanAdvanceAdder(s.sh)
    case Remove => s.sh.adder.Idle? && s.sh.db != []
  }

  ghost function Apply(s: State, step: Step): State
    requires Enabled(s, step)
  {
    match step
    case Start(c, raw) => s.(calls := s.calls[c := NewCall(raw)])
    case Act(c) => Advance(s, c)
    case Abandon(c) => s.(calls := s.calls[c := s.calls[c].(pc := Failed)])
    case Commit(b) => s.(sh := s.sh.(db := s.sh.db + [b], adder := Evict(b)))
    case Add => s.(sh := AdvanceAdder(s.sh))
    case Remove => s.(sh := s.sh.(db := s.sh.db[..|s.sh.db| - 1]))
  }

  /** The state after a restart: some blocks are committed, nothing else is remembered. */
  predicate Initial(s: State) {
    s == State(Shared(s.sh.db, map[], 0, map[], {}, 0, None, Idle, false, map[]), map[])
  }

  /** A run: each state is followed by the next through an enabled step. */
  ghost predicate IsRun(states: seq<State>, steps: seq<Step>) {
    && |states| == |steps| + 1
    && forall k :: 0 <= k < |steps| ==> Enabled(states[k], steps[k]) && states[k + 1] == Apply(states[k], steps[k])
  }
}
