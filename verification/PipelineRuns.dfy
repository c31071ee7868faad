/** Runs of the machine put together step by step, and what some steps taken in a row do. */
module PipelineRuns {
  import opened Wrappers
  import opened Blocks
  import opened CoinIds
  import opened CoinLedger
  import opened Pipeline

  // ---------------------------------------------------------------- runs

  ghost predicate Leads(s: State, t: State) {
    exists states, steps :: IsRun(states, steps) && states[0] == s && states[|steps|] == t
  }

  lemma LeadsNowhere(s: State)
    ensures Leads(s, s)
  {
    var none: seq<Step> := [];
    assert IsRun([s], none) && [s][0] == s && [s][|none|] == s;
  }

  lemma LeadsOn(s: State, t: State, step: Step)
    requires Leads(s, t) && Enabled(t, step)
    ensures Leads(s, Apply(t, step))
  {
    hide Enabled, Apply;
    var states, steps :| IsRun(states, steps) && states[0] == s && states[|steps|] == t;
    var longer, more := states + [Apply(t, step)], steps + [step];
    assert forall k :: 0 <= k < |states| ==> longer[k] == states[k];
    assert forall k :: 0 <= k < |steps| ==> more[k] == steps[k];
    assert IsRun(longer, more) && longer[0] == s && longer[|more|] == Apply(t, step);
  }

  // ---------------------------------------------------------------- one lookup

  /** The committed store is asked first, then the cache. */
  function LookedUp(sh: Shared, id: string): Option<AccountCoin> {
    if id in Store(sh.db) then Some(Store(sh.db)[id])
    else if id in sh.cache then Some(sh.cache[id]) else None
  }

  ghost function AfterLookup(sh: Shared, id: string, height: int): Shared {
    if LookedUp(sh, id).Some? then sh else RegisterWait(sh, TransactionHash(id), height)
  }

  /** The four steps of one lookup, taken by the machine with nothing in between, do what
      FindCoin does. */
  lemma UndisturbedLookup(sh: Shared, c: nat, call: Call)
    requires call.pc.ReadSeen? && sh.db != [] && sh.holder == None
    ensures var id := CurrentCoin(call);
            var inStore := CallStep(sh, c, CallStep(sh, c, call).call);
            inStore.sh == sh
            && if id in Store(sh.db) then inStore.call == Found(call, Store(sh.db)[id])
               else
                 inStore.call.pc.ReadCache?
                 && var inCache := CallStep(sh, c, inStore.call);
                    inCache.sh == sh
                    && if id in sh.cache then inCache.call == Found(call, sh.cache[id])
                       else
                         inCache.call.pc.LockWaiter?
                         && var locked := CallStep(sh, c, inCache.call);
                            locked.call.pc.Register?
                            && CallStep(locked.sh, c, locked.call) ==
                                 Moved(AfterLookup(sh, id, call.raw.height), Missing(call))
  {
    hide Store, TransactionHash, RegisterWait, Found, Missing, CurrentCoin;
    var id := CurrentCoin(call);
    forall pc: Pc
      ensures CurrentCoin(call.(pc := pc)) == id
      ensures Missing(call.(pc := pc)) == Missing(call)
      ensures forall coin :: Found(call.(pc := pc), coin) == Found(call, coin)
    {
      SameLookupAtAnyPc(call, pc);
    }
    IgnoresHolder(sh, TransactionHash(id), call.raw.height, c);
  }

  lemma SameLookupAtAnyPc(call: Call, pc: Pc)
    ensures CurrentCoin(call.(pc := pc)) == CurrentCoin(call)
    ensures Missing(call.(pc := pc)) == Missing(call)
    ensures forall coin :: Found(call.(pc := pc), coin) == Found(call, coin)
  {
  }

  lemma IgnoresHolder(sh: Shared, hash: string, height: int, c: nat)
    ensures RegisterWait(sh.(holder := Some(c)), hash, height) == RegisterWait(sh, hash, height)
  {
  }

  // ---------------------------------------------------------------- closing nothing

  lemma CloseNothing(sh: Shared, hashes: set<string>, aborting: bool)
    requires sh.table == map[]
    ensures CloseEntries(sh, hashes, aborting) == sh
  {
    assert Channels(sh.table, hashes) == {};
    assert CloseAll(sh.table, hashes, aborting) == map[];
  }
}
