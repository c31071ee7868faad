/**
 The abort pass of BlockAdded: no wait is stranded. An open entry whose earliest block is the
 one after the head would wait for a transaction that can no longer arrive; the pass closes
 it, and it can only come back through a registration made too late.
 */
module PipelineAborts {
  import opened Blocks
  import opened CoinIds
  import opened Pipeline
  import opened PipelineWaits
  import opened PipelineTruth

  predicate AbortPending(sh: Shared) { !sh.adder.Idle? }

  /** A height at which a wait may stand open: beyond the next block, or at the next block while
      the abort pass of the head is still to come. */
  predicate Ahead(sh: Shared, height: int) {
    sh.db == [] || height > Head(sh.db).index + 1 || (AbortPending(sh) && height == Head(sh.db).index + 1)
  }

  ghost predicate OpenAhead(sh: Shared) {
    forall h :: h in sh.table && !sh.table[h].channelClosed ==> Ahead(sh, sh.table[h].earliestBlock)
  }

  /** The adder works on the head block, and committed heights are consecutive. */
  ghost predicate HeadInOrder(sh: Shared) {
    && (sh.adder.Evict? || sh.adder.Abort? ==> sh.db != [] && sh.db[|sh.db| - 1] == sh.adder.b)
    && forall k :: 0 < k < |sh.db| ==> sh.db[k].id.index == sh.db[k - 1].id.index + 1
  }

  /** A registration that is about to happen. */
  predicate Registers(s: State, c: nat) {
    c in s.calls && s.calls[c].pc.Register? && s.sh.seen == s.calls[c].pc.startSeen
  }

  /** The hypothesis. findCoins checks the header once, when it starts, so the head can come to
      stand right below a block whose search goes on (PipelineStranded has such a run); such a
      search must not register a wait on an open entry after the head's abort pass. And when the
      store is empty, the first block added is below every open wait. */
  ghost predicate RegistersAhead(s: State, step: Step) {
    && (step.Act? && Registers(s, step.c) ==>
          RegistrationAhead(s.sh, TransactionHash(CurrentCoin(s.calls[step.c])), s.calls[step.c].raw.height))
    && (step.Commit? && s.sh.db == [] ==>
          forall h :: h in s.sh.table && !s.sh.table[h].channelClosed ==> s.sh.table[h].earliestBlock > step.b.id.index)
  }

  predicate RegistrationAhead(sh: Shared, hash: string, height: int) {
    Ahead(sh, height) || (hash in sh.table && sh.table[hash].channelClosed)
  }

  /** After BlockAdded for index n, no open entry has earliest block n + 1. */
  lemma AbortPassClosesNext(sh: Shared)
    requires sh.adder.Abort? && CanAdvanceAdder(sh)
    ensures forall h :: h in AdvanceAdder(sh).table && !AdvanceAdder(sh).table[h].channelClosed ==>
              AdvanceAdder(sh).table[h].earliestBlock != sh.adder.b.id.index + 1
    ensures forall h :: h in sh.table && !sh.table[h].channelClosed && AdvanceAdder(sh).table[h].channelClosed ==>
              sh.table[h].earliestBlock == sh.adder.b.id.index + 1 && AdvanceAdder(sh).table[h].aborted
  {
    hide ClosesOnce, Channels;
  }

  lemma RegisterOpensAhead(sh: Shared, hash: string, height: int)
    requires OpenAhead(sh)
    ensures OpenAhead(RegisterWait(sh, hash, height)) <==> RegistrationAhead(sh, hash, height)
  {
    hide Head;
    var sh' := RegisterWait(sh, hash, height);
    assert hash in sh'.table;
    if RegistrationAhead(sh, hash, height) {
      forall h | h in sh'.table && !sh'.table[h].channelClosed
        ensures Ahead(sh', sh'.table[h].earliestBlock)
      {
        if h != hash {
          assert sh'.table[h] == sh.table[h];
        }
      }
    } else {
      assert !sh'.table[hash].channelClosed && sh'.table[hash].earliestBlock <= height;
      assert !Ahead(sh', sh'.table[hash].earliestBlock);
    }
  }

  lemma CallStepOpensAhead(sh: Shared, c: nat, call: Call)
    requires CanStep(sh, call) && OpenAhead(sh)
    ensures OpenAhead(CallStep(sh, c, call).sh) <==>
              (call.pc.Register? && sh.seen == call.pc.startSeen ==>
                 RegistrationAhead(sh, TransactionHash(CurrentCoin(call)), call.raw.height))
    ensures CallStep(sh, c, call).sh.adder == sh.adder
  {
    hide StepCheckHeader, StepReadStore, StepReadCache, StepGetEntry, StepParse, Missing, Woken, WaitHash, Head,
      BlockCoins, RegisterWait, ClosesOnce, Channels, CurrentCoin, TransactionHash, RegistrationAhead;
    if call.pc.Register? && sh.seen == call.pc.startSeen {
      RegisterOpensAhead(sh, TransactionHash(CurrentCoin(call)), call.raw.height);
      RegisterKeepsAdder(sh, TransactionHash(CurrentCoin(call)), call.raw.height);
    } else if !MayWrite(call.pc) {
      StepKeepsShared(sh, c, call);
    }
  }

  lemma RegisterKeepsAdder(sh: Shared, hash: string, height: int)
    ensures RegisterWait(sh, hash, height).adder == sh.adder
  {
  }

  lemma CommitOpensAhead(s: State, b: Block)
    requires OpenAhead(s.sh) && HeadInOrder(s.sh) && Enabled(s, Commit(b))
    ensures OpenAhead(Apply(s, Commit(b)).sh) <==> RegistersAhead(s, Commit(b))
  {
    hide HeadInOrder;
    var sh' := Apply(s, Commit(b)).sh;
    assert Head(sh'.db) == b.id;
    assert forall h :: h in s.sh.table && !s.sh.table[h].channelClosed ==> Ahead(s.sh, s.sh.table[h].earliestBlock);
    if OpenAhead(sh') && s.sh.db == [] {
      forall h | h in s.sh.table && !s.sh.table[h].channelClosed
        ensures s.sh.table[h].earliestBlock > b.id.index
      {
        assert Ahead(sh', sh'.table[h].earliestBlock);
      }
    }
  }

  /** The hypothesis is exact: a step keeps every open wait ahead if and only if it meets it. */
  lemma StepOpensAhead(s: State, step: Step)
    requires OpenAhead(s.sh) && HeadInOrder(s.sh) && Enabled(s, step)
    ensures OpenAhead(Apply(s, step).sh) <==> RegistersAhead(s, step)
    ensures HeadInOrder(Apply(s, step).sh)
  {
    hide CallStep, CanStep, BlockCoins, ClosesOnce, Channels, RegistrationAhead, CurrentCoin, TransactionHash;
    if step.Act? {
      CallStepOpensAhead(s.sh, step.c, s.calls[step.c]);
      CallKeepsStores(s.sh, step.c, s.calls[step.c]);
    } else if step.Commit? {
      CommitOpensAhead(s, step.b);
    }
  }

  /** No stranded wait: under the hypothesis, in every state of every run, each open entry waits
      at a height beyond the next block, or the abort pass that will close it is pending. */
  lemma {:induction false} NoStrandedWait(states: seq<State>, steps: seq<Step>, n: nat)
    requires IsRun(states, steps) && Initial(states[0]) && n < |states|
    requires HeadInOrder(states[0].sh)
    requires forall k :: 0 <= k < |steps| ==> RegistersAhead(states[k], steps[k])
    ensures OpenAhead(states[n].sh) && HeadInOrder(states[n].sh)
  {
    hide Enabled, Apply, RegistersAhead, HeadInOrder;
    if n > 0 {
      NoStrandedWait(states, steps, n - 1);
      StepOpensAhead(states[n - 1], steps[n - 1]);
    }
  }

  /** Over runs the hypothesis is exact too: no wait is ever stranded if and only if every step of
      the run meets it. */
  lemma NoStrandedWaitIff(states: seq<State>, steps: seq<Step>)
    requires IsRun(states, steps) && Initial(states[0]) && HeadInOrder(states[0].sh)
    ensures (forall n :: 0 <= n < |states| ==> OpenAhead(states[n].sh))
            <==> (forall k :: 0 <= k < |steps| ==> RegistersAhead(states[k], steps[k]))
  {
    hide OpenAhead, HeadInOrder, RegistersAhead, Enabled, Apply, Initial;
    if forall k :: 0 <= k < |steps| ==> RegistersAhead(states[k], steps[k]) {
      forall n | 0 <= n < |states|
        ensures OpenAhead(states[n].sh)
      {
        NoStrandedWait(states, steps, n);
      }
    }
    if forall n :: 0 <= n < |states| ==> OpenAhead(states[n].sh) {
      AheadMeans(states, steps, |steps|);
    }
  }

  lemma {:induction false} AheadMeans(states: seq<State>, steps: seq<Step>, n: nat)
    requires IsRun(states, steps) && HeadInOrder(states[0].sh) && n <= |steps|
    requires forall m :: 0 <= m < |states| ==> OpenAhead(states[m].sh)
    ensures HeadInOrder(states[n].sh) && forall k :: 0 <= k < n ==> RegistersAhead(states[k], steps[k])
  {
    hide OpenAhead, HeadInOrder, RegistersAhead, Enabled, Apply;
    if n > 0 {
      AheadMeans(states, steps, n - 1);
      StepOpensAhead(states[n - 1], steps[n - 1]);
    }
  }
}
