/**
 The wait table as the program holds it (indexer/wait_table.go): a map whose entries are
 objects that several calls mutate in place, each with a channel that may be closed once.
 View is the value the state machine of Pipeline works on.
 */
module WaitTables {
  import opened Pipeline

  /** An entry once a call for a block at a height listens to it. */
  function Listened(e: Entry, height: int): Entry {
    e.(listeners := e.listeners + 1, earliestBlock := if e.earliestBlock > height then height else e.earliestBlock)
  }

  /** A Go channel that is only ever closed. Closing a closed channel panics, so Close may not
      be called on one; id tells channels apart. */
  class Channel {
    ghost const id: nat
    var closed: bool

    constructor (ghost id: nat)
      ensures this.id == id && !closed
    {
      this.id := id;
      closed := false;
    }

    method Close()
      requires !closed
      modifies this
      ensures closed
    {
      closed := true;
    }
  }

  class WaitTableEntry {
    var listeners: int
    const channel: Channel
    var channelClosed: bool
    var aborted: bool
    var earliestBlock: int

    constructor (channel: Channel, earliestBlock: int)
      ensures this.channel == channel
      ensures Valid() == !channel.closed && View() == Entry(0, channel.id, false, false, earliestBlock)
    {
      this.channel := channel;
      this.earliestBlock := earliestBlock;
      listeners, channelClosed, aborted := 0, false, false;
    }

    ghost function View(): Entry
      reads this
    {
      Entry(listeners, channel.id, channelClosed, aborted, earliestBlock)
    }

    /** The flag tells whether the channel is closed. */
    ghost predicate Valid()
      reads this, channel
    {
      channelClosed == channel.closed
    }

    /** Lines 623-626 of indexer.go. */
    method Listen(height: int)
      requires Valid()
      modifies this
      ensures Valid()
      ensures View() == Listened(old(View()), height)
    {
      if earliestBlock > height {
        earliestBlock := height;
      }
      listeners := listeners + 1;
    }

    /** Line 723 of indexer.go. */
    method Unlisten()
      requires Valid()
      modifies this
      ensures Valid()
      ensures View() == old(View()).(listeners := old(listeners) - 1)
    {
      listeners := listeners - 1;
    }

    /** Closes the channel, and marks the entry aborted if the wait is in vain. */
    method Close(aborting: bool)
      requires Valid() && !channelClosed
      modifies this, channel
      ensures Valid()
      ensures View() == old(View()).(channelClosed := true, aborted := old(aborted) || aborting)
    {
      channelClosed := true;
      if aborting {
        aborted := true;
      }
      channel.Close();
    }
  }

  class WaitTable {
    var table: map<string, WaitTableEntry>
    ghost var channelsMade: nat

    constructor ()
      ensures table == map[] && Valid() && View() == map[] && channelsMade == 0
    {
      table, channelsMade := map[], 0;
    }

    ghost function Entries(): set<WaitTableEntry>
      reads this
    {
      set h | h in table :: table[h]
    }

    ghost function OpenChannels(): set<Channel>
      reads this
    {
      set h | h in table :: table[h].channel
    }

    /** No two hashes share a channel, hence none an entry; channels are numbered in the order
        they are made; and the flag tells whether the channel is closed. */
    ghost predicate Valid()
      reads this, Entries(), OpenChannels()
    {
      && (forall h :: h in table ==> table[h].channel.id < channelsMade)
      && (forall g, h :: g in table && h in table && g != h ==> table[g].channel.id != table[h].channel.id)
      && (forall h :: h in table ==> table[h].Valid())
    }

    ghost function View(): (v: Table)
      reads this, Entries()
      ensures v.Keys == table.Keys
    {
      map h | h in table :: table[h].View()
    }

    /** What Valid says of each entry. */
    lemma Parts()
      requires Valid()
      ensures forall h :: h in table ==> table[h].Valid() && table[h].View() == View()[h]
      ensures forall h :: h in table ==> table[h].channel.id < channelsMade
      ensures forall g, h :: g in table && h in table && g != h ==> table[g].channel.id != table[h].channel.id
    {
    }

    /** The table after the entry of one hash was changed or made. */
    lemma Updated(was: Table, key: string, entry: Entry)
      requires key in table && table.Keys == was.Keys + {key}
      requires table[key].Valid() && table[key].View() == entry && table[key].channel.id < channelsMade
      requires forall h :: h in table && h != key ==> table[h].Valid() && table[h].View() == was[h]
      requires forall h :: h in table && h != key ==>
                 table[h].channel.id < channelsMade && table[h].channel.id != table[key].channel.id
      requires forall g, h :: g in table && h in table && g != key && h != key && g != h ==>
                 table[g].channel.id != table[h].channel.id
      ensures Valid() && View() == was[key := entry]
    {
    }

    /** The table when the entry of one hash, if there was one, is gone. */
    lemma Without(was: Table, key: string)
      requires table.Keys == was.Keys - {key}
      requires forall h :: h in table ==>
                 table[h].Valid() && table[h].View() == was[h] && table[h].channel.id < channelsMade
      requires forall g, h :: g in table && h in table && g != h ==> table[g].channel.id != table[h].channel.id
      ensures Valid() && View() == was - {key}
    {
    }

    lemma ViewOf(key: string)
      requires key in table
      ensures View()[key] == table[key].View()
    {
    }

    function Get(key: string): (value: WaitTableEntry?)
      reads this
      ensures value == null <==> key !in table
    {
      if key in table then table[key] else null
    }

    method Set(key: string, value: WaitTableEntry)
      requires Valid() && value.Valid() && value.channel.id < channelsMade
      requires forall h :: h in table && h != key ==> table[h].channel.id != value.channel.id
      modifies this`table
      ensures Valid() && View() == old(View())[key := value.View()]
      ensures table == old(table)[key := value]
    {
      hide WaitTable.View, WaitTable.Valid, WaitTableEntry.View, WaitTableEntry.Valid;
      Parts();
      ghost var was := View();
      table := table[key := value];
      Updated(was, key, value.View());
    }

    method Delete(key: string)
      requires Valid()
      modifies this`table
      ensures Valid() && View() == old(View()) - {key}
      ensures table == old(table) - {key}
    {
      hide WaitTable.View, WaitTable.Valid, WaitTableEntry.View, WaitTableEntry.Valid;
      Parts();
      ghost var was := View();
      table := table - {key};
      Without(was, key);
    }

    /** Closes the channel of an entry, and marks it aborted if its wait is in vain. */
    method CloseEntry(key: string, aborting: bool)
      requires Valid() && key in table && !table[key].channelClosed
      modifies table[key], table[key].channel
      ensures Valid()
      ensures View() == CloseAll(old(View()), {key}, aborting)
    {
      hide WaitTable.View, WaitTable.Valid, WaitTableEntry.Valid, CloseAll;
      ghost var was := View();
      Parts();
      table[key].Close(aborting);
      Updated(was, key, was[key].(channelClosed := true, aborted := was[key].aborted || aborting));
      ClosedIs(was, key, aborting);
    }

    /** The entry of a hash, or a new one that is not in the table yet. */
    method GetOrMake(key: string, height: int) returns (val: WaitTableEntry)
      requires Valid()
      modifies this`channelsMade
      ensures Valid() && View() == old(View()) && val.Valid() && val.channel.id < channelsMade
      ensures if key in table then val == table[key] else fresh(val) && fresh(val.channel)
      ensures forall h :: h in table && h != key ==> table[h].channel.id != val.channel.id
      ensures val.View() ==
                if key in table then View()[key] else Entry(0, old(channelsMade), false, false, height)
      ensures channelsMade == if key in table then old(channelsMade) else old(channelsMade) + 1
    {
      hide WaitTable.View, WaitTable.Valid, WaitTableEntry.View, WaitTableEntry.Valid;
      ghost var was := View();
      Parts();
      var entry := Get(key);
      if entry == null {
        var channel := new Channel(channelsMade);
        channelsMade := channelsMade + 1;
        val := new WaitTableEntry(channel, height);
        Without(was, key);
        WithoutNone(was, key);
      } else {
        val := entry;
      }
    }

    /** A listener joins the entry of a hash, made if there is none. */
    method Join(key: string, height: int)
      requires Valid()
      modifies this, Entries()
      ensures Valid()
      ensures View() == Joined(old(View()), key, height, old(channelsMade))
      ensures channelsMade == if key in old(table) then old(channelsMade) else old(channelsMade) + 1
      ensures key in table && table == old(table)[key := table[key]]
      ensures if key in old(table) then table == old(table) else fresh(table[key]) && fresh(table[key].channel)
    {
      hide WaitTable.View, WaitTable.Valid, WaitTableEntry.View, WaitTableEntry.Valid, Joined, Listened;
      ghost var was := View();
      var val := GetOrMake(key, height);
      Parts();
      ghost var entry := val.View();
      val.Listen(height);
      if key in table {
        Updated(was, key, Listened(entry, height));
      } else {
        Without(was, key);
        WithoutNone(was, key);
      }
      Set(key, val);
      JoinedIs(was, key, height, old(channelsMade));
    }

    /** A listener leaves the entry of a hash, and the last one removes it. */
    method Leave(key: string)
      requires Valid() && key in table
      modifies this`table, Entries()
      ensures Valid()
      ensures View() == Left(old(View()), key)
      ensures table == old(table) || table == old(table) - {key}
    {
      hide WaitTable.View, WaitTable.Valid, WaitTableEntry.Valid, Left;
      ghost var was := View();
      Parts();
      var val := Get(key);
      val.Unlisten();
      Updated(was, key, was[key].(listeners := was[key].listeners - 1));
      if val.listeners == 0 {
        Delete(key);
      } else {
        Set(key, val);
      }
      LeftIs(was, key);
    }
  }

  lemma ClosedIs(table: Table, hash: string, aborting: bool)
    requires hash in table
    ensures CloseAll(table, {hash}, aborting) ==
              table[hash := table[hash].(channelClosed := true, aborted := table[hash].aborted || aborting)]
  {
  }

  lemma LeftIs(table: Table, hash: string)
    requires hash in table
    ensures var e := table[hash].(listeners := table[hash].listeners - 1);
            Left(table, hash) == if e.listeners == 0 then table[hash := e] - {hash} else table[hash := e][hash := e]
  {
  }

  lemma JoinedIs(table: Table, hash: string, height: int, newChannel: nat)
    ensures var was := if hash in table then table[hash] else Entry(0, newChannel, false, false, height);
            var e := Listened(was, height);
            Joined(table, hash, height, newChannel) == table[hash := e] == table[hash := e][hash := e]
  {
  }

  lemma WithoutNone(table: Table, hash: string)
    requires hash !in table
    ensures table - {hash} == table
  {
  }
}
