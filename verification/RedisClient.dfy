/** The client object: its queues and conditions are shared by reference between one connection and the next. */
module RedisClient {
  import opened Wrappers
  import opened Queues
  import opened Outage

  class ConditionRecord {
    var select: int
    var resubscribe: Option<seq<Subscribing>>

    constructor (select: int)
      ensures this.select == select && resubscribe == None
    {
      this.select := select;
      resubscribe := None;
    }
  }

  class Redis {
    const options: Options
    var status: Status
    var condition: ConditionRecord
    var prevCondition: ConditionRecord?
    var commandQueue: Deque
    var prevCommandQueue: Deque?
    var offlineQueue: Deque
    var gathered: map<nat, seq<Write>>
    var wire: seq<Write>
    var rejected: seq<Item>

    /** A new client starts its first attempt at once. */
    constructor (options: Options)
      ensures Valid() && fresh(Parts()) && this.options == options
      ensures View()
          == Client(options, Connecting, Condition(options.db, None), NoCondition, [], NoQueue, [], map[], [], [])
    {
      this.options := options;
      status := Connecting;
      condition := new ConditionRecord(options.db);
      prevCondition := null;
      commandQueue := new Deque();
      prevCommandQueue := null;
      offlineQueue := new Deque();
      gathered, wire, rejected := map[], [], [];
    }

    ghost function Parts(): set<object>
      reads this
    {
      {condition, commandQueue, offlineQueue}
      + (if prevCondition == null then {} else var c: ConditionRecord := prevCondition; {c})
      + (if prevCommandQueue == null then {} else var q: Deque := prevCommandQueue; {q})
    }

    ghost predicate Valid()
      reads this
    {
      offlineQueue != commandQueue && offlineQueue != prevCommandQueue
    }

    ghost function View(): Client
      reads this, Parts()
    {
      Client(options, status, Condition(condition.select, condition.resubscribe),
             if prevCondition == null then NoCondition
             else if prevCondition == condition then SameCondition
             else OwnCondition(Condition(prevCondition.select, prevCondition.resubscribe)),
             commandQueue.items,
             if prevCommandQueue == null then NoQueue
             else if prevCommandQueue == commandQueue then SameQueue
             else OwnQueue(prevCommandQueue.items),
             offlineQueue.items, gathered, wire, rejected)
    }

    method WriteTo(w: Write, stream: Option<Pipe>)
      requires Valid()
      modifies this`wire, this`gathered
      ensures View() == WriteOut(old(View()), w, stream)
    {
      match stream
      case None => wire := wire + [w];
      case Some(pipe) =>
        var all := (if pipe.number in gathered then gathered[pipe.number] else []) + [w];
        if |all| == pipe.size {
          wire := wire + all;
          gathered := gathered - {pipe.number};
        } else {
          gathered := gathered[pipe.number := all];
        }
    }

    method SendCommand(command: Command, stream: Option<Pipe>, wants: Option<int>)
      requires Valid()
      modifies this`wire, this`gathered, this`rejected, condition, commandQueue, offlineQueue
      ensures Valid() && View() == Send(old(View()), command, stream, wants)
    {
      var item := Item(command, stream, condition.select);
      if status == End {
        rejected := rejected + [item];
        return;
      }
      var writable := status == Ready || (stream == None && status == Status.Connect && command.verb.Select?);
      if !writable {
        if !options.offlineQueue {
          rejected := rejected + [item];
          return;
        }
        offlineQueue.Push(item);
      } else {
        WriteTo(Write(command, wants), stream);
        commandQueue.Push(item);
      }
      if command.verb.Select? && command.verb.db.Some? {
        condition.select := command.verb.db.value;
      }
    }

    method SelectDb(db: int)
      requires Valid()
      modifies this`wire, this`gathered, this`rejected, condition, commandQueue, offlineQueue
      ensures Valid() && View() == SendSelect(old(View()), db)
    {
      if condition.select != db {
        SendCommand(SelectCommand(db), None, None);
      }
    }

    method ResendItem(item: Item)
      requires Valid()
      modifies this`wire, this`gathered, this`rejected, condition, commandQueue, offlineQueue
      ensures Valid() && View() == Resend(old(View()), item)
    {
      if item.select != condition.select && !item.command.verb.Select? {
        SelectDb(item.select);
      }
      SendCommand(item.command, item.stream, Some(item.select));
    }

    method FlushQueue()
      requires Valid()
      modifies this`rejected, commandQueue, offlineQueue
      ensures View() == Flush(old(View()))
    {
      ghost var waiting, answering, before := offlineQueue.items, commandQueue.items, rejected;
      while offlineQueue.items != []
        invariant rejected + offlineQueue.items == before + waiting
        invariant commandQueue.items == answering
        decreases |offlineQueue.items|
      {
        var item := offlineQueue.Shift();
        rejected := rejected + [item];
      }
      while commandQueue.items != []
        invariant rejected + commandQueue.items == before + waiting + answering
        invariant offlineQueue.items == []
        decreases |commandQueue.items|
      {
        var item := commandQueue.Shift();
        rejected := rejected + [item];
      }
    }

    method PruneQueues()
      requires Valid()
      modifies this`rejected, commandQueue, offlineQueue
      ensures View() == Prune(old(View()))
    {
      hide Incomplete, Fragments;
      NothingToPrune();
      if commandQueue.items != [] {
        var aborted := AbortIncompletePipelines(commandQueue);
        rejected := rejected + aborted;
      }
      if offlineQueue.items != [] {
        var aborted := AbortTransactionFragments(offlineQueue);
        rejected := rejected + aborted;
      }
    }

    method CloseHandler(retry: bool, flush: bool)
      requires Valid()
      modifies this, commandQueue, offlineQueue
      ensures Valid() && View() == OnClose(old(View()), retry, flush) && Parts() <= old(Parts())
    {
      hide Prune;
      PruneQueues();
      if status == Ready {
        if prevCondition == null {
          prevCondition := condition;
        }
        if commandQueue.items != [] {
          prevCommandQueue := commandQueue;
        }
      }
      if !retry {
        status := End;
        FlushQueue();
        return;
      }
      status := Reconnecting;
      if flush {
        FlushQueue();
      }
    }

    method Connect()
      requires Valid()
      modifies this
      ensures Valid() && View() == OnAttempt(old(View())) && fresh(Parts() - old(Parts()))
    {
      status := Connecting;
      condition := new ConditionRecord(options.db);
    }

    /** The handshake of the new stream selects the condition's database. */
    method ConnectHandler()
      requires Valid()
      modifies this
      ensures Valid() && View() == OnConnect(old(View())) && prevCommandQueue != commandQueue
      ensures fresh(Parts() - old(Parts()))
    {
      commandQueue := new Deque();
      status := Status.Connect;
      wire := if condition.select != 0 then [Write(SelectCommand(condition.select), None)] else [];
    }

    method ReadyHandler()
      requires Valid() && prevCommandQueue != commandQueue
      modifies this, Parts()
      ensures Valid() && View() == OnReady(old(View())) && fresh(Parts() - old(Parts()))
    {
      hide ResendPrevious, ResendOffline, SendSelect, Outage.Resubscribe;
      status := Ready;
      var finalSelect := if prevCondition != null then prevCondition.select else condition.select;
      ForgetCondition(finalSelect);
      ResendUnfulfilled();
      DrainOffline();
      SelectDb(finalSelect);
    }

    /** The condition from before the outage is used once, to subscribe again. */
    method ForgetCondition(finalSelect: int)
      requires Valid() && finalSelect == View().Remembered().select
      modifies this`prevCondition, this`wire, this`gathered, this`rejected, condition, commandQueue, offlineQueue
      ensures Valid() && prevCondition == null
      ensures View() == if old(prevCondition) == null then old(View())
                        else Outage.Resubscribe(old(View()).(prevCondition := NoCondition), old(View()).Remembered())
    {
      hide SendAll, SendSelect;
      if prevCondition != null {
        var previous := prevCondition;
        prevCondition := null;
        if previous.resubscribe.Some? && options.autoResubscribe {
          Resubscribe(finalSelect, previous.resubscribe.value);
        }
      }
    }

    method ResendUnfulfilled()
      requires Valid() && prevCommandQueue != commandQueue
      modifies this`prevCommandQueue, this`wire, this`gathered, this`rejected, condition, commandQueue, offlineQueue,
               prevCommandQueue
      ensures Valid() && View() == ResendPrevious(old(View()))
      ensures prevCommandQueue == null || prevCommandQueue == old(prevCommandQueue)
    {
      hide ResendAll;
      if prevCommandQueue != null {
        if options.autoResend {
          DrainPrevious();
        } else {
          prevCommandQueue := null;
        }
      }
    }

    method Resubscribe(db: int, commands: seq<Subscribing>)
      requires Valid()
      modifies this`wire, this`gathered, this`rejected, condition, commandQueue, offlineQueue
      ensures Valid() && View() == SendAll(SendSelect(old(View()), db), commands)
    {
      SelectDb(db);
      ghost var selected := View();
      for i := 0 to |commands|
        invariant Valid() && SendAll(View(), commands[i..]) == SendAll(selected, commands)
      {
        assert commands[i..][1..] == commands[i + 1..];
        SendCommand(commands[i], None, None);
      }
    }

    method DrainPrevious()
      requires Valid() && prevCommandQueue != null && prevCommandQueue != commandQueue
      modifies this`wire, this`gathered, this`rejected, condition, commandQueue, offlineQueue, prevCommandQueue
      ensures Valid() && View() == ResendAll(old(View()).(prevQueue := OwnQueue([])), old(prevCommandQueue.items))
    {
      hide ResendAll, Resend;
      ghost var target := ResendAll(View().(prevQueue := OwnQueue([])), prevCommandQueue.items);
      while prevCommandQueue.items != []
        invariant Valid() && ResendAll(View().(prevQueue := OwnQueue([])), prevCommandQueue.items) == target
        decreases |prevCommandQueue.items|
      {
        ghost var v, items := View(), prevCommandQueue.items;
        var item := prevCommandQueue.Shift();
        ghost var left := prevCommandQueue.items;
        ResendItem(item);
        ResendFirst(v.(prevQueue := OwnQueue([])), items);
        ResendElsewhere(v, item, OwnQueue(left), OwnQueue([]));
      }
      ResendNone(View());
    }

    method DrainOffline()
      requires Valid()
      modifies this, condition, commandQueue, offlineQueue
      ensures Valid() && View() == ResendOffline(old(View())) && fresh(offlineQueue)
      ensures condition == old(condition) && commandQueue == old(commandQueue) && status == old(status)
      ensures prevCondition == old(prevCondition) && prevCommandQueue == old(prevCommandQueue)
    {
      hide ResendAll, Resend;
      var queue := offlineQueue;
      ghost var target := ResendOffline(View());
      offlineQueue := new Deque();
      while queue.items != []
        invariant Valid() && queue != offlineQueue && queue != commandQueue && queue != prevCommandQueue
            && fresh(offlineQueue)
        invariant condition == old(condition) && commandQueue == old(commandQueue) && status == old(status)
        invariant prevCondition == old(prevCondition) && prevCommandQueue == old(prevCommandQueue)
        invariant ResendAll(View(), queue.items) == target
        decreases |queue.items|
      {
        ghost var v, items := View(), queue.items;
        var item := queue.Shift();
        ResendItem(item);
        ResendFirst(v, items);
      }
      ResendNone(View());
    }
  }

  lemma ResendFirst(s: Client, items: seq<Item>)
    requires items != []
    ensures ResendAll(s, items) == ResendAll(Resend(s, items[0]), items[1..])
  {
  }

  lemma ResendNone(s: Client)
    ensures ResendAll(s, []) == s
  {
  }

  lemma NothingToPrune()
    ensures Incomplete([], 0) == Pruned([], []) && Fragments([]) == Pruned([], [])
  {
  }

  /** Sending does not look at the queue that is being drained. */
  lemma SendElsewhere(s: Client, command: Command, stream: Option<Pipe>, wants: Option<int>, a: PrevQueue, b: PrevQueue)
    ensures Send(s.(prevQueue := a), command, stream, wants).(prevQueue := b)
        == Send(s.(prevQueue := b), command, stream, wants)
    ensures Send(s.(prevQueue := a), command, stream, wants).prevQueue == a
  {
    hide WriteOut;
    WriteElsewhere(s, Write(command, wants), stream, a, b);
  }

  lemma WriteElsewhere(s: Client, w: Write, stream: Option<Pipe>, a: PrevQueue, b: PrevQueue)
    ensures WriteOut(s.(prevQueue := a), w, stream).(prevQueue := b) == WriteOut(s.(prevQueue := b), w, stream)
    ensures WriteOut(s.(prevQueue := a), w, stream).prevQueue == a
  {
  }

  lemma ResendElsewhere(s: Client, item: Item, a: PrevQueue, b: PrevQueue)
    ensures Resend(s.(prevQueue := a), item).(prevQueue := b) == Resend(s.(prevQueue := b), item)
  {
    hide Send;
    SendElsewhere(s, SelectCommand(item.select), None, None, a, b);
    var selects := !item.command.verb.Select? && s.condition.select != item.select;
    var t := if selects then Send(s.(prevQueue := a), SelectCommand(item.select), None, None) else s.(prevQueue := a);
    assert t == t.(prevQueue := a);
    SendElsewhere(t, item.command, item.stream, Some(item.select), a, b);
  }
}
