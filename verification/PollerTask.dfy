/** The order-status poller: what it waits for, what it polls, and one tick of its timer. */
module PollerTask {
  import opened Types
  import opened State
  import opened Store
  import opened OrderPolling
  import opened Protocol
  import opened SharedWorld

  type Replies = nat -> Option<OrderUpdate>

  /** A reply is about the position it was asked for. */
  ghost predicate Sound(replies: Replies) {
    forall pid: nat :: ReplyFor(replies(pid), pid)
  }

  predicate Finishes(replies: Replies, pid: nat) {
    replies(pid).Some? && replies(pid).value.Terminal()
  }

  /** `polls` asks about each of `pids` exactly once. */
  ghost predicate PollsEach(polls: seq<Event>, pids: set<nat>, replies: Replies) {
    && |polls| == |pids|
    && (forall i :: 0 <= i < |polls| ==> polls[i].PollOrder? && polls[i].pid in pids && polls[i].reply == replies(polls[i].pid))
    && (forall i, j :: 0 <= i < j < |polls| ==> polls[i].pid != polls[j].pid)
  }

  function FinishedBy(replies: Replies, pids: set<nat>): set<nat> {
    set p | p in pids && Finishes(replies, p)
  }

  ghost predicate Progress(polls: seq<Event>, done: set<nat>, asked: set<nat>, replies: Replies) {
    PollsEach(polls, asked, replies) && done == FinishedBy(replies, asked)
  }

  lemma OneMore(polls: seq<Event>, done: set<nat>, asked: set<nat>, replies: Replies, pid: nat)
    requires Progress(polls, done, asked, replies) && pid !in asked
    ensures Progress(polls + [PollOrder(pid, replies(pid))],
                     if Finishes(replies, pid) then done + {pid} else done, asked + {pid}, replies)
  {
  }

  lemma OneFewerTodo(polls: seq<Event>, done: set<nat>, tracked: set<nat>, todo: set<nat>, replies: Replies, pid: nat)
    requires Progress(polls, done, tracked - todo, replies) && pid in todo && todo <= tracked
    ensures Progress(polls + [PollOrder(pid, replies(pid))],
                     if Finishes(replies, pid) then done + {pid} else done, tracked - (todo - {pid}), replies)
  {
    OneMore(polls, done, tracked - todo, replies, pid);
    assert tracked - (todo - {pid}) == (tracked - todo) + {pid};
  }

  lemma ResolveNothing(t: Tracking)
    ensures Resolve(t, map[]) == t
  {
    assert t.tracked + map[] == t.tracked;
  }

  lemma OneMoreRow(seen: Rows, pid: nat, row: Row)
    requires pid !in seen && SqlOpen(row)
    ensures OrderIdsOf(seen[pid := row]) ==
              if row.orderId.Some? then OrderIdsOf(seen)[pid := row.orderId.value] else OrderIdsOf(seen)
  {
  }

  lemma ResolveOneMore(t: Tracking, known: map<nat, string>, pid: nat, oid: string)
    requires pid !in known
    ensures var r := Resolve(t, known);
            Resolve(t, known[pid := oid]) ==
              if pid in r.awaiting then Tracking(r.awaiting - {pid}, r.tracked[pid := oid]) else r
  {
    var r, u := Resolve(t, known), Resolve(t, known[pid := oid]);
    assert u.awaiting == r.awaiting - {pid};
    if pid in r.awaiting {
      assert u.tracked == r.tracked[pid := oid];
    } else {
      assert u.tracked == r.tracked;
    }
  }

  /** What a tick knows: the order ids of the rows neither settled, rejected nor cancelled, as they are
      after whatever the others did while the call was under way; nothing when no fetch is made or it fails. */
  ghost predicate FetchedBy(s: System, fetched: bool, others: seq<Event>, known: map<nat, string>) {
    && Meanwhile(Task.Poller, s, others)
    && var rows := After(s, others).db.rows;
       && (!fetched ==> known == map[])
       && (fetched ==> forall p :: p in known <==> p in rows && StillOpen(rows[p].status) && rows[p].orderId.Some?)
       && (fetched ==> forall p :: p in known ==> rows[p].orderId == Some(known[p]))
  }

  ghost predicate StillOpen(status: PositionStatus) {
    status.Submitted? || status.Filled? || status.Settling? || status.Redeemed?
  }

  /** The orders polled: those tracked before, and the awaited ones whose order id is known now. */
  ghost predicate ToPoll(polled: map<nat, string>, awaiting: set<nat>, tracked: map<nat, string>, known: map<nat, string>) {
    && (forall p :: p in polled <==> p in tracked || (p in awaiting && p in known))
    && (forall p :: p in polled ==> polled[p] == if p in awaiting && p in known then known[p] else tracked[p])
  }

  ghost predicate Ended(replies: Replies, p: nat) {
    replies(p).Some? && (replies(p).value.OrderFilled? || replies(p).value.OrderRejected? || replies(p).value.OrderCancelled?)
  }

  /** Every reply is in the queue behind what was there before. */
  ghost predicate PassedOn(before: seq<OrderUpdate>, after: seq<OrderUpdate>, pids: set<nat>, replies: Replies) {
    before <= after && forall p :: p in pids && replies(p).Some? ==> replies(p).value in after[|before|..]
  }

  lemma PassedOnMore(before: seq<OrderUpdate>, mid: seq<OrderUpdate>, after: seq<OrderUpdate>, pids: set<nat>,
                     replies: Replies, pid: nat)
    requires PassedOn(before, mid, pids, replies) && mid <= after
    requires replies(pid).Some? ==> replies(pid).value in after[|mid|..]
    ensures PassedOn(before, after, pids + {pid}, replies)
  {
    assert forall i :: |before| <= i < |mid| ==> after[i] == mid[i];
    forall p | p in pids + {pid} && replies(p).Some? ensures replies(p).value in after[|before|..] {
      if p in pids {
        var i :| 0 <= i < |mid[|before|..]| && mid[|before|..][i] == replies(p).value;
        assert after[|before|..][i] == mid[|before| + i];
      } else {
        var i :| 0 <= i < |after[|mid|..]| && after[|mid|..][i] == replies(p).value;
        assert after[|before|..][|mid| - |before| + i] == after[|mid| + i];
      }
    }
  }

  lemma PassedOnLater(before: seq<OrderUpdate>, mid: seq<OrderUpdate>, after: seq<OrderUpdate>, pids: set<nat>, replies: Replies)
    requires before <= mid && PassedOn(mid, after, pids, replies)
    ensures PassedOn(before, after, pids, replies)
  {
    forall p | p in pids && replies(p).Some? ensures replies(p).value in after[|before|..] {
      var i :| 0 <= i < |after[|mid|..]| && after[|mid|..][i] == replies(p).value;
      assert after[|before|..][|mid| - |before| + i] == after[|mid| + i];
    }
  }

  lemma ResolvedIs(awaiting: set<nat>, tracked: map<nat, string>, known: map<nat, string>)
    ensures var t := Resolve(Tracking(awaiting, tracked), known);
            t.awaiting == awaiting - known.Keys && ToPoll(t.tracked, awaiting, tracked, known)
  {
  }

  lemma FinishedIs(replies: Replies, pids: set<nat>)
    ensures FinishedBy(replies, pids) == set p | p in pids && Ended(replies, p)
  {
  }

  class Poller {
    const world: World
    var awaiting: set<nat>
    var tracked: map<nat, string>

    ghost predicate Valid() reads this, world, world.store {
      world.Valid() && world.sys.poll.phase.PollIdle? && world.sys.poll.tracking == Tracking(awaiting, tracked)
    }

    constructor (world: World)
      requires world.Valid() && world.sys.poll.phase.PollIdle? && world.sys.poll.tracking == Tracking({}, map[])
      ensures Valid() && this.world == world
    {
      this.world := world;
      awaiting, tracked := {}, map[];
    }

    method OnSlotChanged()
      requires Valid() && world.slotUnseen
      modifies this`awaiting, world
      ensures Valid()
      ensures match old(world.slot)
              case Pending(pid) => awaiting == old(awaiting) + {pid}
              case _ => awaiting == old(awaiting)
      ensures Own(Task.Poller, world.trace) == old(Own(Task.Poller, world.trace)) + [SeeSlot]
    {
      var now := world.TakeSlot();
      if now.Pending? {
        awaiting := awaiting + {now.positionId};
      }
    }

    /** One tick: resolve order ids from the rows as the fetch finds them, poll every tracked order
        once and pass every reply on, drop the finished ones. Nothing is fetched while nothing is awaited. */
    method OnTick(storeUp: bool, replies: Replies)
      returns (ghost others: seq<Event>, ghost known: map<nat, string>, ghost polled: map<nat, string>, ghost polls: seq<Event>)
      requires Valid() && Sound(replies)
      modifies this, world, world.store
      ensures Valid()
      ensures FetchedBy(old(world.sys), old(awaiting) != {} && storeUp, others, known)
      ensures awaiting == old(awaiting) - known.Keys && ToPoll(polled, old(awaiting), old(tracked), known)
      ensures PollsEach(polls, polled.Keys, replies)
      ensures PassedOn(old(world.orders), world.orders, polled.Keys, replies)
      ensures tracked == polled - (set p | p in polled && Ended(replies, p))
      ensures Own(Task.Poller, world.trace) == old(Own(Task.Poller, world.trace)) +
                [Fetch(storeUp)] + (if old(awaiting) == {} || !storeUp then [] else [ResolveIds]) + polls + [PollDone]
    {
      ghost var queue := world.orders;
      others, known := Refresh(storeUp);
      ResolvedIs(old(awaiting), old(tracked), known);
      polled := tracked;
      ghost var mid := world.orders;
      polls := PollAndDrop(replies);
      FinishedIs(replies, polled.Keys);
      PassedOnLater(queue, mid, world.orders, polled.Keys, replies);
    }

    method PollAndDrop(replies: Replies) returns (ghost polls: seq<Event>)
      requires world.Valid() && Sound(replies)
      requires world.sys.poll.tracking == Tracking(awaiting, tracked) && world.sys.poll.phase == Polling(tracked.Keys, {})
      modifies this`tracked, world, world.store
      ensures Valid() && tracked == old(tracked) - FinishedBy(replies, old(tracked).Keys)
      ensures PollsEach(polls, old(tracked).Keys, replies)
      ensures PassedOn(old(world.orders), world.orders, old(tracked).Keys, replies)
      ensures Own(Task.Poller, world.trace) == old(Own(Task.Poller, world.trace)) + (polls + [PollDone])
    {
      var done;
      done, polls := PollTracked(replies);
      Finish(done);
    }

    method Finish(done: set<nat>)
      requires world.Valid() && world.sys.poll.tracking == Tracking(awaiting, tracked) && world.sys.poll.phase == Polling({}, done)
      modifies this`tracked, world
      ensures Valid() && tracked == old(tracked) - done && world.orders == old(world.orders)
      ensures Own(Task.Poller, world.trace) == old(Own(Task.Poller, world.trace)) + [PollDone]
    {
      Drop(done);
      world.Silently(PollDone);
    }

    /** Up to the first poll: nothing is fetched while nothing is awaited. */
    method Refresh(storeUp: bool) returns (ghost others: seq<Event>, ghost known: map<nat, string>)
      requires Valid()
      modifies this, world, world.store
      ensures world.Valid() && old(world.orders) <= world.orders
      ensures Tracking(awaiting, tracked) == Resolve(Tracking(old(awaiting), old(tracked)), known)
      ensures world.sys.poll.tracking == Tracking(awaiting, tracked) && world.sys.poll.phase == Polling(tracked.Keys, {})
      ensures FetchedBy(old(world.sys), old(awaiting) != {} && storeUp, others, known)
      ensures Own(Task.Poller, world.trace) == old(Own(Task.Poller, world.trace)) +
                [Fetch(storeUp)] + (if old(awaiting) == {} || !storeUp then [] else [ResolveIds])
    {
      others := world.Pause(Task.Poller);
      if awaiting != {} && storeUp {
        known := ResolveOrderIds();
      } else {
        world.Silently(Fetch(storeUp));
        known := map[];
        ResolveNothing(Tracking(awaiting, tracked));
      }
    }

    method Drop(done: set<nat>)
      modifies this`tracked
      ensures tracked == old(tracked) - done
    {
      var gone := done;
      while gone != {}
        invariant gone <= done && tracked == old(tracked) - (done - gone)
        decreases gone
      {
        var pid :| pid in gone;
        tracked := tracked - {pid};
        gone := gone - {pid};
      }
    }

    /** Positions whose order id the store now knows move from `awaiting` to `tracked`. */
    method ResolveOrderIds() returns (ghost known: map<nat, string>)
      requires Valid() && awaiting != {}
      modifies this, world, world.store
      ensures old(world.orders) <= world.orders
      ensures known == OrderIdsOf(old(world.sys).db.rows)
      ensures world.Valid() && Tracking(awaiting, tracked) == Resolve(Tracking(old(awaiting), old(tracked)), known)
      ensures world.sys.poll.tracking == Tracking(awaiting, tracked) && world.sys.poll.phase == Polling(tracked.Keys, {})
      ensures Own(Task.Poller, world.trace) == old(Own(Task.Poller, world.trace)) + [Fetch(true), ResolveIds]
    {
      var open := FetchOpen();
      known := OrderIdsOf(open);
      world.GiveWay(Task.Poller);
      Scan(open);
      world.Silently(ResolveIds);
    }

    method FetchOpen() returns (open: Rows)
      requires Valid() && awaiting != {}
      modifies world
      ensures world.orders == old(world.orders)
      ensures world.Valid() && world.sys.poll == old(world.sys).poll.(phase := Fetched(OrderIdsOf(open)))
      ensures OrderIdsOf(open) == OrderIdsOf(old(world.sys).db.rows) && forall p :: p in open ==> SqlOpen(open[p])
      ensures Own(Task.Poller, world.trace) == old(Own(Task.Poller, world.trace)) + [Fetch(true)]
    {
      open := world.store.OpenPositions();
      assert OrderIdsOf(open) == OrderIdsOf(world.store.rows);
      world.Silently(Fetch(true));
    }

    method Scan(open: Rows)
      requires forall p :: p in open ==> SqlOpen(open[p])
      modifies this`awaiting, this`tracked
      ensures Tracking(awaiting, tracked) == Resolve(Tracking(old(awaiting), old(tracked)), OrderIdsOf(open))
    {
      ghost var was := Tracking(awaiting, tracked);
      ghost var seen: Rows := map[];
      var todo := open.Keys;
      ResolveNothing(was);
      while todo != {}
        invariant todo <= open.Keys && seen == open - todo
        invariant Tracking(awaiting, tracked) == Resolve(was, OrderIdsOf(seen))
        decreases todo
      {
        var pid :| pid in todo;
        OneMoreRow(seen, pid, open[pid]);
        if open[pid].orderId.Some? {
          ResolveOneMore(was, OrderIdsOf(seen), pid, open[pid].orderId.value);
          if pid in awaiting {
            awaiting := awaiting - {pid};
            tracked := tracked[pid := open[pid].orderId.value];
          }
        }
        seen := seen[pid := open[pid]];
        todo := todo - {pid};
      }
      assert seen == open;
    }

    /** Mid-tick: `todo` are ahead, and `polls` is what this tick has done since `was`, with `queue` in the queue. */
    ghost predicate Polled(was: seq<Event>, queue: seq<OrderUpdate>, polls: seq<Event>, todo: set<nat>, done: set<nat>, replies: Replies)
      reads this, world, world.store
    {
      && world.Valid() && world.sys.poll.tracking == Tracking(awaiting, tracked)
      && world.sys.poll.phase == Polling(todo, done)
      && todo <= tracked.Keys && Progress(polls, done, tracked.Keys - todo, replies)
      && Own(Task.Poller, world.trace) == was + polls
      && PassedOn(queue, world.orders, tracked.Keys - todo, replies)
    }

    /** Every tracked order is asked about once; each answer is passed on. */
    method PollTracked(replies: Replies) returns (done: set<nat>, ghost polls: seq<Event>)
      requires world.Valid() && Sound(replies)
      requires world.sys.poll.tracking == Tracking(awaiting, tracked) && world.sys.poll.phase == Polling(tracked.Keys, {})
      modifies world, world.store
      ensures Polled(old(Own(Task.Poller, world.trace)), old(world.orders), polls, {}, done, replies)
    {
      var todo := tracked.Keys;
      done, polls := {}, [];
      ghost var was, queue := Own(Task.Poller, world.trace), world.orders;
      while todo != {}
        invariant Polled(was, queue, polls, todo, done, replies)
        decreases todo
      {
        var pid :| pid in todo;
        done := PollOne(pid, replies, was, queue, polls, todo, done);
        todo := todo - {pid};
        polls := polls + [PollOrder(pid, replies(pid))];
      }
    }

    method PollOne(pid: nat, replies: Replies, ghost was: seq<Event>, ghost queue: seq<OrderUpdate>, ghost polls: seq<Event>,
                   ghost todo: set<nat>, done: set<nat>) returns (doneNow: set<nat>)
      requires Polled(was, queue, polls, todo, done, replies) && Sound(replies) && pid in todo
      modifies world, world.store
      ensures Polled(was, queue, polls + [PollOrder(pid, replies(pid))], todo - {pid}, doneNow, replies)
    {
      ghost var mid := world.orders;
      doneNow := Ask(pid, replies, todo, done);
      PassedOnMore(queue, mid, world.orders, tracked.Keys - todo, replies, pid);
      assert tracked.Keys - (todo - {pid}) == (tracked.Keys - todo) + {pid};
      OneFewerTodo(polls, done, tracked.Keys, todo, replies, pid);
      assert (was + polls) + [PollOrder(pid, replies(pid))] == was + (polls + [PollOrder(pid, replies(pid))]);
    }

    /** One `order_status` call and the message it leads to. */
    method Ask(pid: nat, replies: Replies, ghost todo: set<nat>, done: set<nat>) returns (doneNow: set<nat>)
      requires world.Valid() && Sound(replies) && world.sys.poll.phase == Polling(todo, done) && pid in todo
      modifies world, world.store
      ensures world.Valid() && world.sys.poll.tracking == old(world.sys).poll.tracking
      ensures doneNow == if Finishes(replies, pid) then done + {pid} else done
      ensures old(world.orders) <= world.orders
      ensures replies(pid).Some? ==> replies(pid).value in world.orders[|old(world.orders)|..]
      ensures world.sys.poll.phase == Polling(todo - {pid}, doneNow)
      ensures Own(Task.Poller, world.trace) == old(Own(Task.Poller, world.trace)) + [PollOrder(pid, replies(pid))]
    {
      world.GiveWay(Task.Poller);
      match replies(pid) {
        case Some(update) =>
          ghost var n, m := |old(world.orders)|, |world.orders|;
          world.SendOrder(update, PollOrder(pid, replies(pid)));
          assert world.orders[n..][m - n] == update;
          doneNow := if update.Terminal() then done + {pid} else done;
        case None =>
          world.Silently(PollOrder(pid, replies(pid)));
          doneNow := done;
      }
    }
  }
}
