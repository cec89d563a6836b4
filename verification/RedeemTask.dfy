/** The redeem-status poller: pending redemptions in, at most one confirmation out for each. */
module RedeemTask {
  import opened Types
  import opened Protocol
  import opened SharedWorld

  datatype RedemptionStatus = Confirmed | Failed | StillOpen

  /** The exchange's answer per position, and whether the store takes the write; None is a failed call. */
  datatype Answers = Answers(status: nat -> Option<RedemptionStatus>, written: nat -> bool)
  {
    predicate Confirms(pid: nat) {
      status(pid) == Some(Confirmed)
    }

    predicate Ends(pid: nat) {
      status(pid) == Some(Confirmed) || status(pid) == Some(Failed)
    }

    function StepsFor(pid: nat): seq<Event> {
      if Confirms(pid) then [Confirm(pid, written(pid)), SendRedeemed]
      else if Ends(pid) then [RedeemFailed(pid)]
      else [StillPending(pid)]
    }

    function StepsOver(order: seq<nat>): seq<Event> {
      if order == [] then [] else StepsOver(order[..|order| - 1]) + StepsFor(order[|order| - 1])
    }

    function EndsAmong(pids: set<nat>): set<nat> {
      set p | p in pids && Ends(p)
    }
  }

  // ─── The same reply by reply ────────────────────────────────────────────────

  /** One confirmation sent, for the payout tracked, for each position whose reply is Confirmed, whether
      or not the store took the write, and no other. */
  ghost predicate Confirmations(sent: seq<Redemption>, asked: set<nat>, tracked: map<nat, real>, a: Answers) {
    && (forall i, j :: 0 <= i < j < |sent| ==> sent[i].pid != sent[j].pid)
    && (forall r :: r in sent ==>
          r.pid in asked && a.status(r.pid) == Some(Confirmed) && r.pid in tracked && r.payout == tracked[r.pid])
    && (forall p :: p in asked && a.status(p) == Some(Confirmed) ==> exists r :: r in sent && r.pid == p)
  }

  /** What one reply leads to: a store write and an announcement, or nothing but being dropped, or nothing at all. */
  ghost predicate LedTo(pid: nat, payout: real, reply: Option<RedemptionStatus>, written: bool,
                        steps: seq<Event>, sent: seq<Redemption>, dropped: bool) {
    match reply
    case Some(Confirmed) => steps == [Confirm(pid, written), SendRedeemed] && sent == [Redemption(pid, payout)] && dropped
    case Some(Failed) => steps == [RedeemFailed(pid)] && sent == [] && dropped
    case _ => steps == [StillPending(pid)] && sent == [] && !dropped
  }

  lemma OneConfirmed(sent: seq<Redemption>, asked: set<nat>, tracked: map<nat, real>, a: Answers, pid: nat, more: seq<Redemption>)
    requires Confirmations(sent, asked, tracked, a) && pid !in asked && pid in tracked
    requires more == if a.status(pid) == Some(Confirmed) then [Redemption(pid, tracked[pid])] else []
    ensures Confirmations(sent + more, asked + {pid}, tracked, a)
  {
    forall r | r in sent + more ensures r in sent || more == [r] {
    }
    forall p | p in asked + {pid} && a.status(p) == Some(Confirmed) ensures exists r :: r in sent + more && r.pid == p {
      if p == pid {
        assert (sent + more)[|sent|].pid == pid;
      } else {
        var r :| r in sent && r.pid == p;
        assert r in sent + more;
      }
    }
  }

  lemma EndedAre(a: Answers, pids: set<nat>)
    ensures a.EndsAmong(pids) == set p | p in pids && (a.status(p) == Some(Confirmed) || a.status(p) == Some(Failed))
  {
  }

  ghost predicate Progress(a: Answers, order: seq<nat>, asked: set<nat>, done: set<nat>) {
    Enumerates(order, asked) && done == a.EndsAmong(asked)
  }

  lemma OneMore(a: Answers, order: seq<nat>, asked: set<nat>, done: set<nat>, pid: nat)
    requires Progress(a, order, asked, done) && pid !in asked
    ensures Progress(a, order + [pid], asked + {pid}, if a.Ends(pid) then done + {pid} else done)
    ensures a.StepsOver(order + [pid]) == a.StepsOver(order) + a.StepsFor(pid)
  {
    assert (order + [pid])[..|order|] == order;
    assert a.EndsAmong(asked + {pid}) == a.EndsAmong(asked) + if a.Ends(pid) then {pid} else {};
    assert forall p: nat :: p in order + [pid] <==> p in order || p == pid;
  }

  lemma LedToSteps(a: Answers, pid: nat, payout: real, steps: seq<Event>, sent: seq<Redemption>, dropped: bool)
    requires LedTo(pid, payout, a.status(pid), a.written(pid), steps, sent, dropped)
    ensures steps == a.StepsFor(pid) && dropped == a.Ends(pid)
    ensures sent == if a.status(pid) == Some(Confirmed) then [Redemption(pid, payout)] else []
  {
  }

  lemma Sliced(queue: seq<Redemption>, mid: seq<Redemption>, now: seq<Redemption>, sent: seq<Redemption>)
    requires queue <= mid && now == mid + sent
    ensures queue <= now && now[|queue|..] == mid[|queue|..] + sent
  {
  }

  /** Mid-tick: everything but `todo` has been asked about, with these results. */
  ghost predicate Answered(a: Answers, tracked: map<nat, real>, todo: set<nat>, done: set<nat>, order: seq<nat>, sent: seq<Redemption>) {
    && todo <= tracked.Keys && Progress(a, order, tracked.Keys - todo, done)
    && Confirmations(sent, tracked.Keys - todo, tracked, a)
  }

  lemma OneAnswered(a: Answers, tracked: map<nat, real>, todo: set<nat>, done: set<nat>, order: seq<nat>, sent: seq<Redemption>,
                    pid: nat, more: seq<Redemption>)
    requires Answered(a, tracked, todo, done, order, sent) && pid in todo
    requires more == if a.status(pid) == Some(Confirmed) then [Redemption(pid, tracked[pid])] else []
    ensures Answered(a, tracked, todo - {pid}, if a.Ends(pid) then done + {pid} else done, order + [pid], sent + more)
    ensures a.StepsOver(order + [pid]) == a.StepsOver(order) + a.StepsFor(pid)
  {
    assert tracked.Keys - (todo - {pid}) == (tracked.Keys - todo) + {pid};
    OneMore(a, order, tracked.Keys - todo, done, pid);
    OneConfirmed(sent, tracked.Keys - todo, tracked, a, pid, more);
  }

  class RedeemPoller {
    const world: World
    var tracked: map<nat, real>
    var pendingSeen: nat

    ghost predicate Valid() reads this, world, world.store {
      world.Valid() && world.sys.redeem == RedeemState(RedeemIdle, tracked, pendingSeen)
    }

    constructor (world: World)
      requires world.Valid() && world.sys.redeem == RedeemState(RedeemIdle, map[], 0)
      ensures Valid() && this.world == world
    {
      this.world := world;
      tracked, pendingSeen := map[], 0;
    }

    method OnPending()
      requires Valid() && pendingSeen < |world.pending|
      modifies this, world
      ensures Valid()
      ensures var p := old(world.pending)[old(pendingSeen)]; tracked == old(tracked)[p.pid := p.payout]
      ensures Own(Redeemer, world.trace) == old(Own(Redeemer, world.trace)) + [TakePending]
    {
      var p := world.pending[pendingSeen];
      tracked, pendingSeen := tracked[p.pid := p.payout], pendingSeen + 1;
      world.Silently(TakePending);
    }

    /** One tick: every tracked redemption is asked about once; confirmed ones are sent on with their
        payout, confirmed and failed ones dropped. */
    method OnTick(a: Answers) returns (ghost order: seq<nat>)
      requires Valid()
      modifies this`tracked, world, world.store
      ensures Valid() && Enumerates(order, old(tracked).Keys)
      ensures tracked == old(tracked) - set p | p in old(tracked) && (a.status(p) == Some(Confirmed) || a.status(p) == Some(Failed))
      ensures old(world.redeemed) <= world.redeemed
      ensures Confirmations(world.redeemed[|old(world.redeemed)|..], old(tracked).Keys, old(tracked), a)
      ensures Own(Redeemer, world.trace) == old(Own(Redeemer, world.trace)) +
                if old(tracked) == map[] then [] else [BeginCheck] + a.StepsOver(order) + [EndCheck]
    {
      if tracked == map[] {
        return [];
      }
      EndedAre(a, tracked.Keys);
      order := CheckTracked(a);
    }

    method CheckTracked(a: Answers) returns (ghost order: seq<nat>)
      requires Valid()
      modifies this`tracked, world, world.store
      ensures Valid() && Enumerates(order, old(tracked).Keys)
      ensures tracked == old(tracked) - a.EndsAmong(old(tracked).Keys)
      ensures old(world.redeemed) <= world.redeemed
      ensures Confirmations(world.redeemed[|old(world.redeemed)|..], old(tracked).Keys, old(tracked), a)
      ensures Own(Redeemer, world.trace) ==
                old(Own(Redeemer, world.trace)) + ([BeginCheck] + a.StepsOver(order) + [EndCheck])
    {
      ghost var was := Own(Redeemer, world.trace);
      Begin();
      var done;
      done, order := CheckAll(a);
      Finish(done);
      Join(was, BeginCheck, a.StepsOver(order), EndCheck);
    }

    method Begin()
      requires Valid()
      modifies world
      ensures world.Valid() && world.sys.redeem == RedeemState(Checking(tracked.Keys, {}), tracked, pendingSeen)
      ensures world.redeemed == old(world.redeemed)
      ensures Own(Redeemer, world.trace) == old(Own(Redeemer, world.trace)) + [BeginCheck]
    {
      world.Silently(BeginCheck);
    }

    method Finish(done: set<nat>)
      requires world.Valid() && world.sys.redeem == RedeemState(Checking({}, done), tracked, pendingSeen)
      modifies this`tracked, world
      ensures Valid() && tracked == old(tracked) - done && world.redeemed == old(world.redeemed)
      ensures Own(Redeemer, world.trace) == old(Own(Redeemer, world.trace)) + [EndCheck]
    {
      Drop(done);
      world.Silently(EndCheck);
    }

    method Drop(done: set<nat>)
      modifies this`tracked
      ensures tracked == old(tracked) - done
    {
      var gone := done;
      while gone != {}
        invariant gone <= done && tracked == old(tracked) - (done - gone)
        decreases gone
      {
        var pid :| pid in gone;
        tracked := tracked - {pid};
        gone := gone - {pid};
      }
    }

    ghost predicate Checked(was: seq<Event>, queue: seq<Redemption>, a: Answers, order: seq<nat>, todo: set<nat>, done: set<nat>)
      reads this, world, world.store
    {
      && world.Valid() && world.sys.redeem == RedeemState(Checking(todo, done), tracked, pendingSeen)
      && Own(Redeemer, world.trace) == was + a.StepsOver(order)
      && queue <= world.redeemed && Answered(a, tracked, todo, done, order, world.redeemed[|queue|..])
    }

    method CheckAll(a: Answers) returns (done: set<nat>, ghost order: seq<nat>)
      requires world.Valid() && world.sys.redeem == RedeemState(Checking(tracked.Keys, {}), tracked, pendingSeen)
      modifies world, world.store
      ensures Checked(old(Own(Redeemer, world.trace)), old(world.redeemed), a, order, {}, done)
    {
      var todo := tracked.Keys;
      done, order := {}, [];
      ghost var was, queue := Own(Redeemer, world.trace), world.redeemed;
      while todo != {}
        invariant Checked(was, queue, a, order, todo, done)
        decreases todo
      {
        var pid :| pid in todo;
        done := CheckOne(pid, a, was, queue, order, todo, done);
        todo := todo - {pid};
        order := order + [pid];
      }
    }

    method CheckOne(pid: nat, a: Answers, ghost was: seq<Event>, ghost queue: seq<Redemption>, ghost order: seq<nat>,
                    ghost todo: set<nat>, done: set<nat>) returns (doneNow: set<nat>)
      requires Checked(was, queue, a, order, todo, done) && pid in todo
      modifies world, world.store
      ensures Checked(was, queue, a, order + [pid], todo - {pid}, doneNow)
    {
      ghost var mid := world.redeemed;
      var dropped;
      ghost var steps, sent;
      dropped, steps, sent := Check(pid, a, todo, done);
      doneNow := if dropped then done + {pid} else done;
      LedToSteps(a, pid, tracked[pid], steps, sent, dropped);
      Sliced(queue, mid, world.redeemed, sent);
      OneAnswered(a, tracked, todo, done, order, mid[|queue|..], pid, sent);
    }

    /** The store write comes before the announcement, and a failed write does not hold it back. */
    method Check(pid: nat, a: Answers, ghost todo: set<nat>, ghost done: set<nat>)
      returns (dropped: bool, ghost steps: seq<Event>, ghost sent: seq<Redemption>)
      requires world.Valid() && world.sys.redeem == RedeemState(Checking(todo, done), tracked, pendingSeen)
      requires pid in todo && todo <= tracked.Keys
      modifies world, world.store
      ensures world.Valid()
      ensures world.sys.redeem ==
                RedeemState(Checking(todo - {pid}, if dropped then done + {pid} else done), tracked, pendingSeen)
      ensures LedTo(pid, tracked[pid], a.status(pid), a.written(pid), steps, sent, dropped)
      ensures Own(Redeemer, world.trace) == old(Own(Redeemer, world.trace)) + steps
      ensures world.redeemed == old(world.redeemed) + sent
    {
      world.GiveWay(Redeemer);
      match a.status(pid) {
        case Some(Confirmed) =>
          dropped, steps, sent := true, [Confirm(pid, a.written(pid)), SendRedeemed], [Redemption(pid, tracked[pid])];
          Announce(pid, a.written(pid), todo, done);
        case Some(Failed) =>
          dropped, steps, sent := true, [RedeemFailed(pid)], [];
          Say(RedeemFailed(pid), pid, todo, done);
        case _ =>
          dropped, steps, sent := false, [StillPending(pid)], [];
          Say(StillPending(pid), pid, todo, done);
      }
    }

    ghost method Say(e: Event, pid: nat, todo: set<nat>, done: set<nat>)
      requires world.Valid() && world.sys.redeem == RedeemState(Checking(todo, done), tracked, pendingSeen)
      requires pid in todo && (e == RedeemFailed(pid) || e == StillPending(pid))
      modifies world`sys, world`trace
      ensures world.Valid()
      ensures world.sys.redeem ==
                RedeemState(Checking(todo - {pid}, if e == RedeemFailed(pid) then done + {pid} else done), tracked, pendingSeen)
      ensures Own(Redeemer, world.trace) == old(Own(Redeemer, world.trace)) + [e]
    {
      world.Silently(e);
    }

    method Announce(pid: nat, written: bool, ghost todo: set<nat>, ghost done: set<nat>)
      requires world.Valid() && world.sys.redeem == RedeemState(Checking(todo, done), tracked, pendingSeen)
      requires pid in todo && todo <= tracked.Keys
      modifies world, world.store
      ensures world.Valid()
      ensures world.sys.redeem == RedeemState(Checking(todo - {pid}, done + {pid}), tracked, pendingSeen)
      ensures world.redeemed == old(world.redeemed) + [Redemption(pid, tracked[pid])]
      ensures Own(Redeemer, world.trace) == old(Own(Redeemer, world.trace)) + [Confirm(pid, written), SendRedeemed]
    {
      WriteRedeemed(pid, written, todo, done);
      world.GiveWay(Redeemer);
      world.SendRedeemed(Redemption(pid, tracked[pid]));
    }

    method WriteRedeemed(pid: nat, written: bool, ghost todo: set<nat>, ghost done: set<nat>)
      requires world.Valid() && world.sys.redeem == RedeemState(Checking(todo, done), tracked, pendingSeen)
      requires pid in todo && todo <= tracked.Keys
      modifies world, world.store
      ensures world.Valid()
      ensures world.sys.redeem == RedeemState(Written(pid, tracked[pid], todo - {pid}, done), tracked, pendingSeen)
      ensures world.redeemed == old(world.redeemed)
      ensures Own(Redeemer, world.trace) == old(Own(Redeemer, world.trace)) + [Confirm(pid, written)]
    {
      world.UpdatePosition(pid, SetRedeemed, written, Confirm(pid, written));
    }
  }
}
