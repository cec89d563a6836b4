/** What every reachable state keeps about settlement and redemption, when no delivered resolution picks
    a position announced before. Store failures, lag and the order of persistence and redemption stay
    arbitrary. */
module SettleSafety {
  import opened Types
  import opened State
  import opened Store
  import opened Persistence
  import opened Settling
  import opened Protocol
  import opened OrderSafety

  // ─── Facts about the two logs ───────────────────────────────────────────────

  ghost function SettledIds(log: seq<SettledEvent>): set<nat> {
    set e | e in log :: e.pid
  }

  ghost function Ids(log: seq<Redemption>): set<nat> {
    set r | r in log :: r.pid
  }

  ghost predicate SettledOnce(log: seq<SettledEvent>) {
    forall j, k :: 0 <= j < k < |log| ==> log[j].pid != log[k].pid
  }

  ghost predicate Distinct(log: seq<Redemption>) {
    forall j, k :: 0 <= j < k < |log| ==> log[j].pid != log[k].pid
  }

  /** A winner was settled for exactly this payout. */
  ghost predicate Owes(log: seq<SettledEvent>, r: Redemption) {
    exists e :: e in log && e.pid == r.pid && e.status == PositionStatus.Won && e.cost + e.realizedPnl == r.payout
  }

  lemma SettledSnoc(log: seq<SettledEvent>, e: SettledEvent)
    ensures SettledIds(log + [e]) == SettledIds(log) + {e.pid}
    ensures SettledOnce(log) && e.pid !in SettledIds(log) ==> SettledOnce(log + [e])
    ensures forall r :: Owes(log, r) ==> Owes(log + [e], r)
  {
    var more := log + [e];
    forall p ensures p in SettledIds(more) <==> p in SettledIds(log) || p == e.pid {
      if p in SettledIds(more) {
        var v :| v in more && v.pid == p;
        assert v in log || v == e;
      }
      if p in SettledIds(log) {
        var v :| v in log && v.pid == p;
        assert v in more;
      }
      assert e in more;
    }
    forall j | 0 <= j < |log| ensures log[j].pid in SettledIds(log) {
      assert log[j] in log;
    }
    forall r | Owes(log, r) ensures Owes(more, r) {
      var v :| v in log && v.pid == r.pid && v.status == PositionStatus.Won && v.cost + v.realizedPnl == r.payout;
      assert v in more;
    }
  }

  lemma IdsSnoc(log: seq<Redemption>, r: Redemption)
    ensures Ids(log + [r]) == Ids(log) + {r.pid}
    ensures Distinct(log) && r.pid !in Ids(log) ==> Distinct(log + [r])
  {
    var more := log + [r];
    forall p ensures p in Ids(more) <==> p in Ids(log) || p == r.pid {
      if p in Ids(more) {
        var v :| v in more && v.pid == p;
        assert v in log || v == r;
      }
      if p in Ids(log) {
        var v :| v in log && v.pid == p;
        assert v in more;
      }
      assert r in more;
    }
    forall j | 0 <= j < |log| ensures log[j].pid in Ids(log) {
      assert log[j] in log;
    }
  }

  /** With distinct entries, one still ahead of a cursor is not behind it. */
  lemma SettledAhead(log: seq<SettledEvent>, i: nat)
    requires SettledOnce(log) && i < |log|
    ensures log[i].pid !in SettledIds(log[..i]) && log[i].pid in SettledIds(log)
    ensures log[..i + 1] == log[..i] + [log[i]]
    ensures forall e :: e in log && e.pid == log[i].pid ==> e == log[i]
  {
    forall e | e in log[..i] ensures e.pid != log[i].pid {
      var j :| 0 <= j < i && log[j] == e;
    }
    assert log[i] in log;
    forall e | e in log && e.pid == log[i].pid ensures e == log[i] {
      var j :| 0 <= j < |log| && log[j] == e;
    }
  }

  lemma IdsAhead(log: seq<Redemption>, i: nat)
    requires Distinct(log) && i < |log|
    ensures log[i].pid !in Ids(log[..i]) && log[i].pid in Ids(log)
    ensures log[..i + 1] == log[..i] + [log[i]]
  {
    forall r | r in log[..i] ensures r.pid != log[i].pid {
      var j :| 0 <= j < i && log[j] == r;
    }
    assert log[i] in log;
  }

  lemma SettledPrefix(log: seq<SettledEvent>, i: nat, j: nat)
    requires i <= j <= |log|
    ensures SettledIds(log[..i]) <= SettledIds(log[..j]) <= SettledIds(log)
  {
    forall p | p in SettledIds(log[..i]) ensures p in SettledIds(log[..j]) {
      var e :| e in log[..i] && e.pid == p;
      assert e in log[..j];
    }
    forall p | p in SettledIds(log[..j]) ensures p in SettledIds(log) {
      var e :| e in log[..j] && e.pid == p;
      assert e in log;
    }
  }

  // ─── The invariant ──────────────────────────────────────────────────────────

  ghost predicate SettledLogOk(log: seq<SettledEvent>) {
    SettledOnce(log) && forall e :: e in log ==> e.status == PositionStatus.Won || e.status == PositionStatus.Lost
  }

  /** Whatever settlement has touched belongs to a market already resolved. */
  ghost predicate MarketsOk(rows: Rows, settle: SettleState, log: seq<SettledEvent>) {
    forall p :: p in SettledIds(log) + HandledBySettlement(settle.phase) ==>
      p in rows && rows[p].marketSlug in settle.resolved
  }

  /** The snapshot rows still to settle are the stored rows, and none of them was announced. */
  ghost predicate TodoOk(rows: Rows, todo: Rows, log: seq<SettledEvent>) {
    forall p :: p in todo ==>
      && p in rows && rows[p] == todo[p] && p !in SettledIds(log)
      && (todo[p].status == PositionStatus.Filled || todo[p].status == PositionStatus.Settling)
  }

  ghost predicate SettlePhaseOk(rows: Rows, phase: SettlePhase, bus: Bus) {
    match phase
    case SettleIdle => true
    case SettleLoop(todo, _) => TodoOk(rows, todo, bus.settled)
    case Marked(p, row, todo, _) =>
      && TodoOk(rows, todo, bus.settled) && p !in todo && p !in SettledIds(bus.settled)
      && p in rows && rows[p] == row.(status := PositionStatus.Settling)
    case Announcing(p, payout, todo, _) =>
      && TodoOk(rows, todo, bus.settled) && p !in todo
      && Owes(bus.settled, Redemption(p, payout)) && p !in Ids(bus.pending)
  }

  /** The status an announced position can have, given whether its settlement was stored. */
  predicate AnnouncedStatus(won: bool, stored: bool, status: PositionStatus) {
    if won then (if stored then status == PositionStatus.Won else status == PositionStatus.Settling) || status == PositionStatus.Redeemed
    else (if stored then status == PositionStatus.Lost else status == PositionStatus.Settling)
  }

  ghost predicate AnnouncedOk(rows: Rows, log: seq<SettledEvent>, persisted: set<nat>) {
    forall e :: e in log ==>
      e.pid in rows && AnnouncedStatus(e.status == PositionStatus.Won, e.pid in persisted, rows[e.pid].status)
  }

  /** A position never announced is unresolved, unless the database already had it resolved. */
  ghost predicate UnannouncedOk(db: Db, settled: set<nat>) {
    forall p :: p in db.rows && p !in settled ==>
      if p in db.start then
        db.rows[p].status == db.start[p].status
        || (db.rows[p].status == PositionStatus.Settling
            && (db.start[p].status == PositionStatus.Filled || db.start[p].status == PositionStatus.Settling))
      else !CountsAsResolved(db.rows[p])
  }

  /** A row taken over from the database was unresolved there if it has been announced. */
  ghost predicate TakenOverOk(start: Rows, settled: set<nat>) {
    forall p :: p in settled && p in start ==> !CountsAsResolved(start[p])
  }

  ghost predicate PendingOk(bus: Bus) {
    Distinct(bus.pending) && forall r :: r in bus.pending ==> Owes(bus.settled, r)
  }

  /** Tracked redemptions were taken from the queue; the confirmed ones among them are done. */
  ghost predicate RedeemOk(r: RedeemState, bus: Bus) {
    && r.seen <= |bus.pending|
    && (forall p :: p in r.tracked ==> Redemption(p, r.tracked[p]) in bus.pending[..r.seen])
    && Distinct(bus.redeemed) && (forall x :: x in bus.redeemed ==> x in bus.pending[..r.seen])
    && (match r.phase
        case RedeemIdle => r.tracked.Keys !! Ids(bus.redeemed)
        case Checking(todo, done) =>
          todo <= r.tracked.Keys && todo !! done && r.tracked.Keys * Ids(bus.redeemed) <= done
        case Written(p, payout, todo, done) =>
          && todo <= r.tracked.Keys && todo !! done && r.tracked.Keys * Ids(bus.redeemed) <= done
          && p in r.tracked && r.tracked[p] == payout && p !in todo && p !in done)
  }

  ghost predicate SettleInv(s: System) {
    && SettledLogOk(s.bus.settled)
    && MarketsOk(s.db.rows, s.settle, s.bus.settled)
    && SettlePhaseOk(s.db.rows, s.settle.phase, s.bus)
    && AnnouncedOk(s.db.rows, s.bus.settled, s.persist.persisted)
    && UnannouncedOk(s.db, SettledIds(s.bus.settled))
    && TakenOverOk(s.db.start, SettledIds(s.bus.settled))
    && s.persist.settled <= |s.bus.settled|
    && s.persist.persisted <= SettledIds(s.bus.settled[..s.persist.settled])
    && PendingOk(s.bus)
    && RedeemOk(s.redeem, s.bus)
  }

  lemma InitSettleInv(s: System)
    requires Init(s)
    ensures SettleInv(s)
  {
  }

  // ─── The executor and persistence of orders ─────────────────────────────────

  /** The row settlement has in its hands or still ahead of it. */
  ghost predicate Picked(phase: SettlePhase, p: nat) {
    !phase.SettleIdle? && (p in phase.todo || (phase.Marked? && phase.pid == p))
  }

  /** Rewriting any other row is invisible to the settlement under way. */
  lemma PhaseRewritten(s: System, p: nat, w: PositionUpdate)
    requires SettlePhaseOk(s.db.rows, s.settle.phase, s.bus) && !Picked(s.settle.phase, p)
    ensures SettlePhaseOk(UpdateRows(s.db.rows, p, w), s.settle.phase, s.bus)
  {
  }

  /** Rewriting a Submitted row to an unresolved status is invisible to settlement. */
  lemma SubmittedRewritten(s: System, p: nat, w: PositionUpdate)
    requires SettleInv(s) && Fresh(s.db, p) && s.db.rows[p].status == Submitted
    requires w.SetSubmitted? || w.SetFilled? || w.SetRejected? || w.SetCancelled?
    ensures var db := s.db.(rows := UpdateRows(s.db.rows, p, w));
            && MarketsOk(db.rows, s.settle, s.bus.settled)
            && SettlePhaseOk(db.rows, s.settle.phase, s.bus)
            && AnnouncedOk(db.rows, s.bus.settled, s.persist.persisted)
            && UnannouncedOk(db, SettledIds(s.bus.settled))
  {
    var rows := UpdateRows(s.db.rows, p, w);
    PhaseRewritten(s, p, w);
    MarketsRewritten(s, p, w);
    assert forall e :: e in s.bus.settled ==> e.pid != p;
    assert forall q :: q in rows && q != p ==> rows[q] == s.db.rows[q];
  }

  /** No write changes what market a row is of. */
  lemma MarketsRewritten(s: System, p: nat, w: PositionUpdate)
    requires MarketsOk(s.db.rows, s.settle, s.bus.settled)
    ensures MarketsOk(UpdateRows(s.db.rows, p, w), s.settle, s.bus.settled)
  {
  }

  lemma InsertSettleKeeps(s: System)
    requires DbOk(s.db) && SettleInv(s) && Enabled(s, Insert(true))
    ensures SettleInv(Next(s, Insert(true)))
  {
    InsertMoves(s);
    var p, id := s.exec.phase, s.db.lastId + 1;
    RowAdded(s, id, SubmittedRow(p.market, p.outcome, p.intent));
  }

  lemma RowAdded(s: System, id: nat, row: Row)
    requires SettleInv(s) && id !in s.db.rows && !CountsAsResolved(row) && id !in s.db.start
    ensures var db := s.db.(rows := s.db.rows[id := row], lastId := id);
            && MarketsOk(db.rows, s.settle, s.bus.settled)
            && SettlePhaseOk(db.rows, s.settle.phase, s.bus)
            && AnnouncedOk(db.rows, s.bus.settled, s.persist.persisted)
            && UnannouncedOk(db, SettledIds(s.bus.settled))
  {
    var rows := s.db.rows[id := row];
    assert forall q :: q in s.db.rows ==> rows[q] == s.db.rows[q];
    assert forall e :: e in s.bus.settled ==> e.pid in SettledIds(s.bus.settled);
  }

  lemma ExecSettleKeeps(s: System, e: Event)
    requires DbOk(s.db) && SettleInv(s) && Enabled(s, e) && Owner(e).Executor?
    requires s.exec.phase.HoldsRow() ==> Fresh(s.db, s.exec.phase.pid) && s.db.rows[s.exec.phase.pid].status == Submitted
    ensures SettleInv(Next(s, e))
  {
    if e == Insert(true) {
      InsertSettleKeeps(s);
    } else if e.ExecWrite? {
      ExecWriteSettleKeeps(s, e.ok);
    } else {
      assert e != Insert(true) && !e.ExecWrite?;
      ExecQuietSettleKeeps(s, e);
    }
  }

  /** The executor's other steps leave rows and settlements alone. */
  lemma ExecQuietSettleKeeps(s: System, e: Event)
    requires SettleInv(s) && Enabled(s, e) && Owner(e).Executor? && !e.ExecWrite? && e != Insert(true)
    ensures SettleInv(Next(s, e))
  {
  }

  lemma RowInHand(s: System)
    requires Inv(s)
    ensures s.exec.phase.HoldsRow() ==> Fresh(s.db, s.exec.phase.pid) && s.db.rows[s.exec.phase.pid].status == Submitted
  {
  }

  lemma ExecWriteSettleKeeps(s: System, ok: bool)
    requires SettleInv(s) && Enabled(s, ExecWrite(ok))
    requires Fresh(s.db, s.exec.phase.pid) && s.db.rows[s.exec.phase.pid].status == Submitted
    ensures SettleInv(Next(s, ExecWrite(ok)))
  {
    ExecWriteMoves(s, ok);
    SubmittedRewritten(s, s.exec.phase.pid,
      if s.exec.phase.Placed? then SetSubmitted(s.exec.phase.orderId) else SetRejected);
  }

  lemma OrderStored(s: System, w: PositionUpdate)
    requires SettleInv(s) && Enabled(s, PersistOrder(true))
    requires var u := s.bus.orders[s.persist.orders];
             OrderWrite(u) == Some(w) && Fresh(s.db, u.pid) && s.db.rows[u.pid].status == Submitted
    ensures SettleInv(Next(s, PersistOrder(true)))
  {
    SubmittedRewritten(s, s.bus.orders[s.persist.orders].pid, w);
  }

  lemma OrderNotStored(s: System, ok: bool)
    requires SettleInv(s) && Enabled(s, PersistOrder(ok))
    requires !ok || OrderWrite(s.bus.orders[s.persist.orders]).None?
    ensures SettleInv(Next(s, PersistOrder(ok)))
  {
  }

  lemma OrderAwaitsStoring(s: System)
    requires Inv(s) && s.persist.orders < |s.bus.orders|
    ensures var u := s.bus.orders[s.persist.orders];
            OrderWrite(u).Some? ==> Fresh(s.db, u.pid) && s.db.rows[u.pid].status == Submitted
  {
    match OrderWrite(s.bus.orders[s.persist.orders])
    case Some(w) => TerminalWrite(s, w);
    case None =>
  }

  lemma PersistOrderSettleKeeps(s: System, ok: bool)
    requires SettleInv(s) && Enabled(s, PersistOrder(ok))
    requires var u := s.bus.orders[s.persist.orders];
             OrderWrite(u).Some? ==> Fresh(s.db, u.pid) && s.db.rows[u.pid].status == Submitted
    ensures SettleInv(Next(s, PersistOrder(ok)))
  {
    match OrderWrite(s.bus.orders[s.persist.orders])
    case Some(w) => if ok { OrderStored(s, w); } else { OrderNotStored(s, ok); }
    case None => OrderNotStored(s, ok);
  }

  // ─── Persistence of settlements ─────────────────────────────────────────────

  /** The settlement being stored is of an announced position that is Settling, or already Redeemed. */
  lemma StoringSettlement(s: System)
    requires SettleInv(s) && s.persist.settled < |s.bus.settled|
    ensures var ev := s.bus.settled[s.persist.settled];
            && ev in s.bus.settled && ev.pid in s.db.rows && ev.pid !in s.persist.persisted
            && ev.pid in SettledIds(s.bus.settled)
            && AnnouncedStatus(ev.status == PositionStatus.Won, false, s.db.rows[ev.pid].status)
            && SettledWrite(ev).Some? && Apply(s.db.rows[ev.pid], SettledWrite(ev).value).status == ev.status
  {
    var ev := s.bus.settled[s.persist.settled];
    SettledAhead(s.bus.settled, s.persist.settled);
    assert ev in s.bus.settled;
  }

  /** Rewriting an announced row only matters for what is known of its status. */
  lemma AnnouncedRewritten(s: System, p: nat, w: PositionUpdate, persisted: set<nat>)
    requires SettleInv(s) && p in SettledIds(s.bus.settled)
    requires s.persist.persisted <= persisted <= s.persist.persisted + {p}
    requires forall e :: e in s.bus.settled && e.pid == p ==>
               p in s.db.rows && AnnouncedStatus(e.status == PositionStatus.Won, p in persisted, Apply(s.db.rows[p], w).status)
    ensures var db := s.db.(rows := UpdateRows(s.db.rows, p, w));
            && MarketsOk(db.rows, s.settle, s.bus.settled)
            && SettlePhaseOk(db.rows, s.settle.phase, s.bus)
            && AnnouncedOk(db.rows, s.bus.settled, persisted)
            && UnannouncedOk(db, SettledIds(s.bus.settled))
  {
    var rows := UpdateRows(s.db.rows, p, w);
    PhaseRewritten(s, p, w);
    MarketsRewritten(s, p, w);
    assert forall q :: q in rows && q != p ==> rows[q] == s.db.rows[q];
  }

  lemma PersistSettlementKeeps(s: System, ok: bool)
    requires SettleInv(s) && Enabled(s, PersistSettlement(ok))
    ensures SettleInv(Next(s, PersistSettlement(ok)))
  {
    var n := s.persist.settled;
    var ev := s.bus.settled[n];
    StoringSettlement(s);
    SettledAhead(s.bus.settled, n);
    SettledSnoc(s.bus.settled[..n], ev);
    AnnouncedRewritten(s, ev.pid, SettledWrite(ev).value, s.persist.persisted + {ev.pid});
  }

  lemma LagSettledKeeps(s: System, n: nat)
    requires SettleInv(s) && Enabled(s, LagPersistSettled(n))
    ensures SettleInv(Next(s, LagPersistSettled(n)))
  {
    SettledPrefix(s.bus.settled, s.persist.settled, s.persist.settled + n);
  }

  lemma PersistSettleKeeps(s: System, e: Event)
    requires Inv(s) && SettleInv(s) && Enabled(s, e) && Owner(e).Persister?
    ensures SettleInv(Next(s, e))
  {
    match e
    case PersistOrder(ok) =>
      OrderAwaitsStoring(s);
      PersistOrderSettleKeeps(s, ok);
    case PersistSettlement(ok) => PersistSettlementKeeps(s, ok);
    case LagPersistOrders(_) =>
    case LagPersistSettled(n) => LagSettledKeeps(s, n);
  }

  // ─── Settlement ─────────────────────────────────────────────────────────────

  lemma BeginSettleKeeps(s: System, slug: string, winner: string)
    requires SettleInv(s) && Enabled(s, BeginSettle(slug, winner)) && PicksNew(s, BeginSettle(slug, winner))
    ensures SettleInv(Next(s, BeginSettle(slug, winner)))
  {
    var todo := ToSettle(s.db.rows, slug);
    assert forall p :: p in todo ==> p !in SettledIds(s.bus.settled);
    assert TodoOk(s.db.rows, todo, s.bus.settled);
  }

  lemma MarkKeeps(s: System, pid: nat, ok: bool)
    requires SettleInv(s) && Enabled(s, Mark(pid, ok))
    ensures SettleInv(Next(s, Mark(pid, ok)))
  {
    if ok {
      MarkedKeeps(s, pid);
    } else {
      assert TodoOk(s.db.rows, s.settle.phase.todo - {pid}, s.bus.settled);
    }
  }

  lemma MarkedKeeps(s: System, pid: nat)
    requires SettleInv(s) && Enabled(s, Mark(pid, true))
    ensures SettleInv(Next(s, Mark(pid, true)))
  {
    MarkedIsAhead(s, pid);
    MarkedIsUnannounced(s, pid);
    MarkedIsOfMarket(s, pid);
  }

  lemma MarkedIsAhead(s: System, pid: nat)
    requires SettleInv(s) && s.settle.phase.SettleLoop? && pid in s.settle.phase.todo
    ensures var rows := UpdateRows(s.db.rows, pid, SetSettling);
            var p := s.settle.phase;
            && SettlePhaseOk(rows, Marked(pid, p.todo[pid], p.todo - {pid}, p.winner), s.bus)
            && AnnouncedOk(rows, s.bus.settled, s.persist.persisted)
  {
    forall e | e in s.bus.settled ensures e.pid != pid {
      assert e.pid in SettledIds(s.bus.settled);
    }
  }

  lemma MarkedIsUnannounced(s: System, pid: nat)
    requires SettleInv(s) && s.settle.phase.SettleLoop? && pid in s.settle.phase.todo
    ensures UnannouncedOk(s.db.(rows := UpdateRows(s.db.rows, pid, SetSettling)), SettledIds(s.bus.settled))
  {
    var rows := UpdateRows(s.db.rows, pid, SetSettling);
    assert forall q :: q in rows && q != pid ==> rows[q] == s.db.rows[q];
  }

  lemma MarkedIsOfMarket(s: System, pid: nat)
    requires MarketsOk(s.db.rows, s.settle, s.bus.settled) && s.settle.phase.SettleLoop? && pid in s.settle.phase.todo
    ensures var p := s.settle.phase;
            MarketsOk(UpdateRows(s.db.rows, pid, SetSettling),
                      s.settle.(phase := Marked(pid, p.todo[pid], p.todo - {pid}, p.winner)), s.bus.settled)
  {
  }

  /** Announcing a marked position. */
  lemma AnnouncedSnoc(s: System, e: SettledEvent)
    requires SettleInv(s) && s.settle.phase.Marked? && e.pid == s.settle.phase.pid
    requires e.status == PositionStatus.Won || e.status == PositionStatus.Lost
    ensures var bus := s.bus.(settled := s.bus.settled + [e]);
            && SettledLogOk(bus.settled)
            && SettledIds(bus.settled) == SettledIds(s.bus.settled) + {e.pid}
            && TodoOk(s.db.rows, s.settle.phase.todo, bus.settled)
            && AnnouncedOk(s.db.rows, bus.settled, s.persist.persisted)
            && UnannouncedOk(s.db, SettledIds(bus.settled))
            && TakenOverOk(s.db.start, SettledIds(bus.settled))
            && s.persist.persisted <= SettledIds(bus.settled[..s.persist.settled])
            && PendingOk(bus) && RedeemOk(s.redeem, bus)
  {
    SettledSnoc(s.bus.settled, e);
    SettledPrefix(s.bus.settled, s.persist.settled, |s.bus.settled|);
    assert (s.bus.settled + [e])[..s.persist.settled] == s.bus.settled[..s.persist.settled];
  }

  /** Redemptions are queued only for announced winners, so a marked position has none. */
  lemma MarkedNotPending(s: System)
    requires SettleInv(s) && s.settle.phase.Marked?
    ensures s.settle.phase.pid !in Ids(s.bus.pending)
  {
    forall r | r in s.bus.pending ensures r.pid != s.settle.phase.pid {
      var e :| e in s.bus.settled && e.pid == r.pid;
      assert e.pid in SettledIds(s.bus.settled);
    }
  }

  /** A marked position announced, and the phase the task goes on in. */
  ghost function Announced(s: System, ev: SettledEvent, phase: SettlePhase): System {
    s.(settle := s.settle.(phase := phase), bus := s.bus.(settled := s.bus.settled + [ev]))
  }

  lemma AnnouncedKeeps(s: System, ev: SettledEvent, phase: SettlePhase)
    requires SettleInv(s) && s.settle.phase.Marked? && ev.pid == s.settle.phase.pid
    requires ev.status == PositionStatus.Won || ev.status == PositionStatus.Lost
    requires var p := s.settle.phase;
             || phase == SettleLoop(p.todo, p.winner)
             || (phase.Announcing? && phase == Announcing(p.pid, ev.cost + ev.realizedPnl, p.todo, p.winner) && ev.status.Won?)
    ensures SettleInv(Announced(s, ev, phase))
  {
    AnnouncedSnoc(s, ev);
    MarketsAnnounced(s.db.rows, s.settle, phase, s.bus.settled, ev);
    if phase.Announcing? {
      MarkedNotPending(s);
      NewlyOwed(s.bus.settled, ev, phase.payout);
    }
  }

  lemma AnnounceKeeps(s: System, e: Event)
    requires SettleInv(s) && Enabled(s, e) && (e.AnnounceLost? || e.AnnounceWon?)
    ensures SettleInv(Next(s, e))
  {
    var p := s.settle.phase;
    var ev := if e.AnnounceLost? then LostEvent(p.pid, p.row) else WonEvent(p.pid, p.row, e.receipt.payout);
    AnnounceMoves(s, e, ev);
    AnnouncedKeeps(s, ev, SettleNext(p, s.db.rows, e));
  }

  lemma MarketsAnnounced(rows: Rows, settle: SettleState, phase: SettlePhase, log: seq<SettledEvent>, ev: SettledEvent)
    requires MarketsOk(rows, settle, log) && ev.pid in HandledBySettlement(settle.phase)
    requires HandledBySettlement(phase) <= HandledBySettlement(settle.phase)
    ensures MarketsOk(rows, settle.(phase := phase), log + [ev])
  {
    SettledSnoc(log, ev);
  }

  lemma AnnounceMoves(s: System, e: Event, ev: SettledEvent)
    requires Enabled(s, e) && (e.AnnounceLost? || e.AnnounceWon?)
    requires var p := s.settle.phase;
             ev == if e.AnnounceLost? then LostEvent(p.pid, p.row) else WonEvent(p.pid, p.row, e.receipt.payout)
    ensures Next(s, e) == Announced(s, ev, SettleNext(s.settle.phase, s.db.rows, e))
  {
  }

  lemma NewlyOwed(log: seq<SettledEvent>, ev: SettledEvent, payout: real)
    requires ev.status == PositionStatus.Won && ev.cost + ev.realizedPnl == payout
    ensures Owes(log + [ev], Redemption(ev.pid, payout))
  {
    assert ev in log + [ev];
  }

  lemma SendPendingKeeps(s: System)
    requires SettleInv(s) && Enabled(s, SendPending)
    ensures SettleInv(Next(s, SendPending))
  {
    PendingMoves(s);
    PendingSnoc(s, Redemption(s.settle.phase.pid, s.settle.phase.payout));
  }

  lemma PendingMoves(s: System)
    requires Enabled(s, SendPending)
    ensures var p := s.settle.phase;
            Next(s, SendPending) == s.(settle := s.settle.(phase := SettleLoop(p.todo, p.winner)),
                                       bus := s.bus.(pending := s.bus.pending + [Redemption(p.pid, p.payout)]))
  {
  }

  lemma PendingSnoc(s: System, r: Redemption)
    requires PendingOk(s.bus) && RedeemOk(s.redeem, s.bus) && Owes(s.bus.settled, r) && r.pid !in Ids(s.bus.pending)
    ensures PendingOk(s.bus.(pending := s.bus.pending + [r]))
    ensures RedeemOk(s.redeem, s.bus.(pending := s.bus.pending + [r]))
  {
    IdsSnoc(s.bus.pending, r);
    assert (s.bus.pending + [r])[..s.redeem.seen] == s.bus.pending[..s.redeem.seen];
  }

  lemma SettleTaskKeeps(s: System, e: Event)
    requires Inv(s) && SettleInv(s) && Enabled(s, e) && Owner(e).Settlement? && PicksNew(s, e)
    ensures SettleInv(Next(s, e))
  {
    match e
    case BeginSettle(slug, winner) => BeginSettleKeeps(s, slug, winner);
    case Mark(pid, ok) => MarkKeeps(s, pid, ok);
    case AnnounceLost => AnnounceKeeps(s, e);
    case AnnounceWon(_) => AnnounceKeeps(s, e);
    case RedeemErr =>
    case SendPending => SendPendingKeeps(s);
    case EndSettle =>
  }

  // ─── Redemption ─────────────────────────────────────────────────────────────

  lemma InPending(s: System, p: nat)
    requires SettleInv(s) && p in s.redeem.tracked
    ensures p in Ids(s.bus.pending[..s.redeem.seen]) && p in Ids(s.bus.pending)
    ensures Owes(s.bus.settled, Redemption(p, s.redeem.tracked[p])) && p in SettledIds(s.bus.settled)
  {
    var r := Redemption(p, s.redeem.tracked[p]);
    assert r in s.bus.pending[..s.redeem.seen] && r in s.bus.pending;
    var e :| e in s.bus.settled && e.pid == r.pid;
  }

  lemma TakePendingKeeps(s: System)
    requires SettleInv(s) && Enabled(s, TakePending)
    ensures SettleInv(Next(s, TakePending))
  {
    var n := s.redeem.seen;
    IdsAhead(s.bus.pending, n);
    forall p | p in s.redeem.tracked ensures p != s.bus.pending[n].pid {
      InPending(s, p);
    }
    forall x | x in s.bus.redeemed ensures x.pid != s.bus.pending[n].pid {
      assert x.pid in Ids(s.bus.pending[..n]);
    }
  }

  lemma ConfirmKeeps(s: System, pid: nat, ok: bool)
    requires SettleInv(s) && Enabled(s, Confirm(pid, ok))
    ensures SettleInv(Next(s, Confirm(pid, ok)))
  {
    InPending(s, pid);
    WonIsWon(s, pid);
    ConfirmMoves(s, pid, ok);
    ConfirmTracked(s, pid, ok);
    AnnouncedRewritten(s, pid, SetRedeemed, s.persist.persisted);
  }

  lemma ConfirmTracked(s: System, pid: nat, ok: bool)
    requires RedeemOk(s.redeem, s.bus) && Enabled(s, Confirm(pid, ok))
    ensures RedeemOk(RedeemNext(s.redeem, s.bus, Confirm(pid, ok)), s.bus)
  {
  }

  lemma ConfirmMoves(s: System, pid: nat, ok: bool)
    requires Enabled(s, Confirm(pid, ok))
    ensures Next(s, Confirm(pid, ok)) ==
              s.(redeem := RedeemNext(s.redeem, s.bus, Confirm(pid, ok)),
                 db := if ok then s.db.(rows := UpdateRows(s.db.rows, pid, SetRedeemed)) else s.db)
  {
  }

  /** An announced winner has no other settlement. */
  lemma WonIsWon(s: System, pid: nat)
    requires SettleInv(s) && pid in s.redeem.tracked
    ensures forall e :: e in s.bus.settled && e.pid == pid ==> e.status == PositionStatus.Won
  {
    InPending(s, pid);
    var w :| w in s.bus.settled && w.pid == pid && w.status == PositionStatus.Won;
    var i :| 0 <= i < |s.bus.settled| && s.bus.settled[i] == w;
    SettledAhead(s.bus.settled, i);
  }

  lemma SendRedeemedKeeps(s: System)
    requires SettleInv(s) && Enabled(s, SendRedeemed)
    ensures SettleInv(Next(s, SendRedeemed))
  {
    var r := Redemption(s.redeem.phase.pid, s.redeem.phase.payout);
    IdsSnoc(s.bus.redeemed, r);
    assert r.pid !in Ids(s.bus.redeemed);
  }

  lemma RedeemTaskKeeps(s: System, e: Event)
    requires Inv(s) && SettleInv(s) && Enabled(s, e) && Owner(e).Redeemer?
    ensures SettleInv(Next(s, e))
  {
    match e
    case TakePending => TakePendingKeeps(s);
    case BeginCheck =>
    case Confirm(pid, ok) => ConfirmKeeps(s, pid, ok);
    case SendRedeemed => SendRedeemedKeeps(s);
    case RedeemFailed(_) =>
    case StillPending(_) =>
    case EndCheck =>
  }

  // ─── Every run ──────────────────────────────────────────────────────────────

  lemma SettleStepKeeps(s: System, e: Event)
    requires Inv(s) && SettleInv(s) && Enabled(s, e) && PicksNew(s, e)
    ensures SettleInv(Next(s, e))
  {
    match Owner(e)
    case Executor =>
      RowInHand(s);
      ExecSettleKeeps(s, e);
    case Persister => PersistSettleKeeps(s, e);
    case Settlement => SettleTaskKeeps(s, e);
    case Redeemer => RedeemTaskKeeps(s, e);
    case _ => OthersKeepSettleInv(s, e);
  }

  /** The other tasks reach nothing settlement and redemption rest on. */
  lemma OthersKeepSettleInv(s: System, e: Event)
    requires SettleInv(s) && Enabled(s, e) && (Owner(e).Rotation? || Owner(e).Poller? || Owner(e).Banker?)
    ensures SettleInv(Next(s, e))
  {
    if Owner(e).Poller? {
      PollerReach(s, e);
    }
  }

  lemma {:induction false} SettleRunKeeps(s: System, events: seq<Event>)
    requires Inv(s) && SettleInv(s) && Run(s, events) && RunPicksNew(s, events)
    ensures Inv(After(s, events)) && SettleInv(After(s, events))
    decreases |events|
  {
    if events != [] {
      StepKeeps(s, events[0]);
      SettleStepKeeps(s, events[0]);
      SettleRunKeeps(Next(s, events[0]), events[1..]);
    }
  }

  lemma SettleReached(s: System, events: seq<Event>)
    requires Init(s) && Run(s, events) && RunPicksNew(s, events)
    ensures Inv(After(s, events)) && SettleInv(After(s, events))
  {
    InitInv(s);
    InitSettleInv(s);
    SettleRunKeeps(s, events);
  }

  /** With each market resolved once, no delivery ever picks an announced position. */
  lemma {:induction false} OnceIsNew(s: System, events: seq<Event>)
    requires Inv(s) && SettleInv(s) && Run(s, events) && RunResolvedOnce(s, events)
    ensures RunPicksNew(s, events)
    decreases |events|
  {
    if events != [] {
      NewMarketIsNew(s, events[0]);
      StepKeeps(s, events[0]);
      SettleStepKeeps(s, events[0]);
      OnceIsNew(Next(s, events[0]), events[1..]);
    }
  }

  lemma NewMarketIsNew(s: System, e: Event)
    requires MarketsOk(s.db.rows, s.settle, s.bus.settled) && ResolvedOnce(s, e)
    ensures PicksNew(s, e)
  {
    if e.BeginSettle? {
      forall v | v in s.bus.settled ensures v.pid !in ToSettle(s.db.rows, e.slug) {
        assert v.pid in SettledIds(s.bus.settled);
      }
    }
  }
}
