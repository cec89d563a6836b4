/** What every reachable state keeps about orders, for any client, any store failures and any lag. */
module OrderSafety {
  import opened Types
  import opened State
  import opened Store
  import opened OrderPolling
  import opened Persistence
  import opened Settling
  import opened Protocol

  // ─── Facts about the order log ──────────────────────────────────────────────

  /** Positions with a terminal update in the log. */
  ghost function Finished(log: seq<OrderUpdate>): set<nat> {
    set u | u in log && u.Terminal() :: u.pid
  }

  /** No position has two terminal updates. */
  ghost predicate OneTerminal(log: seq<OrderUpdate>) {
    forall j, k :: 0 <= j < k < |log| && log[j].Terminal() && log[k].Terminal() ==> log[j].pid != log[k].pid
  }

  lemma FinishedSnoc(log: seq<OrderUpdate>, u: OrderUpdate)
    ensures Finished(log + [u]) == if u.Terminal() then Finished(log) + {u.pid} else Finished(log)
  {
    var more := log + [u];
    forall p ensures p in Finished(more) <==> p in Finished(log) || (u.Terminal() && p == u.pid) {
      if p in Finished(more) {
        var v :| v in more && v.Terminal() && v.pid == p;
        assert v in log || v == u;
      }
      if p in Finished(log) {
        var v :| v in log && v.Terminal() && v.pid == p;
        assert v in more;
      }
      if u.Terminal() && p == u.pid {
        assert u in more;
      }
    }
  }

  lemma FinishedPrefix(log: seq<OrderUpdate>, i: nat, j: nat)
    requires i <= j <= |log|
    ensures Finished(log[..i]) <= Finished(log[..j]) <= Finished(log)
  {
    forall p | p in Finished(log[..i]) ensures p in Finished(log[..j]) {
      var u :| u in log[..i] && u.Terminal() && u.pid == p;
      assert u in log[..j];
    }
    forall p | p in Finished(log[..j]) ensures p in Finished(log) {
      var u :| u in log[..j] && u.Terminal() && u.pid == p;
      assert u in log;
    }
  }

  /** With one terminal update each, a position still ahead of a cursor is not behind it. */
  lemma NotYetFinished(log: seq<OrderUpdate>, i: nat)
    requires OneTerminal(log) && i < |log| && log[i].Terminal()
    ensures log[i].pid !in Finished(log[..i]) && log[i].pid in Finished(log)
  {
    forall u | u in log[..i] && u.Terminal() ensures u.pid != log[i].pid {
      var j :| 0 <= j < i && log[j] == u;
    }
    assert log[i] in log;
  }

  lemma OneTerminalSnoc(log: seq<OrderUpdate>, u: OrderUpdate)
    requires OneTerminal(log) && (u.Terminal() ==> u.pid !in Finished(log))
    ensures OneTerminal(log + [u])
  {
    forall j | 0 <= j < |log| && log[j].Terminal() ensures log[j].pid in Finished(log) {
      assert log[j] in log;
    }
  }

  // ─── The invariant ──────────────────────────────────────────────────────────

  ghost predicate DbOk(db: Db) {
    db.start.Keys <= db.rows.Keys && forall id :: id in db.rows ==> id <= db.lastId
  }

  ghost predicate CursorsOk(s: System) {
    && s.persist.orders <= |s.bus.orders| && s.bank.orders <= |s.bus.orders|
    && s.persist.settled <= |s.bus.settled| && s.bank.settled <= |s.bus.settled|
    && s.redeem.seen <= |s.bus.pending| && s.bank.redeemed <= |s.bus.redeemed|
  }

  /** A row of this session, as opposed to one found in the database. */
  ghost predicate Fresh(db: Db, p: nat) {
    p in db.rows && p !in db.start
  }

  ghost predicate ExecOk(db: Db, x: ExecState, t: Tracking) {
    && (x.slot.Pending? ==> x.slot.positionId in db.rows)
    && (x.phase.HoldsRow() ==>
          Fresh(db, x.phase.pid) && db.rows[x.phase.pid].orderId.None? && db.rows[x.phase.pid].status == Submitted)
    && (x.phase.Inserted? ==> x.phase.pid !in t.awaiting && x.slot != RoundSlotState.Pending(x.phase.pid))
    && (x.phase.Claimed? || x.phase.Placed? ==> x.slot == RoundSlotState.Pending(x.phase.pid))
    && (x.phase.PlaceFailed? ==> x.slot.Empty?)
  }

  ghost predicate TrackingOk(db: Db, t: Tracking, finished: set<nat>) {
    && (forall p :: p in t.awaiting ==> Fresh(db, p) && p !in t.tracked && p !in finished)
    && (forall p :: p in t.tracked ==> Fresh(db, p) && db.rows[p].orderId == Some(t.tracked[p]))
    && (forall p :: p in finished ==> Fresh(db, p) && db.rows[p].orderId.Some?)
  }

  /** A slot value the poller has not looked at yet names a position it has never heard of. */
  ghost predicate WatchOk(db: Db, slot: RoundSlotState, poll: PollState, finished: set<nat>) {
    poll.slotUnseen && slot.Pending? ==>
      var p := slot.positionId;
      Fresh(db, p) && p !in poll.tracking.awaiting && p !in poll.tracking.tracked && p !in finished
  }

  /** Between polls nothing tracked is finished; during one exactly the `done` ones are. */
  ghost predicate PhaseOk(db: Db, poll: PollState, finished: set<nat>) {
    match poll.phase
    case PollIdle => poll.tracking.tracked.Keys !! finished
    case Fetched(known) =>
      && poll.tracking.tracked.Keys !! finished
      && (forall p :: p in known ==> p in db.rows && db.rows[p].orderId == Some(known[p]))
    case Polling(todo, done) =>
      && todo <= poll.tracking.tracked.Keys && todo !! done
      && poll.tracking.tracked.Keys * finished == done
  }

  /** Until its terminal update is behind persistence, a row is Submitted or failed placement. */
  ghost predicate StatusOk(db: Db, passed: set<nat>) {
    forall p :: Fresh(db, p) && p !in passed ==>
      db.rows[p].status == Submitted || (db.rows[p].status == Rejected && db.rows[p].orderId.None?)
  }

  /** Positions whose terminal update is behind persistence. */
  ghost function Passed(s: System): set<nat>
    requires CursorsOk(s)
  {
    Finished(s.bus.orders[..s.persist.orders])
  }

  ghost function HandledBySettlement(p: SettlePhase): set<nat> {
    match p
    case SettleIdle => {}
    case SettleLoop(todo, _) => todo.Keys
    case Marked(pid, _, todo, _) => todo.Keys + {pid}
    case Announcing(pid, _, todo, _) => todo.Keys + {pid}
  }

  ghost predicate RedeemPhaseOk(r: RedeemState) {
    && (r.phase.Checking? || r.phase.Written? ==> r.phase.todo <= r.tracked.Keys)
    && (r.phase.Written? ==> r.phase.pid in r.tracked)
  }

  /** Settlement and redemption only ever touch old rows and rows persistence is done with. */
  ghost predicate HandledOk(s: System, ready: set<nat>) {
    && HandledBySettlement(s.settle.phase) <= ready
    && (forall i :: 0 <= i < |s.bus.settled| ==> s.bus.settled[i].pid in ready)
    && (forall i :: 0 <= i < |s.bus.pending| ==> s.bus.pending[i].pid in ready)
    && s.redeem.tracked.Keys <= ready
    && RedeemPhaseOk(s.redeem)
  }

  ghost predicate Inv(s: System) {
    && DbOk(s.db) && CursorsOk(s) && OneTerminal(s.bus.orders)
    && ExecOk(s.db, s.exec, s.poll.tracking)
    && TrackingOk(s.db, s.poll.tracking, Finished(s.bus.orders))
    && WatchOk(s.db, s.exec.slot, s.poll, Finished(s.bus.orders))
    && PhaseOk(s.db, s.poll, Finished(s.bus.orders))
    && StatusOk(s.db, Passed(s))
    && HandledOk(s, s.db.start.Keys + Passed(s))
  }

  lemma InitInv(s: System)
    requires Init(s)
    ensures Inv(s)
  {
  }

  // ─── Executor ───────────────────────────────────────────────────────────────

  lemma NewOrderMessage(s: System, u: OrderUpdate)
    requires CursorsOk(s)
    ensures Finished((s.bus.orders + [u])[..s.persist.orders]) == Passed(s)
  {
    assert (s.bus.orders + [u])[..s.persist.orders] == s.bus.orders[..s.persist.orders];
  }

  /** A new row disturbs nothing known about the others. */
  lemma DbGrows(s: System, id: nat, row: Row)
    requires Inv(s) && id !in s.db.rows
    ensures var db := s.db.(rows := s.db.rows[id := row], lastId := id);
            && TrackingOk(db, s.poll.tracking, Finished(s.bus.orders))
            && WatchOk(db, s.exec.slot, s.poll, Finished(s.bus.orders))
            && PhaseOk(db, s.poll, Finished(s.bus.orders))
  {
    var db := s.db.(rows := s.db.rows[id := row], lastId := id);
    assert forall p :: Fresh(s.db, p) ==> Fresh(db, p) && db.rows[p] == s.db.rows[p];
  }

  lemma InsertMoves(s: System)
    requires Enabled(s, Insert(true))
    ensures var p, id := s.exec.phase, s.db.lastId + 1;
            Next(s, Insert(true)) ==
              s.(db := s.db.(rows := s.db.rows[id := SubmittedRow(p.market, p.outcome, p.intent)], lastId := id),
                 exec := s.exec.(phase := Inserted(id, p.intent, p.outcome.tokenId)))
  {
  }

  lemma InsertKeeps(s: System)
    requires Inv(s) && Enabled(s, Insert(true))
    ensures Inv(Next(s, Insert(true)))
  {
    InsertMoves(s);
    var p, id := s.exec.phase, s.db.lastId + 1;
    var row := SubmittedRow(p.market, p.outcome, p.intent);
    DbGrows(s, id, row);
    StatusGrows(s, id, row);
  }

  lemma StatusGrows(s: System, id: nat, row: Row)
    requires CursorsOk(s) && StatusOk(s.db, Passed(s)) && id !in s.db.rows && row.status == Submitted
    ensures StatusOk(s.db.(rows := s.db.rows[id := row], lastId := id), Passed(s))
  {
    var db := s.db.(rows := s.db.rows[id := row], lastId := id);
    assert forall p :: Fresh(db, p) && p != id ==> Fresh(s.db, p) && db.rows[p] == s.db.rows[p];
  }

  lemma PlaceOkMoves(s: System, oid: string)
    requires Enabled(s, PlaceOk(oid))
    ensures Next(s, PlaceOk(oid)) ==
              s.(exec := s.exec.(placements := s.exec.placements + 1, phase := Placed(s.exec.phase.pid, oid)),
                 bus := s.bus.(orders := s.bus.orders + [OrderSubmitted(oid, s.exec.phase.pid)]))
  {
  }

  lemma PlaceOkKeeps(s: System, oid: string)
    requires Inv(s) && Enabled(s, PlaceOk(oid))
    ensures Inv(Next(s, PlaceOk(oid)))
  {
    var u := OrderSubmitted(oid, s.exec.phase.pid);
    PlaceOkMoves(s, oid);
    FinishedSnoc(s.bus.orders, u);
    NewOrderMessage(s, u);
    OneTerminalSnoc(s.bus.orders, u);
  }

  /** A write that keeps every order id leaves the poller's side alone. */
  lemma DbRewritten(s: System, db: Db, except: set<nat>)
    requires Inv(s) && db.start == s.db.start && db.lastId == s.db.lastId && db.rows.Keys == s.db.rows.Keys
    requires forall p :: p in db.rows && p !in except ==> db.rows[p].orderId == s.db.rows[p].orderId
    requires forall p :: p in except ==> p in s.db.rows && s.db.rows[p].orderId.None?
    ensures DbOk(db)
    ensures TrackingOk(db, s.poll.tracking, Finished(s.bus.orders))
    ensures WatchOk(db, s.exec.slot, s.poll, Finished(s.bus.orders))
    ensures PhaseOk(db, s.poll, Finished(s.bus.orders))
  {
    assert forall p :: Fresh(s.db, p) <==> Fresh(db, p);
  }

  lemma ExecWriteMoves(s: System, ok: bool)
    requires Enabled(s, ExecWrite(ok))
    ensures var u := if s.exec.phase.Placed? then SetSubmitted(s.exec.phase.orderId) else SetRejected;
            Next(s, ExecWrite(ok)) ==
              s.(exec := s.exec.(phase := ExecIdle),
                 db := if ok then s.db.(rows := UpdateRows(s.db.rows, s.exec.phase.pid, u)) else s.db)
  {
  }

  lemma ExecWriteKeeps(s: System, ok: bool)
    requires Inv(s) && Enabled(s, ExecWrite(ok))
    ensures Inv(Next(s, ExecWrite(ok)))
  {
    ExecWriteMoves(s, ok);
    if !ok {
      return;
    }
    var u := if s.exec.phase.Placed? then SetSubmitted(s.exec.phase.orderId) else SetRejected;
    ExecRowWritten(s, u);
  }

  /** The row in the executor's hands takes its order id or its rejection. */
  lemma ExecRowWritten(s: System, u: PositionUpdate)
    requires Inv(s) && s.exec.phase.HoldsRow() && (u.SetSubmitted? || u.SetRejected?)
    ensures var db := s.db.(rows := UpdateRows(s.db.rows, s.exec.phase.pid, u));
            && DbOk(db) && TrackingOk(db, s.poll.tracking, Finished(s.bus.orders))
            && WatchOk(db, s.exec.slot, s.poll, Finished(s.bus.orders))
            && PhaseOk(db, s.poll, Finished(s.bus.orders))
            && StatusOk(db, Passed(s))
  {
    var pid := s.exec.phase.pid;
    var db := s.db.(rows := UpdateRows(s.db.rows, pid, u));
    DbRewritten(s, db, {pid});
    assert forall p :: Fresh(db, p) && p != pid ==> Fresh(s.db, p) && db.rows[p] == s.db.rows[p];
  }

  lemma ExecKeeps(s: System, e: Event)
    requires Inv(s) && Enabled(s, e) && Owner(e).Executor?
    ensures Inv(Next(s, e))
  {
    if e == Insert(true) {
      InsertKeeps(s);
    } else if e.PlaceOk? {
      PlaceOkKeeps(s, e.orderId);
    } else if e.ExecWrite? {
      ExecWriteKeeps(s, e.ok);
    } else {
      ExecSlotKeeps(s, e);
    }
  }

  /** The executor's steps that touch neither the store nor the queues. */
  lemma ExecSlotKeeps(s: System, e: Event)
    requires Inv(s) && Enabled(s, e) && Owner(e).Executor?
    requires e != Insert(true) && !e.PlaceOk? && !e.ExecWrite?
    ensures Inv(Next(s, e))
  {
    QuietMoves(s, e);
    SlotMoved(s, e);
  }

  lemma QuietMoves(s: System, e: Event)
    requires Enabled(s, e) && Owner(e).Executor?
    requires e != Insert(true) && !e.PlaceOk? && !e.ExecWrite?
    ensures Next(s, e) == s.(exec := ExecNext(s.exec, e, s.db.lastId + 1),
                             poll := s.poll.(slotUnseen := s.poll.slotUnseen || SendsSlot(s.exec, e)))
  {
  }

  lemma SlotMoved(s: System, e: Event)
    requires Inv(s) && ExecEnabled(s.exec, e)
    requires e != Insert(true) && !e.PlaceOk? && !e.ExecWrite?
    ensures var x := ExecNext(s.exec, e, s.db.lastId + 1);
            var poll := s.poll.(slotUnseen := s.poll.slotUnseen || SendsSlot(s.exec, e));
            && ExecOk(s.db, x, s.poll.tracking)
            && WatchOk(s.db, x.slot, poll, Finished(s.bus.orders))
  {
  }

  // ─── Order-status poller ────────────────────────────────────────────────────

  lemma ResolveIdsKeeps(s: System)
    requires Inv(s) && Enabled(s, ResolveIds)
    ensures Inv(Next(s, ResolveIds))
  {
    ResolvedTracking(s);
  }

  lemma ResolvedTracking(s: System)
    requires Inv(s) && s.poll.phase.Fetched?
    ensures var t := Resolve(s.poll.tracking, s.poll.phase.known);
            TrackingOk(s.db, t, Finished(s.bus.orders)) && t.tracked.Keys !! Finished(s.bus.orders)
  {
    var t := Resolve(s.poll.tracking, s.poll.phase.known);
    forall q | q in t.tracked
      ensures q in s.poll.tracking.tracked || (q in s.poll.tracking.awaiting && q in s.poll.phase.known)
    {
    }
  }

  lemma PollOrderKeeps(s: System, pid: nat, reply: Option<OrderUpdate>)
    requires Inv(s) && Enabled(s, PollOrder(pid, reply))
    ensures Inv(Next(s, PollOrder(pid, reply)))
  {
    if reply.Some? {
      NewOrderMessage(s, reply.value);
      AnswerKeeps(s, pid, reply.value);
    }
  }

  /** An answer about a tracked order finishes that position exactly if it is terminal. */
  lemma AnswerKeeps(s: System, pid: nat, u: OrderUpdate)
    requires Inv(s) && Enabled(s, PollOrder(pid, Some(u)))
    ensures var t := Next(s, PollOrder(pid, Some(u)));
            && OneTerminal(t.bus.orders)
            && TrackingOk(s.db, t.poll.tracking, Finished(t.bus.orders))
            && WatchOk(s.db, s.exec.slot, t.poll, Finished(t.bus.orders))
            && PhaseOk(s.db, t.poll, Finished(t.bus.orders))
  {
    FinishedSnoc(s.bus.orders, u);
    assert pid !in Finished(s.bus.orders);
    OneTerminalSnoc(s.bus.orders, u);
  }

  lemma FetchKeeps(s: System, ok: bool)
    requires Inv(s) && Enabled(s, Fetch(ok))
    ensures Inv(Next(s, Fetch(ok)))
  {
    assert PhaseOk(s.db, Next(s, Fetch(ok)).poll, Finished(s.bus.orders));
  }

  lemma PollDoneKeeps(s: System)
    requires Inv(s) && Enabled(s, PollDone)
    ensures Inv(Next(s, PollDone))
  {
    var poll := Next(s, PollDone).poll;
    assert Next(s, PollDone) == s.(poll := poll);
    DoneRetired(s);
  }

  lemma DoneRetired(s: System)
    requires Inv(s) && Enabled(s, PollDone)
    ensures var poll := PollNext(s.poll, s.exec.slot, s.db.rows, PollDone);
            && TrackingOk(s.db, poll.tracking, Finished(s.bus.orders)) && poll.tracking.tracked.Keys !! Finished(s.bus.orders)
            && poll.tracking.awaiting == s.poll.tracking.awaiting && poll.phase.PollIdle?
            && poll.slotUnseen == s.poll.slotUnseen
  {
    var t := Retire(s.poll.tracking, s.poll.phase.done);
    assert forall p :: p in t.tracked ==> p in s.poll.tracking.tracked && t.tracked[p] == s.poll.tracking.tracked[p];
  }

  lemma PollKeeps(s: System, e: Event)
    requires Inv(s) && Enabled(s, e) && Owner(e).Poller?
    ensures Inv(Next(s, e))
  {
    match e
    case SeeSlot => SeeSlotKeeps(s);
    case Fetch(ok) => FetchKeeps(s, ok);
    case ResolveIds => ResolveIdsKeeps(s);
    case PollOrder(pid, reply) => PollOrderKeeps(s, pid, reply);
    case PollDone => PollDoneKeeps(s);
  }

  lemma SeeSlotKeeps(s: System)
    requires Inv(s) && Enabled(s, SeeSlot)
    ensures Inv(Next(s, SeeSlot))
  {
    SlotNoted(s);
  }

  /** The position a new slot value names has not been heard of, so it may be awaited. */
  lemma SlotNoted(s: System)
    requires Inv(s) && s.poll.slotUnseen && s.poll.phase.PollIdle?
    ensures var t := NoteSlot(s.poll.tracking, s.exec.slot);
            TrackingOk(s.db, t, Finished(s.bus.orders)) && ExecOk(s.db, s.exec, t)
  {
  }

  // ─── Writes downstream of the poller ────────────────────────────────────────

  /** A handled row is not the one in the executor's hands, so rewriting it keeps the order side. */
  lemma HandledRewritten(s: System, pid: nat, u: PositionUpdate)
    requires Inv(s) && pid in s.db.start.Keys + Passed(s) && !u.SetSubmitted?
    ensures var db := s.db.(rows := UpdateRows(s.db.rows, pid, u));
            && DbOk(db) && ExecOk(db, s.exec, s.poll.tracking)
            && TrackingOk(db, s.poll.tracking, Finished(s.bus.orders))
            && WatchOk(db, s.exec.slot, s.poll, Finished(s.bus.orders))
            && PhaseOk(db, s.poll, Finished(s.bus.orders))
            && StatusOk(db, Passed(s))
  {
    var db := s.db.(rows := UpdateRows(s.db.rows, pid, u));
    NotInHand(s, pid);
    DbRewritten(s, db, {});
    StatusRewritten(s, pid, u);
  }

  /** Every other row is as it was, and of this one nothing is claimed. */
  lemma StatusRewritten(s: System, pid: nat, u: PositionUpdate)
    requires CursorsOk(s) && StatusOk(s.db, Passed(s)) && pid in s.db.start.Keys + Passed(s)
    ensures StatusOk(s.db.(rows := UpdateRows(s.db.rows, pid, u)), Passed(s))
  {
    var db := s.db.(rows := UpdateRows(s.db.rows, pid, u));
    assert forall p :: Fresh(db, p) && p != pid ==> Fresh(s.db, p) && db.rows[p] == s.db.rows[p];
  }

  lemma RowHandled(s: System, pid: nat, u: PositionUpdate)
    requires Inv(s) && pid in s.db.start.Keys + Passed(s) && !u.SetSubmitted?
    ensures Inv(s.(db := s.db.(rows := UpdateRows(s.db.rows, pid, u))))
  {
    HandledRewritten(s, pid, u);
  }

  lemma NotInHand(s: System, pid: nat)
    requires Inv(s) && pid in s.db.start.Keys + Passed(s)
    ensures s.exec.phase.HoldsRow() ==> s.exec.phase.pid != pid
  {
    FinishedPrefix(s.bus.orders, s.persist.orders, |s.bus.orders|);
  }

  /** More messages passed, more rows ready. */
  lemma PassedGrows(s: System, n: nat)
    requires Inv(s) && s.persist.orders <= n <= |s.bus.orders|
    ensures Passed(s) <= Finished(s.bus.orders[..n])
    ensures StatusOk(s.db, Finished(s.bus.orders[..n]))
    ensures HandledOk(s, s.db.start.Keys + Finished(s.bus.orders[..n]))
  {
    FinishedPrefix(s.bus.orders, s.persist.orders, n);
  }

  /** The write a terminal update leads to finds its row Submitted. */
  lemma TerminalWrite(s: System, w: PositionUpdate)
    requires Inv(s) && s.persist.orders < |s.bus.orders| && s.bus.orders[s.persist.orders].Terminal()
    requires !w.SetSubmitted?
    ensures var u := s.bus.orders[s.persist.orders];
            var db := s.db.(rows := UpdateRows(s.db.rows, u.pid, w));
            && Fresh(s.db, u.pid) && s.db.rows[u.pid].status == Submitted
            && DbOk(db) && ExecOk(db, s.exec, s.poll.tracking)
            && TrackingOk(db, s.poll.tracking, Finished(s.bus.orders))
            && WatchOk(db, s.exec.slot, s.poll, Finished(s.bus.orders))
            && PhaseOk(db, s.poll, Finished(s.bus.orders))
            && StatusOk(db, Finished(s.bus.orders[..s.persist.orders + 1]))
  {
    var n := s.persist.orders;
    var u := s.bus.orders[n];
    var db := s.db.(rows := UpdateRows(s.db.rows, u.pid, w));
    NotYetFinished(s.bus.orders, n);
    DbRewritten(s, db, {});
    StatusPassed(s, w);
  }

  /** The row a terminal update rewrites has that update behind persistence from then on. */
  lemma StatusPassed(s: System, w: PositionUpdate)
    requires CursorsOk(s) && StatusOk(s.db, Passed(s))
    requires s.persist.orders < |s.bus.orders| && s.bus.orders[s.persist.orders].Terminal()
    ensures var db := s.db.(rows := UpdateRows(s.db.rows, s.bus.orders[s.persist.orders].pid, w));
            StatusOk(db, Finished(s.bus.orders[..s.persist.orders + 1]))
  {
    var n := s.persist.orders;
    var u := s.bus.orders[n];
    var db := s.db.(rows := UpdateRows(s.db.rows, u.pid, w));
    assert s.bus.orders[..n + 1] == s.bus.orders[..n] + [u];
    FinishedSnoc(s.bus.orders[..n], u);
    assert forall p :: Fresh(db, p) && p != u.pid ==> Fresh(s.db, p) && db.rows[p] == s.db.rows[p];
  }

  lemma PersistOrderKeeps(s: System, ok: bool)
    requires Inv(s) && Enabled(s, PersistOrder(ok))
    ensures Inv(Next(s, PersistOrder(ok)))
  {
    var u := s.bus.orders[s.persist.orders];
    PassedGrows(s, s.persist.orders + 1);
    match OrderWrite(u)
    case Some(w) => TerminalWrite(s, w);
    case None =>
  }

  lemma PersistKeeps(s: System, e: Event)
    requires Inv(s) && Enabled(s, e) && Owner(e).Persister?
    ensures Inv(Next(s, e))
  {
    match e
    case PersistOrder(ok) => PersistOrderKeeps(s, ok);
    case PersistSettlement(ok) => PersistSettlementKeeps(s, ok);
    case LagPersistOrders(n) => PassedGrows(s, s.persist.orders + n);
    case LagPersistSettled(_) =>
  }

  lemma PersistSettlementKeeps(s: System, ok: bool)
    requires Inv(s) && Enabled(s, PersistSettlement(ok))
    ensures Inv(Next(s, PersistSettlement(ok)))
  {
    var ev := s.bus.settled[s.persist.settled];
    match SettledWrite(ev)
    case Some(w) => RowHandled(s, ev.pid, w);
    case None =>
  }

  lemma BankKeeps(s: System, e: Event)
    requires Inv(s) && Enabled(s, e) && Owner(e).Banker?
    ensures Inv(Next(s, e))
  {
  }

  lemma BeginSettleKeeps(s: System, slug: string, winner: string)
    requires Inv(s) && Enabled(s, BeginSettle(slug, winner))
    ensures Inv(Next(s, BeginSettle(slug, winner)))
  {
    forall p | p in ToSettle(s.db.rows, slug) ensures p in s.db.start.Keys + Passed(s) {
      assert s.db.rows[p].status != Submitted && s.db.rows[p].status != Rejected;
    }
  }

  lemma MarkMoves(s: System, pid: nat, ok: bool)
    requires Enabled(s, Mark(pid, ok))
    ensures Next(s, Mark(pid, ok)) ==
              s.(settle := s.settle.(phase := SettleNext(s.settle.phase, s.db.rows, Mark(pid, ok))),
                 db := if ok then s.db.(rows := UpdateRows(s.db.rows, pid, SetSettling)) else s.db)
  {
  }

  lemma MarkKeeps(s: System, pid: nat, ok: bool)
    requires Inv(s) && Enabled(s, Mark(pid, ok))
    ensures Inv(Next(s, Mark(pid, ok)))
  {
    MarkMoves(s, pid, ok);
    var phase := SettleNext(s.settle.phase, s.db.rows, Mark(pid, ok));
    if ok {
      RowHandled(s, pid, SetSettling);
      PhaseShrinks(s.(db := s.db.(rows := UpdateRows(s.db.rows, pid, SetSettling))), phase);
    } else {
      PhaseShrinks(s, phase);
    }
  }

  lemma PhaseShrinks(s: System, phase: SettlePhase)
    requires Inv(s) && HandledBySettlement(phase) <= HandledBySettlement(s.settle.phase)
    ensures Inv(s.(settle := s.settle.(phase := phase)))
  {
  }

  lemma SettleKeeps(s: System, e: Event)
    requires Inv(s) && Enabled(s, e) && Owner(e).Settlement?
    ensures Inv(Next(s, e))
  {
    if e.BeginSettle? {
      BeginSettleKeeps(s, e.slug, e.winner);
    } else if e.Mark? {
      MarkKeeps(s, e.pid, e.ok);
    } else {
      AnnounceKeeps(s, e);
    }
  }

  lemma AnnounceKeeps(s: System, e: Event)
    requires Inv(s) && Enabled(s, e) && Owner(e).Settlement? && !e.BeginSettle? && !e.Mark?
    ensures Inv(Next(s, e))
  {
    SettlementReach(s, e);
  }

  lemma RedeemKeeps(s: System, e: Event)
    requires Inv(s) && Enabled(s, e) && Owner(e).Redeemer?
    ensures Inv(Next(s, e))
  {
    match e
    case Confirm(pid, ok) => RowHandled(s, pid, SetRedeemed);
    case _ =>
  }

  // ─── Every run ──────────────────────────────────────────────────────────────

  lemma StepKeeps(s: System, e: Event)
    requires Inv(s) && Enabled(s, e)
    ensures Inv(Next(s, e))
  {
    match Owner(e)
    case Rotation =>
    case Executor => ExecKeeps(s, e);
    case Poller => PollKeeps(s, e);
    case Persister => PersistKeeps(s, e);
    case Banker => BankKeeps(s, e);
    case Settlement => SettleKeeps(s, e);
    case Redeemer => RedeemKeeps(s, e);
  }

  lemma {:induction false} RunKeeps(s: System, events: seq<Event>)
    requires Inv(s) && Run(s, events)
    ensures Inv(After(s, events))
    decreases |events|
  {
    if events != [] {
      StepKeeps(s, events[0]);
      RunKeeps(Next(s, events[0]), events[1..]);
    }
  }

  lemma Reached(s: System, events: seq<Event>)
    requires Init(s) && Run(s, events)
    ensures Inv(After(s, events))
  {
    InitInv(s);
    RunKeeps(s, events);
  }

  /** Whatever the client answers and whenever, no position gets two terminal updates: in particular
      a filled order is never reported cancelled afterwards. */
  lemma AtMostOneTerminalUpdate(s: System, events: seq<Event>)
    requires Init(s) && Run(s, events)
    ensures OneTerminal(After(s, events).bus.orders)
  {
    Reached(s, events);
  }

  /** Only recording an order id writes Submitted, and the executor does that to a Submitted row. */
  lemma SubmittedOnlyOnSubmitted(db: Db, p: nat, w: PositionUpdate)
    requires w.SetSubmitted? && p in db.rows ==> db.rows[p].status == Submitted
    ensures forall q :: q in db.rows ==>
              (UpdateRows(db.rows, p, w)[q].status == Submitted ==> db.rows[q].status == Submitted)
  {
  }

  lemma SubmittedStep(s: System, e: Event)
    requires DbOk(s.db) && ExecOk(s.db, s.exec, s.poll.tracking) && Enabled(s, e)
    ensures forall p :: p in s.db.rows ==>
              p in Next(s, e).db.rows && (Next(s, e).db.rows[p].status == Submitted ==> s.db.rows[p].status == Submitted)
  {
    StoreStep(s, e);
    match WriteOf(s, e)
    case Some(w) => SubmittedOnlyOnSubmitted(s.db, w.0, w.1);
    case None =>
  }

  /** No step of any task ever puts a row that has left Submitted back there. */
  lemma NoReturnToSubmitted(s: System, events: seq<Event>, e: Event)
    requires Init(s) && Run(s, events) && Enabled(After(s, events), e)
    ensures var now := After(s, events);
            forall p :: p in now.db.rows ==>
              p in Next(now, e).db.rows && (Next(now, e).db.rows[p].status == Submitted ==> now.db.rows[p].status == Submitted)
  {
    Reached(s, events);
    SubmittedStep(After(s, events), e);
  }

  /** A terminal order update always finds its row Submitted, so persisting it follows the lifecycle. */
  lemma OrderWritesFollowLifecycle(s: System, events: seq<Event>, ok: bool)
    requires Init(s) && Run(s, events) && Enabled(After(s, events), PersistOrder(ok))
    ensures var now := After(s, events);
            var u := now.bus.orders[now.persist.orders];
            match OrderWrite(u)
            case Some(w) => u.pid in now.db.rows && PositionEdge(now.db.rows[u.pid].status, Apply(now.db.rows[u.pid], w).status)
            case None => Next(now, PersistOrder(ok)).db == now.db
  {
    Reached(s, events);
    var now := After(s, events);
    match OrderWrite(now.bus.orders[now.persist.orders])
    case Some(w) => TerminalWrite(now, w);
    case None =>
  }

  /** The executor's two writes find their row Submitted, where both store implementations agree. */
  lemma ExecutorWritesAgree(s: System, events: seq<Event>, ok: bool)
    requires Init(s) && Run(s, events) && Enabled(After(s, events), ExecWrite(ok))
    ensures var now := After(s, events);
            && now.exec.phase.pid in now.db.rows && now.db.rows[now.exec.phase.pid].status == Submitted
            && forall u :: Apply(now.db.rows[now.exec.phase.pid], u) == MockApply(now.db.rows[now.exec.phase.pid], u)
  {
    Reached(s, events);
  }

  // ─── A position whose placement failed ──────────────────────────────────────

  /** No order id is stored for `p`, and the executor is past the point of storing one. */
  ghost predicate NeverPlaced(s: System, p: nat) {
    && Fresh(s.db, p) && s.db.rows[p].orderId.None?
    && (s.exec.phase.HoldsRow() && !s.exec.phase.PlaceFailed? ==> s.exec.phase.pid != p)
  }

  lemma NeverPlacedStep(s: System, e: Event, p: nat)
    requires DbOk(s.db) && Enabled(s, e) && NeverPlaced(s, p)
    ensures NeverPlaced(Next(s, e), p)
  {
    StoreStep(s, e);
    match Owner(e)
    case Executor => ExecKeepsNeverPlaced(s, e, p);
    case _ => assert Next(s, e).exec.phase == s.exec.phase;
  }

  lemma ExecKeepsNeverPlaced(s: System, e: Event, p: nat)
    requires DbOk(s.db) && Enabled(s, e) && NeverPlaced(s, p) && Owner(e).Executor?
    ensures NeverPlaced(Next(s, e), p)
  {
  }

  lemma {:induction false} NeverPlacedRun(s: System, events: seq<Event>, p: nat)
    requires Inv(s) && Run(s, events) && NeverPlaced(s, p)
    ensures Inv(After(s, events)) && NeverPlaced(After(s, events), p)
    decreases |events|
  {
    if events != [] {
      NeverPlacedStep(s, events[0], p);
      StepKeeps(s, events[0]);
      NeverPlacedRun(Next(s, events[0]), events[1..], p);
    }
  }

  /** It is never tracked, polled or given a terminal update, however long the run goes on. */
  lemma FailedPlacementIsNeverPolled(s: System, before: seq<Event>, after: seq<Event>)
    requires Init(s) && Run(s, before)
    requires After(s, before).exec.phase.PlaceFailed? && Run(After(s, before), after)
    ensures var p := After(s, before).exec.phase.pid;
            var t := After(After(s, before), after);
            && p !in t.poll.tracking.tracked && p !in Finished(t.bus.orders)
            && forall reply :: !Enabled(t, PollOrder(p, reply))
  {
    Reached(s, before);
    var p := After(s, before).exec.phase.pid;
    NeverPlacedRun(After(s, before), after, p);
    NotTracked(After(After(s, before), after), p);
  }

  lemma NotTracked(s: System, p: nat)
    requires Inv(s) && p in s.db.rows && s.db.rows[p].orderId.None?
    ensures p !in s.poll.tracking.tracked && p !in Finished(s.bus.orders)
    ensures forall reply :: !Enabled(s, PollOrder(p, reply))
  {
  }

  // ─── The round slot ─────────────────────────────────────────────────────────

  /** Since the last rotation at most one placement went through, and it still holds the slot. */
  ghost predicate SlotInv(x: ExecState) {
    && !x.slot.Filled?
    && (x.phase.Claimed? || x.phase.Placed? ==> x.slot == RoundSlotState.Pending(x.phase.pid))
    && x.placements <= (if x.slot.Pending? && !x.phase.Claimed? then 1 else 0)
  }

  /** One step, under any entry policy: the slot frees without its fallback, and a claim made from
      an empty slot succeeds. */
  lemma SlotStep(s: System, e: Event)
    requires SlotInv(s.exec) && Enabled(s, e)
    ensures SlotInv(Next(s, e).exec)
    ensures e.PlaceErr? ==> s.exec.slot.Free() == Some(Next(s, e).exec.slot)
    ensures e.ClaimSlot? ==> (Next(s, e).exec.phase.Claimed? <==> s.exec.slot.Empty?)
  {
    if Owner(e).Executor? {
      ExecutorMoves(s, e);
      ExecSlotStep(s.exec, e, s.db.lastId + 1);
    } else {
      OthersKeepExecutor(s, e);
    }
  }

  lemma ExecSlotStep(x: ExecState, e: Event, id: nat)
    requires SlotInv(x) && ExecEnabled(x, e)
    ensures SlotInv(ExecNext(x, e, id))
    ensures e.PlaceErr? ==> x.slot.Free() == Some(ExecNext(x, e, id).slot)
    ensures e.ClaimSlot? ==> (ExecNext(x, e, id).phase.Claimed? <==> x.slot.Empty?)
  {
  }

  lemma {:induction false} SlotRun(s: System, events: seq<Event>)
    requires SlotInv(s.exec) && Run(s, events)
    ensures SlotInv(After(s, events).exec)
    decreases |events|
  {
    if events != [] {
      SlotStep(s, events[0]);
      SlotRun(Next(s, events[0]), events[1..]);
    }
  }

  lemma AtMostOnePlacementPerRotation(s: System, events: seq<Event>)
    requires Init(s) && Run(s, events)
    ensures var x := After(s, events).exec;
            x.placements <= 1 && !x.slot.Filled? && (x.placements == 1 ==> x.slot.Pending?)
  {
    SlotRun(s, events);
  }

  // ─── The policy the bot is started with ─────────────────────────────────────

  /** An intent is taken up only while the slot is empty. */
  ghost predicate OnePosition(s: System, e: Event) {
    e.Draft? ==> s.exec.slot.Empty?
  }

  ghost predicate RunOnePosition(s: System, events: seq<Event>)
    requires Run(s, events)
    decreases |events|
  {
    events == [] || (OnePosition(s, events[0]) && RunOnePosition(Next(s, events[0]), events[1..]))
  }

  /** From the policy to the claim nobody else touches the slot. */
  ghost predicate SlotKept(x: ExecState) {
    x.phase.Drafted? || x.phase.Inserted? ==> x.slot.Empty?
  }

  lemma SlotKeptStep(s: System, e: Event)
    requires SlotKept(s.exec) && Enabled(s, e) && OnePosition(s, e)
    ensures SlotKept(Next(s, e).exec)
  {
    if Owner(e).Executor? {
      ExecutorMoves(s, e);
      SlotKeptExec(s.exec, e, s.db.lastId + 1);
    } else {
      OthersKeepExecutor(s, e);
    }
  }

  lemma SlotKeptExec(x: ExecState, e: Event, id: nat)
    requires SlotKept(x) && ExecEnabled(x, e) && (e.Draft? ==> x.slot.Empty?)
    ensures SlotKept(ExecNext(x, e, id))
  {
  }

  lemma {:induction false} SlotKeptRun(s: System, events: seq<Event>)
    requires SlotKept(s.exec) && Run(s, events) && RunOnePosition(s, events)
    ensures SlotKept(After(s, events).exec)
    decreases |events|
  {
    if events != [] {
      SlotKeptStep(s, events[0]);
      SlotKeptRun(Next(s, events[0]), events[1..]);
    }
  }

  /** Under that policy the branch for a refused claim is never taken: in every run, a row inserted
      finds the slot still empty and claims it. */
  lemma ClaimNeverRefused(s: System, events: seq<Event>)
    requires Init(s) && Run(s, events) && RunOnePosition(s, events) && Enabled(After(s, events), ClaimSlot)
    ensures var x := After(s, events).exec;
            && x.slot.Claim(x.phase.pid) == Some(RoundSlotState.Pending(x.phase.pid))
            && Next(After(s, events), ClaimSlot).exec.phase == Claimed(x.phase.pid, x.phase.intent, x.phase.tokenId)
  {
    SlotKeptRun(s, events);
  }
}
