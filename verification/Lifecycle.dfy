/** Every status write against the declared position lifecycle, although no task consults it. */
module Lifecycle {
  import opened Types
  import opened State
  import opened Store
  import opened Bankroll
  import opened OrderPolling
  import opened Persistence
  import opened Settling
  import opened Protocol
  import opened OrderSafety
  import opened SettleSafety

  /** Each stored status stays put or follows an edge. */
  ghost predicate LegalStep(s: System, e: Event)
    requires Enabled(s, e)
  {
    forall p :: p in s.db.rows ==>
      var rows := Next(s, e).db.rows;
      p in rows && (rows[p].status == s.db.rows[p].status || PositionEdge(s.db.rows[p].status, rows[p].status))
  }

  ghost predicate LegalRun(s: System, events: seq<Event>)
    requires Run(s, events)
    decreases |events|
  {
    events == [] || (LegalStep(s, events[0]) && LegalRun(Next(s, events[0]), events[1..]))
  }

  /** A redemption is stored as confirmed only after the position's settlement was stored. */
  predicate Ordered(s: System, e: Event) {
    e.Confirm? && e.ok ==> e.pid in s.persist.persisted
  }

  ghost predicate OrderedRun(s: System, events: seq<Event>)
    requires Run(s, events)
    decreases |events|
  {
    events == [] || (Ordered(s, events[0]) && OrderedRun(Next(s, events[0]), events[1..]))
  }

  /** While runs stay ordered, a Redeemed position had its settlement stored. */
  ghost predicate RedeemedStored(rows: Rows, log: seq<SettledEvent>, persisted: set<nat>) {
    forall e :: e in log && e.pid in rows && rows[e.pid].status == PositionStatus.Redeemed ==> e.pid in persisted
  }

  // ─── One step ───────────────────────────────────────────────────────────────

  predicate LegalWrite(rows: Rows, p: nat, w: PositionUpdate) {
    p in rows ==> Apply(rows[p], w).status == rows[p].status || PositionEdge(rows[p].status, Apply(rows[p], w).status)
  }

  lemma LegalByUpdate(rows: Rows, p: nat, w: PositionUpdate)
    ensures (forall q :: q in rows ==>
               var after := UpdateRows(rows, p, w);
               q in after && (after[q].status == rows[q].status || PositionEdge(rows[q].status, after[q].status)))
            <==> LegalWrite(rows, p, w)
  {
    if p in rows {
      assert UpdateRows(rows, p, w)[p] == Apply(rows[p], w);
    }
  }

  /** A step is legal when its one write is. */
  lemma LegalByWrite(s: System, e: Event)
    requires DbOk(s.db) && Enabled(s, e)
    ensures LegalStep(s, e) <==> (match WriteOf(s, e) case Some(w) => LegalWrite(s.db.rows, w.0, w.1) case None => true)
  {
    StoreStep(s, e);
    match WriteOf(s, e)
    case Some(w) => LegalByUpdate(s.db.rows, w.0, w.1);
    case None =>
  }

  lemma OrderWriteLegal(s: System, w: PositionUpdate)
    requires Inv(s) && s.persist.orders < |s.bus.orders| && OrderWrite(s.bus.orders[s.persist.orders]) == Some(w)
    ensures LegalWrite(s.db.rows, s.bus.orders[s.persist.orders].pid, w)
  {
    TerminalWrite(s, w);
  }

  lemma SettlementWriteLegal(s: System)
    requires SettleInv(s) && RedeemedStored(s.db.rows, s.bus.settled, s.persist.persisted)
    requires s.persist.settled < |s.bus.settled|
    ensures var ev := s.bus.settled[s.persist.settled];
            SettledWrite(ev).Some? && LegalWrite(s.db.rows, ev.pid, SettledWrite(ev).value)
  {
    StoringSettlement(s);
  }

  /** Storing a confirmation is legal exactly when the settlement is stored: otherwise it would jump
      from Settling straight to Redeemed. */
  lemma ConfirmLegalIff(s: System, pid: nat)
    requires SettleInv(s) && RedeemedStored(s.db.rows, s.bus.settled, s.persist.persisted)
    requires pid in s.redeem.tracked
    ensures LegalWrite(s.db.rows, pid, SetRedeemed) <==> pid in s.persist.persisted
    ensures pid in s.db.rows && (pid !in s.persist.persisted ==> s.db.rows[pid].status == PositionStatus.Settling)
  {
    InPending(s, pid);
    WonIsWon(s, pid);
    var ev :| ev in s.bus.settled && ev.pid == pid;
    assert AnnouncedStatus(true, pid in s.persist.persisted, s.db.rows[pid].status);
  }

  lemma MarkLegal(s: System, pid: nat)
    requires SettleInv(s) && s.settle.phase.SettleLoop? && pid in s.settle.phase.todo
    ensures LegalWrite(s.db.rows, pid, SetSettling)
  {
  }

  /** With the invariants, exactly the ordered steps are legal. */
  lemma StepLegalIffOrdered(s: System, e: Event)
    requires Inv(s) && SettleInv(s) && RedeemedStored(s.db.rows, s.bus.settled, s.persist.persisted)
    requires Enabled(s, e)
    ensures LegalStep(s, e) <==> Ordered(s, e)
  {
    LegalByWrite(s, e);
    match WriteOf(s, e)
    case Some(w) => WriteLegalIffOrdered(s, e, w.0, w.1);
    case None =>
  }

  lemma WriteLegalIffOrdered(s: System, e: Event, p: nat, w: PositionUpdate)
    requires Inv(s) && SettleInv(s) && RedeemedStored(s.db.rows, s.bus.settled, s.persist.persisted)
    requires Enabled(s, e) && WriteOf(s, e) == Some((p, w))
    ensures LegalWrite(s.db.rows, p, w) <==> Ordered(s, e)
  {
    if e.ExecWrite? {
      RowInHand(s);
    } else if e.PersistOrder? {
      OrderWriteLegal(s, w);
    } else if e.PersistSettlement? {
      SettlementWriteLegal(s);
    } else if e.Mark? {
      MarkLegal(s, p);
    } else {
      ConfirmLegalIff(s, p);
    }
  }

  // ─── Redeemed means stored ──────────────────────────────────────────────────

  /** A step's write, seen from an announced position. */
  lemma RedeemedStoredWrite(s: System, p: nat, w: PositionUpdate, persisted: set<nat>)
    requires RedeemedStored(s.db.rows, s.bus.settled, s.persist.persisted)
    requires s.persist.persisted <= persisted && (w.SetRedeemed? ==> p in persisted)
    ensures RedeemedStored(UpdateRows(s.db.rows, p, w), s.bus.settled, persisted)
  {
    var rows := UpdateRows(s.db.rows, p, w);
    assert forall q :: q in rows && q != p ==> q in s.db.rows && rows[q] == s.db.rows[q];
  }

  lemma RedeemedStoredFrame(s: System, e: Event)
    requires DbOk(s.db) && MarketsOk(s.db.rows, s.settle, s.bus.settled) && Enabled(s, e) && Ordered(s, e)
    requires RedeemedStored(s.db.rows, s.bus.settled, s.persist.persisted)
    ensures RedeemedStored(Next(s, e).db.rows, s.bus.settled, Next(s, e).persist.persisted)
  {
    StoreStep(s, e);
    match WriteOf(s, e)
    case Some(w) => RedeemedStoredWrite(s, w.0, w.1, Next(s, e).persist.persisted);
    case None => assert forall ev :: ev in s.bus.settled ==> ev.pid in SettledIds(s.bus.settled);
  }

  lemma RedeemedStoredKeeps(s: System, e: Event)
    requires Inv(s) && SettleInv(s) && Enabled(s, e) && Ordered(s, e)
    requires RedeemedStored(s.db.rows, s.bus.settled, s.persist.persisted)
    ensures var t := Next(s, e); RedeemedStored(t.db.rows, t.bus.settled, t.persist.persisted)
  {
    RedeemedStoredFrame(s, e);
    if e.AnnounceLost? || e.AnnounceWon? {
      AnnouncingIsSettling(s, e);
    } else {
      assert Next(s, e).bus.settled == s.bus.settled;
    }
  }

  lemma AnnouncingIsSettling(s: System, e: Event)
    requires SettlePhaseOk(s.db.rows, s.settle.phase, s.bus) && Enabled(s, e) && (e.AnnounceLost? || e.AnnounceWon?)
    requires RedeemedStored(s.db.rows, s.bus.settled, s.persist.persisted)
    ensures var t := Next(s, e); RedeemedStored(t.db.rows, t.bus.settled, t.persist.persisted)
  {
    assert s.db.rows[s.settle.phase.pid].status == PositionStatus.Settling;
  }

  // ─── Whole runs ─────────────────────────────────────────────────────────────

  lemma {:induction false} RunLegalIffOrdered(s: System, events: seq<Event>)
    requires Inv(s) && SettleInv(s) && RedeemedStored(s.db.rows, s.bus.settled, s.persist.persisted)
    requires Run(s, events) && RunPicksNew(s, events)
    ensures LegalRun(s, events) <==> OrderedRun(s, events)
    decreases |events|
  {
    if events != [] {
      StepLegalIffOrdered(s, events[0]);
      if Ordered(s, events[0]) {
        StepKeeps(s, events[0]);
        SettleStepKeeps(s, events[0]);
        RedeemedStoredKeeps(s, events[0]);
        RunLegalIffOrdered(Next(s, events[0]), events[1..]);
      }
    }
  }

  /** While no delivery picks an announced position, a run of all the tasks in any interleaving follows the
      lifecycle exactly when every stored confirmation comes after the stored settlement. */
  lemma LifecycleIffOrdered(s: System, events: seq<Event>)
    requires Init(s) && Run(s, events) && RunPicksNew(s, events)
    ensures LegalRun(s, events) <==> OrderedRun(s, events)
  {
    InitInv(s);
    InitSettleInv(s);
    RunLegalIffOrdered(s, events);
  }

  // ─── What the two disciplines are for ───────────────────────────────────────

  /** Each position is settled at most once and its redemption confirmed at most once. */
  lemma SettledAndConfirmedOnce(s: System, events: seq<Event>)
    requires Init(s) && Run(s, events) && RunPicksNew(s, events)
    ensures SettledOnce(After(s, events).bus.settled) && Distinct(After(s, events).bus.redeemed)
    ensures forall r :: r in After(s, events).bus.redeemed ==> Owes(After(s, events).bus.settled, r)
  {
    SettleReached(s, events);
    var t := After(s, events);
    forall r | r in t.bus.redeemed ensures Owes(t.bus.settled, r) {
      assert r in t.bus.pending;
    }
  }

  /** Announced, not stored yet and not redeemed: settlement would find the row Settling. */
  ghost predicate Unfinished(t: System, v: SettledEvent, slug: string) {
    && v in t.bus.settled && v.pid in t.db.rows && t.db.rows[v.pid].marketSlug == slug
    && v.pid !in t.persist.persisted && t.db.rows[v.pid].status != PositionStatus.Redeemed
  }

  /** Delivering a resolution now can end in a position announced twice, with no other such delivery. */
  ghost predicate Resettles(t: System, slug: string, winner: string, rest: seq<Event>) {
    var e := BeginSettle(slug, winner);
    && Enabled(t, e) && Run(Next(t, e), rest) && RunPicksNew(Next(t, e), rest)
    && !SettledOnce(After(Next(t, e), rest).bus.settled)
  }

  lemma UnfinishedIsPicked(t: System, v: SettledEvent, slug: string)
    requires SettleInv(t) && v in t.bus.settled
    ensures v.pid in t.db.rows && (Unfinished(t, v, slug) <==> v.pid in ToSettle(t.db.rows, slug))
  {
    assert AnnouncedStatus(v.status == PositionStatus.Won, v.pid in t.persist.persisted, t.db.rows[v.pid].status);
  }

  /** The announcement of a marked position. */
  function Announcement(p: SettlePhase): Event
    requires p.Marked?
  {
    if Wins(p.row, p.winner) then AnnounceWon(Receipt(None, 0.0)) else AnnounceLost
  }

  lemma MarkThenAnnounce(s: System, pid: nat) returns (ev: SettledEvent)
    requires s.settle.phase.SettleLoop? && pid in s.settle.phase.todo
    ensures var t := Next(s, Mark(pid, true));
            && t.settle.phase.Marked? && Enabled(t, Announcement(t.settle.phase))
            && ev.pid == pid && Next(t, Announcement(t.settle.phase)).bus.settled == s.bus.settled + [ev]
  {
    var p := Next(s, Mark(pid, true)).settle.phase;
    ev := if Wins(p.row, p.winner) then WonEvent(pid, p.row, 0.0) else LostEvent(pid, p.row);
  }

  lemma AnnouncedTwice(log: seq<SettledEvent>, v: SettledEvent, again: SettledEvent)
    requires v in log && again.pid == v.pid
    ensures !SettledOnce(log + [again])
  {
    var i :| 0 <= i < |log| && log[i] == v;
    assert (log + [again])[i].pid == (log + [again])[|log|].pid;
  }

  lemma PickedSettlesAgain(t: System, slug: string, winner: string, v: SettledEvent)
    requires t.settle.phase.SettleIdle? && v in t.bus.settled && v.pid in ToSettle(t.db.rows, slug)
    ensures exists rest :: Resettles(t, slug, winner, rest)
  {
    var s1 := Next(t, BeginSettle(slug, winner));
    var e2 := Mark(v.pid, true);
    var ev := MarkThenAnnounce(s1, v.pid);
    var s2 := Next(s1, e2);
    var e3 := Announcement(s2.settle.phase);
    AnnouncedTwice(s1.bus.settled, v, ev);
    var last := [e3] + [];
    RunCons(s2, e3, []);
    RunCons(s1, e2, last);
    TwoQuietSteps(s1, e2, e3);
    assert Resettles(t, slug, winner, [e2] + last);
  }

  lemma TwoQuietSteps(s: System, a: Event, b: Event)
    requires Run(s, [a] + ([b] + [])) && !a.BeginSettle? && !b.BeginSettle?
    ensures RunPicksNew(s, [a] + ([b] + []))
  {
    assert ([a] + ([b] + []))[1..] == [b] + [] && ([b] + [])[1..] == [];
  }

  /** Delivering a market's resolution again can settle a position a second time exactly when some
      announced position of that market has its settlement not stored yet and is not Redeemed. */
  lemma SettledAgainIff(s: System, events: seq<Event>, slug: string, winner: string)
    requires Init(s) && Run(s, events) && RunPicksNew(s, events)
    requires After(s, events).settle.phase.SettleIdle?
    ensures (exists rest :: Resettles(After(s, events), slug, winner, rest))
            <==> (exists v :: Unfinished(After(s, events), v, slug))
  {
    var t, e := After(s, events), BeginSettle(slug, winner);
    SettleReached(s, events);
    if v :| Unfinished(t, v, slug) {
      UnfinishedIsPicked(t, v, slug);
      PickedSettlesAgain(t, slug, winner, v);
    } else {
      forall v | v in t.bus.settled ensures v.pid !in ToSettle(t.db.rows, slug) {
        UnfinishedIsPicked(t, v, slug);
      }
      SettleStepKeeps(t, e);
      StepKeeps(t, e);
      forall rest ensures !Resettles(t, slug, winner, rest) {
        if Run(Next(t, e), rest) && RunPicksNew(Next(t, e), rest) {
          SettleRunKeeps(Next(t, e), rest);
        }
      }
    }
  }

  // ─── The win tally ──────────────────────────────────────────────────────────

  ghost function Winners(log: seq<SettledEvent>): set<nat> {
    set e | e in log && e.status == PositionStatus.Won :: e.pid
  }

  /** At every moment the store counts only positions that were settled, or were resolved before. */
  lemma TallyNeverOvercounts(s: System, events: seq<Event>)
    requires Init(s) && Run(s, events) && RunPicksNew(s, events)
    ensures var t := After(s, events);
            && WinIds(t.db.rows) <= WinIds(s.db.start) + Winners(t.bus.settled)
            && ResolvedIds(t.db.rows) <= ResolvedIds(s.db.start) + SettledIds(t.bus.settled)
            && |WinIds(t.db.rows)| <= |ResolvedIds(t.db.rows)|
  {
    SettleReached(s, events);
    StartUnchanged(s, events);
    CountedWereAnnounced(After(s, events));
    WinsWithinResolved(After(s, events).db.rows);
  }

  lemma CountedWereAnnounced(t: System)
    requires SettleInv(t)
    ensures WinIds(t.db.rows) <= WinIds(t.db.start) + Winners(t.bus.settled)
    ensures ResolvedIds(t.db.rows) <= ResolvedIds(t.db.start) + SettledIds(t.bus.settled)
  {
    forall p | p in WinIds(t.db.rows) ensures p in WinIds(t.db.start) + Winners(t.bus.settled) {
      if p in SettledIds(t.bus.settled) {
        var e :| e in t.bus.settled && e.pid == p;
        assert AnnouncedStatus(e.status == PositionStatus.Won, p in t.persist.persisted, t.db.rows[p].status);
      }
    }
  }

  /** Once every settlement is stored, what the store counts is what was settled, on top of what the
      database started with; when the Redeemed writes landed does not matter. */
  lemma TallySets(s: System, events: seq<Event>)
    requires Init(s) && Run(s, events) && RunPicksNew(s, events)
    requires After(s, events).persist.persisted == SettledIds(After(s, events).bus.settled)
    ensures var t := After(s, events);
            && WinIds(t.db.rows) == WinIds(s.db.start) + Winners(t.bus.settled)
            && ResolvedIds(t.db.rows) == ResolvedIds(s.db.start) + SettledIds(t.bus.settled)
            && ResolvedIds(s.db.start) !! SettledIds(t.bus.settled)
  {
    var t := After(s, events);
    TallyNeverOvercounts(s, events);
    TallyNeverUndercounts(s, events);
    Both(WinIds(t.db.rows), WinIds(s.db.start) + Winners(t.bus.settled));
    Both(ResolvedIds(t.db.rows), ResolvedIds(s.db.start) + SettledIds(t.bus.settled));
  }

  lemma Both(a: set<nat>, b: set<nat>)
    requires a <= b && b <= a
    ensures a == b
  {
  }

  lemma TallyNeverUndercounts(s: System, events: seq<Event>)
    requires Init(s) && Run(s, events) && RunPicksNew(s, events)
    requires After(s, events).persist.persisted == SettledIds(After(s, events).bus.settled)
    ensures var t := After(s, events);
            && WinIds(s.db.start) + Winners(t.bus.settled) <= WinIds(t.db.rows)
            && ResolvedIds(s.db.start) + SettledIds(t.bus.settled) <= ResolvedIds(t.db.rows)
            && ResolvedIds(s.db.start) !! SettledIds(t.bus.settled)
  {
    SettleReached(s, events);
    StartUnchanged(s, events);
    StoredAreCounted(After(s, events));
  }

  lemma StoredAreCounted(t: System)
    requires DbOk(t.db) && SettleInv(t) && t.persist.persisted == SettledIds(t.bus.settled)
    ensures WinIds(t.db.start) + Winners(t.bus.settled) <= WinIds(t.db.rows)
    ensures ResolvedIds(t.db.start) + SettledIds(t.bus.settled) <= ResolvedIds(t.db.rows)
    ensures ResolvedIds(t.db.start) !! SettledIds(t.bus.settled)
  {
    forall e | e in t.bus.settled
      ensures e.pid in ResolvedIds(t.db.rows) && (e.status == PositionStatus.Won ==> e.pid in WinIds(t.db.rows))
    {
      assert e.pid in SettledIds(t.bus.settled);
      assert AnnouncedStatus(e.status == PositionStatus.Won, true, t.db.rows[e.pid].status);
    }
    forall p | p in ResolvedIds(t.db.start)
      ensures p in ResolvedIds(t.db.rows) && (p in WinIds(t.db.start) ==> p in WinIds(t.db.rows))
    {
      assert p !in SettledIds(t.bus.settled);
      assert p in t.db.rows && t.db.rows[p].status == t.db.start[p].status;
    }
    forall p | p in WinIds(t.db.start) ensures p in WinIds(t.db.rows) {
      assert p in ResolvedIds(t.db.start);
    }
  }

  /** The reported tally is (winners settled, all settled) on top of the starting counts. */
  lemma TallyIsRaceProof(s: System, events: seq<Event>)
    requires Init(s) && Run(s, events) && RunPicksNew(s, events)
    requires After(s, events).persist.persisted == SettledIds(After(s, events).bus.settled)
    ensures var t := After(s, events);
            && |WinIds(t.db.rows)| == |WinIds(s.db.start)| + |Winners(t.bus.settled)|
            && |ResolvedIds(t.db.rows)| == |ResolvedIds(s.db.start)| + |t.bus.settled|
  {
    TallySets(s, events);
    SettleReached(s, events);
    var t := After(s, events);
    forall p | p in Winners(t.bus.settled) ensures p in SettledIds(t.bus.settled) {
    }
    assert WinIds(s.db.start) <= ResolvedIds(s.db.start);
    assert WinIds(s.db.start) !! Winners(t.bus.settled);
    DistinctCount(t.bus.settled);
  }

  lemma {:induction false} DistinctCount(log: seq<SettledEvent>)
    requires SettledOnce(log)
    ensures |SettledIds(log)| == |log|
  {
    if log != [] {
      var n := |log| - 1;
      DistinctCount(log[..n]);
      assert log == log[..n] + [log[n]];
      SettledSnoc(log[..n], log[n]);
      SettledAhead(log, n);
    }
  }

  lemma {:induction false} StartUnchanged(s: System, events: seq<Event>)
    requires Run(s, events)
    ensures After(s, events).db.start == s.db.start
    decreases |events|
  {
    if events != [] {
      StoreStep(s, events[0]);
      StartUnchanged(Next(s, events[0]), events[1..]);
    }
  }
}
