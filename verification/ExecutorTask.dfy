/** The executor's loop body: rotation, and the path of one intent from policy to order. */
module ExecutorTask {
  import opened Types
  import opened State
  import opened Store
  import opened Protocol
  import opened SharedWorld

  type Policy = (RoundSlotState, Intent) -> bool

  /** The policy the bot is started with. */
  const ONE_POSITION: Policy := (slot: RoundSlotState, intent: Intent) => slot.Empty?

  /** From the claim on: `placed` is the exchange's order id, `written` whether the store took the write. */
  function ClaimSteps(slot: RoundSlotState, placed: Option<string>, written: bool): seq<Event> {
    if !slot.Empty? then [ClaimSlot]
    else [ClaimSlot, match placed case Some(oid) => PlaceOk(oid) case None => PlaceErr, ExecWrite(written)]
  }

  /** The steps an intent leads to, given the ports' answers. */
  function StepsOf(admitted: bool, market: Option<Market>, slot: RoundSlotState, i: Intent,
                   inserted: bool, placed: Option<string>, written: bool): seq<Event> {
    if !admitted || market.None? || FindOutcome(market.value.outcomes, i.outcome.AsStr()).None? then []
    else [Draft(i), Insert(inserted)] + if inserted then ClaimSteps(slot, placed, written) else []
  }

  /** The position is in the store on the market's and the intent's terms, for the outcome `o`. */
  ghost predicate EnteredAs(rows: Rows, pid: nat, m: Market, o: MarketOutcome, i: Intent) {
    && pid in rows
    && rows[pid].marketSlug == m.slug && rows[pid].strike == m.strike
    && rows[pid].outcomeName == o.name && rows[pid].tokenId == o.tokenId
    && rows[pid].side == i.side && rows[pid].shares == i.shares && rows[pid].limitPrice == i.limitPrice
  }

  ghost predicate HasOutcome(m: Market, i: Intent) {
    exists k :: 0 <= k < |m.outcomes| && m.outcomes[k].name == i.outcome.AsStr()
  }

  /** Entered, and sent if at all, for the first outcome of the intent's name. */
  ghost predicate EnteredFirst(rows: Rows, pid: nat, m: Market, i: Intent, sent: Option<(Intent, string)>) {
    exists k :: FirstNamed(m.outcomes, i.outcome.AsStr(), k) && EnteredAs(rows, pid, m, m.outcomes[k], i)
                && (sent.Some? ==> sent.value == (i, m.outcomes[k].tokenId))
  }

  lemma OutcomeIff(m: Market, i: Intent)
    ensures HasOutcome(m, i) <==> FindOutcome(m.outcomes, i.outcome.AsStr()).Some?
  {
    FindsFirst(m.outcomes, i.outcome.AsStr());
  }

  lemma FoundIsFirst(rows: Rows, pid: nat, m: Market, o: MarketOutcome, i: Intent, sent: Option<(Intent, string)>)
    requires FindOutcome(m.outcomes, i.outcome.AsStr()) == Some(o) && EnteredAs(rows, pid, m, o, i)
    requires sent.Some? ==> sent.value == (i, o.tokenId)
    ensures EnteredFirst(rows, pid, m, i, sent)
  {
    FindsFirst(m.outcomes, i.outcome.AsStr());
  }

  lemma StillEntered(before: Rows, after: Rows, pid: nat, m: Market, o: MarketOutcome, i: Intent)
    requires EnteredAs(before, pid, m, o, i) && TermsKept(before, after)
    ensures EnteredAs(after, pid, m, o, i)
  {
    assert SameTerms(before[pid], after[pid]);
  }

  lemma StillQueued(before: seq<OrderUpdate>, after: seq<OrderUpdate>, u: OrderUpdate)
    requires before <= after && u in before
    ensures u in after
  {
    var k :| 0 <= k < |before| && before[k] == u;
    assert after[k] == u;
  }

  lemma TermsKeptOn(a: Rows, b: Rows, c: Rows)
    requires TermsKept(a, b) && TermsKept(b, c)
    ensures TermsKept(a, c)
  {
    forall p | p in a ensures p in c && SameTerms(a[p], c[p]) {
      assert SameTerms(a[p], b[p]) && SameTerms(b[p], c[p]);
    }
  }

  class Executor {
    const world: World
    const policy: Policy
    var slot: RoundSlotState

    ghost predicate Valid() reads this, world, world.store {
      world.Valid() && slot == world.sys.exec.slot && world.sys.exec.phase.ExecIdle?
    }

    constructor (world: World, policy: Policy)
      requires world.Valid() && world.sys.exec.slot.Empty? && world.sys.exec.phase.ExecIdle?
      ensures Valid() && this.world == world && this.policy == policy
    {
      this.world, this.policy := world, policy;
      slot := RoundSlotState.Empty;
    }

    /** Every publication resets the slot, a mere change of status included. */
    method OnMarketChanged()
      requires Valid() && world.marketUnseen
      modifies this, world
      ensures Valid() && slot.Empty? && world.sys.exec.placements == 0
      ensures Own(Task.Executor, world.trace) == old(Own(Task.Executor, world.trace)) + [Rotate]
    {
      slot := slot.Rotate();
      world.TakeMarket(slot);
    }

    /** An await of this task: no row changes its terms or its order id meanwhile. */
    method GiveWay()
      requires world.Valid()
      modifies world, world.store
      ensures world.Valid() && LeftAlone(Task.Executor, old(world.sys), world.sys)
      ensures Own(Task.Executor, world.trace) == old(Own(Task.Executor, world.trace))
      ensures world.store.lastId >= old(world.store.lastId)
      ensures TermsKept(old(world.store.rows), world.store.rows) && OrderIdsKept(old(world.store.rows), world.store.rows)
    {
      ghost var others := world.Pause(Task.Executor);
      OthersKeepRows(old(world.sys), others);
    }

    /** One intent, with the other tasks free to step wherever this one awaits. A position is entered
        exactly when the policy admits the intent, the market has an outcome of its name and the store
        takes the row; its terms are those of the first such outcome, and so is the token the exchange
        is called with. */
    method OnIntent(intent: Intent, inserted: bool, placed: Option<string>, written: bool)
      returns (sent: Option<(Intent, string)>, entered: Option<nat>)
      requires Valid()
      modifies this, world, world.store
      ensures Valid()
      ensures entered.Some? <==>
                policy(old(slot), intent) && old(world.market).Some? && HasOutcome(old(world.market).value, intent) && inserted
      ensures sent.Some? <==> entered.Some? && old(slot).Empty?
      ensures entered.Some? ==>
                && entered.value !in old(world.store.rows)
                && EnteredFirst(world.store.rows, entered.value, old(world.market).value, intent, sent)
      ensures sent.Some? && placed.Some? ==> Announced(entered.value, placed.value, written)
      ensures slot == if sent.None? then old(slot)
                      else if placed.Some? then RoundSlotState.Pending(entered.value) else RoundSlotState.Empty
      ensures Own(Task.Executor, world.trace) == old(Own(Task.Executor, world.trace)) +
                StepsOf(policy(old(slot), intent), old(world.market), old(slot), intent, inserted, placed, written)
      ensures policy == ONE_POSITION ==>
                && (entered.Some? <==> old(slot).Empty? && old(world.market).Some? && HasOutcome(old(world.market).value, intent) && inserted)
                && (!old(slot).Empty? ==> Own(Task.Executor, world.trace) == old(Own(Task.Executor, world.trace)))
    {
      sent, entered := None, None;
      if !policy(slot, intent) {
        return;
      }
      var market := world.market;
      if market.None? {
        return;
      }
      OutcomeIff(market.value, intent);
      var mo := Find(market.value.outcomes, intent.outcome.AsStr());
      if mo.None? {
        return;
      }
      sent, entered := TakeUp(market.value, mo.value, intent, inserted, placed, written);
    }

    method TakeUp(m: Market, mo: MarketOutcome, intent: Intent, inserted: bool, placed: Option<string>, written: bool)
      returns (sent: Option<(Intent, string)>, entered: Option<nat>)
      requires Valid() && world.market == Some(m) && FindOutcome(m.outcomes, intent.outcome.AsStr()) == Some(mo)
      modifies this, world, world.store
      ensures Valid()
      ensures (entered.Some? <==> inserted) && (sent.Some? <==> inserted && old(slot).Empty?)
      ensures inserted ==> entered.value !in old(world.store.rows)
                           && EnteredFirst(world.store.rows, entered.value, m, intent, sent)
      ensures sent.Some? && placed.Some? ==> Announced(entered.value, placed.value, written)
      ensures slot == if sent.None? then old(slot)
                      else if placed.Some? then RoundSlotState.Pending(entered.value) else RoundSlotState.Empty
      ensures Own(Task.Executor, world.trace) == old(Own(Task.Executor, world.trace)) +
                ([Draft(intent), Insert(inserted)] + if inserted then ClaimSteps(old(slot), placed, written) else [])
    {
      Take(m, mo, intent);
      sent, entered := Enter(m, mo, intent, inserted, placed, written);
      if inserted {
        FoundIsFirst(world.store.rows, entered.value, m, mo, intent, sent);
      }
    }

    ghost method Take(m: Market, mo: MarketOutcome, intent: Intent)
      requires Valid() && world.market == Some(m) && FindOutcome(m.outcomes, intent.outcome.AsStr()) == Some(mo)
      modifies world`sys, world`trace
      ensures world.Valid() && slot == world.sys.exec.slot && world.sys.exec.phase == Drafted(m, mo, intent)
      ensures Own(Task.Executor, world.trace) == old(Own(Task.Executor, world.trace)) + [Draft(intent)]
    {
      world.Silently(Draft(intent));
    }

    /** The row goes in first, so that the slot can name it. */
    method Enter(m: Market, mo: MarketOutcome, intent: Intent, inserted: bool, placed: Option<string>, written: bool)
      returns (sent: Option<(Intent, string)>, entered: Option<nat>)
      requires world.Valid() && slot == world.sys.exec.slot && world.sys.exec.phase == Drafted(m, mo, intent)
      modifies this, world, world.store
      ensures Valid()
      ensures Own(Task.Executor, world.trace) == old(Own(Task.Executor, world.trace)) +
                [Insert(inserted)] + if inserted then ClaimSteps(old(slot), placed, written) else []
      ensures sent == if inserted && old(slot).Empty? then Some((intent, mo.tokenId)) else None
      ensures entered.Some? <==> inserted
      ensures slot == if sent.None? then old(slot)
                      else if placed.Some? then RoundSlotState.Pending(entered.value) else RoundSlotState.Empty
      ensures inserted ==> entered.value !in old(world.store.rows) && EnteredAs(world.store.rows, entered.value, m, mo, intent)
      ensures sent.Some? && placed.Some? ==> Announced(entered.value, placed.value, written)
    {
      GiveWay();
      if !inserted {
        world.Silently(Insert(false));
        return None, None;
      }
      var pid := InsertRow(m, mo, intent);
      ghost var rows := world.store.rows;
      GiveWay();
      StillEntered(rows, world.store.rows, pid, m, mo, intent);
      rows := world.store.rows;
      sent := Claim(pid, intent, mo.tokenId, placed, written);
      StillEntered(rows, world.store.rows, pid, m, mo, intent);
      entered := Some(pid);
    }

    method InsertRow(m: Market, mo: MarketOutcome, intent: Intent) returns (pid: nat)
      requires world.Valid() && slot == world.sys.exec.slot && world.sys.exec.phase == Drafted(m, mo, intent)
      modifies world`sys, world`trace, world.store
      ensures world.Valid() && slot == world.sys.exec.slot && world.sys.exec.phase == Inserted(pid, intent, mo.tokenId)
      ensures Own(Task.Executor, world.trace) == old(Own(Task.Executor, world.trace)) + [Insert(true)]
      ensures pid == old(world.store.lastId) + 1 && EnteredAs(world.store.rows, pid, m, mo, intent)
    {
      var record := Row(m.slug, intent.side, mo.name, mo.tokenId, None, intent.shares,
                        intent.limitPrice, None, m.strike, Submitted, None);
      pid := world.InsertPosition(record);
    }

    /** The placement is in the queue, and in the store if it took the write. */
    ghost predicate Announced(pid: nat, oid: string, written: bool) reads world, world.store {
      && OrderSubmitted(oid, pid) in world.orders
      && (written ==> pid in world.store.rows && world.store.rows[pid].orderId == Some(oid))
    }

    method Claim(pid: nat, intent: Intent, tokenId: string, placed: Option<string>, written: bool)
      returns (sent: Option<(Intent, string)>)
      requires world.Valid() && slot == world.sys.exec.slot && world.sys.exec.phase == Inserted(pid, intent, tokenId)
      requires pid in world.store.rows
      modifies this, world, world.store
      ensures Valid() && sent == if old(slot).Empty? then Some((intent, tokenId)) else None
      ensures TermsKept(old(world.store.rows), world.store.rows)
      ensures sent.Some? && placed.Some? ==> Announced(pid, placed.value, written)
      ensures Own(Task.Executor, world.trace) ==
                old(Own(Task.Executor, world.trace)) + ClaimSteps(old(slot), placed, written)
      ensures slot == if !old(slot).Empty? then old(slot)
                      else if placed.Some? then RoundSlotState.Pending(pid) else RoundSlotState.Empty
    {
      match slot.Claim(pid) {
        case None =>
          world.Silently(ClaimSlot);
          sent := None;
        case Some(claimed) =>
          slot := claimed;
          world.SendSlot(slot, ClaimSlot);
          sent := Place(pid, intent, tokenId, placed, written);
      }
    }

    /** `outcomes.iter().find(…)`. */
    method Find(outcomes: seq<MarketOutcome>, name: string) returns (found: Option<MarketOutcome>)
      ensures found == FindOutcome(outcomes, name)
    {
      var i := 0;
      while i < |outcomes| && outcomes[i].name != name
        invariant 0 <= i <= |outcomes|
        invariant FindOutcome(outcomes, name) == FindOutcome(outcomes[i..], name)
      {
        assert outcomes[i..][1..] == outcomes[i + 1..];
        i := i + 1;
      }
      found := if i < |outcomes| then Some(outcomes[i]) else None;
    }

    /** The order goes to the exchange; a refusal frees the slot before the row is marked. */
    method Place(pid: nat, intent: Intent, tokenId: string, placed: Option<string>, written: bool)
      returns (sent: Option<(Intent, string)>)
      requires world.Valid() && slot == world.sys.exec.slot && pid in world.store.rows
      requires world.sys.exec.phase == Claimed(pid, intent, tokenId) && slot == RoundSlotState.Pending(pid)
      modifies this, world, world.store
      ensures Valid() && sent == Some((intent, tokenId))
      ensures slot == if placed.Some? then RoundSlotState.Pending(pid) else RoundSlotState.Empty
      ensures TermsKept(old(world.store.rows), world.store.rows)
      ensures placed.Some? ==> Announced(pid, placed.value, written)
      ensures Own(Task.Executor, world.trace) == old(Own(Task.Executor, world.trace)) +
                [match placed case Some(oid) => PlaceOk(oid) case None => PlaceErr] + [ExecWrite(written)]
    {
      sent := Some((intent, tokenId));
      GiveWay();
      ghost var rows := world.store.rows;
      match placed {
        case Some(oid) => RecordPlaced(pid, oid, written);
        case None => RecordRefused(pid, written);
      }
      TermsKeptOn(old(world.store.rows), rows, world.store.rows);
      rows := world.store.rows;
      GiveWay();
      TermsKeptOn(old(world.store.rows), rows, world.store.rows);
    }

    method RecordPlaced(pid: nat, oid: string, written: bool)
      requires world.Valid() && slot == world.sys.exec.slot && pid in world.store.rows
      requires world.sys.exec.phase.Claimed? && world.sys.exec.phase.pid == pid
      modifies world, world.store
      ensures Valid() && Announced(pid, oid, written)
      ensures TermsKept(old(world.store.rows), world.store.rows)
      ensures Own(Task.Executor, world.trace) == old(Own(Task.Executor, world.trace)) + [PlaceOk(oid)] + [ExecWrite(written)]
    {
      world.SendOrder(OrderSubmitted(oid, pid), PlaceOk(oid));
      ghost var sent, rows := world.orders, world.store.rows;
      GiveWay();
      StillQueued(sent, world.orders, OrderSubmitted(oid, pid));
      ghost var mid := world.store.rows;
      StoreUpdate(pid, SetSubmitted(oid), written);
      TermsKeptOn(rows, mid, world.store.rows);
    }

    method RecordRefused(pid: nat, written: bool)
      requires world.Valid() && slot == world.sys.exec.slot && slot == RoundSlotState.Pending(pid)
      requires world.sys.exec.phase.Claimed? && world.sys.exec.phase.pid == pid && pid in world.store.rows
      modifies this, world, world.store
      ensures Valid() && slot.Empty?
      ensures TermsKept(old(world.store.rows), world.store.rows)
      ensures written ==> world.store.rows[pid].status == Rejected
      ensures Own(Task.Executor, world.trace) == old(Own(Task.Executor, world.trace)) + [PlaceErr] + [ExecWrite(written)]
    {
      slot := FreeOrEmpty(slot);
      world.SendSlot(slot, PlaceErr);
      ghost var rows := world.store.rows;
      GiveWay();
      ghost var mid := world.store.rows;
      StoreUpdate(pid, SetRejected, written);
      TermsKeptOn(rows, mid, world.store.rows);
    }

    method StoreUpdate(pid: nat, u: PositionUpdate, written: bool)
      requires world.Valid() && slot == world.sys.exec.slot && pid in world.store.rows
      requires var p := world.sys.exec.phase;
               || (p.Placed? && p.pid == pid && u == SetSubmitted(p.orderId))
               || (p.PlaceFailed? && p.pid == pid && u == SetRejected)
      modifies world`sys, world`trace, world.store`rows
      ensures Valid()
      ensures TermsKept(old(world.store.rows), world.store.rows)
      ensures written && u.SetSubmitted? ==> world.store.rows[pid].orderId == Some(u.orderId)
      ensures written && u.SetRejected? ==> world.store.rows[pid].status == Rejected
      ensures Own(Task.Executor, world.trace) == old(Own(Task.Executor, world.trace)) + [ExecWrite(written)]
    {
      WriteKeepsTerms(world.store.rows, pid, u);
      world.UpdatePosition(pid, u, written, ExecWrite(written));
    }
  }
}
