/** The position store: the SQL table, and the in-memory vector that stands in for it. */
module Store {
  import opened Types

  type Rows = map<nat, Row>

  // ─── What an update means ───────────────────────────────────────────────────

  /** The UPDATE statement issued for `u`. */
  function Apply(row: Row, u: PositionUpdate): Row {
    match u
    case SetSubmitted(oid) => row.(orderId := Some(oid), status := Submitted)
    case SetFilled(avg, _) => row.(avgPrice := Some(avg), status := Filled)
    case SetRejected => row.(status := Rejected)
    case SetCancelled => row.(status := Cancelled)
    case SetSettling => row.(status := Settling)
    case SetWon(pnl) => row.(status := Won, realizedPnl := Some(pnl))
    case SetLost(pnl) => row.(status := Lost, realizedPnl := Some(pnl))
    case SetRedeemed => row.(status := Redeemed)
  }

  /** The vector store leaves the status alone when it records an order id. */
  function MockApply(row: Row, u: PositionUpdate): Row {
    match u
    case SetSubmitted(oid) => row.(orderId := Some(oid))
    case _ => Apply(row, u)
  }

  /** An UPDATE whose id matches no row changes nothing. */
  function UpdateRows(rows: Rows, id: nat, u: PositionUpdate): Rows {
    if id in rows then rows[id := Apply(rows[id], u)] else rows
  }

  // ─── Queries ────────────────────────────────────────────────────────────────

  predicate SqlOpen(row: Row) {
    row.status !in {Won, Lost, Rejected, Cancelled}
  }

  predicate CountsAsWin(row: Row) {
    row.status == Won || row.status == Redeemed
  }

  predicate CountsAsResolved(row: Row) {
    CountsAsWin(row) || row.status == Lost
  }

  function WinIds(rows: Rows): set<nat> {
    set id | id in rows && CountsAsWin(rows[id])
  }

  function ResolvedIds(rows: Rows): set<nat> {
    set id | id in rows && CountsAsResolved(rows[id])
  }

  lemma CountedStatuses(rows: Rows)
    ensures WinIds(rows) == set id | id in rows && (rows[id].status.Won? || rows[id].status.Redeemed?)
    ensures ResolvedIds(rows) == set id | id in rows && (rows[id].status.Won? || rows[id].status.Redeemed? || rows[id].status.Lost?)
  {
  }

  lemma WinsWithinResolved(rows: Rows)
    ensures WinIds(rows) <= ResolvedIds(rows)
    ensures |WinIds(rows)| <= |ResolvedIds(rows)|
  {
    SubsetSize(WinIds(rows), ResolvedIds(rows));
  }

  lemma {:induction false} SubsetSize(a: set<nat>, b: set<nat>)
    requires a <= b
    ensures |a| <= |b|
    decreases a
  {
    if a != {} {
      var x :| x in a;
      SubsetSize(a - {x}, b - {x});
    }
  }

  lemma CountOneMore(rows: Rows, id: nat, row: Row)
    requires id !in rows
    ensures |WinIds(rows[id := row])| == |WinIds(rows)| + (if CountsAsWin(row) then 1 else 0)
    ensures |ResolvedIds(rows[id := row])| == |ResolvedIds(rows)| + (if CountsAsResolved(row) then 1 else 0)
  {
    OneMoreWin(rows, id, row);
    OneMoreResolved(rows, id, row);
  }

  lemma OneMoreWin(rows: Rows, id: nat, row: Row)
    requires id !in rows
    ensures |WinIds(rows[id := row])| == |WinIds(rows)| + (if CountsAsWin(row) then 1 else 0)
  {
    var next := rows[id := row];
    if CountsAsWin(row) {
      assert WinIds(next) == WinIds(rows) + {id};
    } else {
      assert WinIds(next) == WinIds(rows);
    }
  }

  lemma OneMoreResolved(rows: Rows, id: nat, row: Row)
    requires id !in rows
    ensures |ResolvedIds(rows[id := row])| == |ResolvedIds(rows)| + (if CountsAsResolved(row) then 1 else 0)
  {
    var next := rows[id := row];
    if CountsAsResolved(row) {
      assert ResolvedIds(next) == ResolvedIds(rows) + {id};
    } else {
      assert ResolvedIds(next) == ResolvedIds(rows);
    }
  }

  /** What a write leaves, column by column; `marks` says whether recording an order id sets the status too. */
  ghost predicate Written(before: Row, after: Row, u: PositionUpdate, marks: bool) {
    && after.(orderId := before.orderId, avgPrice := before.avgPrice, status := before.status,
              realizedPnl := before.realizedPnl) == before
    && after.orderId == (if u.SetSubmitted? then Some(u.orderId) else before.orderId)
    && after.avgPrice == (if u.SetFilled? then Some(u.avgPrice) else before.avgPrice)
    && after.realizedPnl == (if u.SetWon? || u.SetLost? then Some(u.realizedPnl) else before.realizedPnl)
    && (if u.SetSubmitted? && !marks then after.status == before.status
        else
          && (after.status.Submitted? <==> u.SetSubmitted?) && (after.status.Filled? <==> u.SetFilled?)
          && (after.status.Rejected? <==> u.SetRejected?) && (after.status.Cancelled? <==> u.SetCancelled?)
          && (after.status.Settling? <==> u.SetSettling?) && (after.status.Won? <==> u.SetWon?)
          && (after.status.Lost? <==> u.SetLost?) && (after.status.Redeemed? <==> u.SetRedeemed?))
  }

  ghost predicate OthersUntouched(before: Rows, after: Rows, id: nat) {
    before.Keys == after.Keys && forall p :: p in before && p != id ==> after[p] == before[p]
  }

  // ─── The SQL table ──────────────────────────────────────────────────────────

  class SqliteStore {
    var rows: Rows
    var lastId: nat

    ghost predicate Valid() reads this {
      forall id :: id in rows ==> id <= lastId
    }

    constructor ()
      ensures Valid() && rows == map[] && lastId == 0
    {
      rows := map[];
      lastId := 0;
    }

    method InsertPosition(record: Row) returns (id: nat)
      requires Valid()
      modifies this
      ensures Valid()
      ensures id == old(lastId) + 1 && id !in old(rows)
      ensures lastId == id && rows == old(rows)[id := record]
    {
      lastId := lastId + 1;
      id := lastId;
      rows := rows[id := record];
    }

    method UpdatePosition(id: nat, u: PositionUpdate)
      requires Valid()
      modifies this`rows
      ensures Valid()
      ensures rows == UpdateRows(old(rows), id, u)
      ensures OthersUntouched(old(rows), rows, id) && (id in rows ==> Written(old(rows)[id], rows[id], u, true))
    {
      if id in rows {
        rows := rows[id := Apply(rows[id], u)];
      }
    }

    /** The open set still holds Redeemed rows: the SQL filter does not name that status. */
    method OpenPositions() returns (open: Rows)
      ensures open.Keys <= rows.Keys
      ensures forall id :: id in rows ==> (id in open <==> SqlOpen(rows[id]))
      ensures forall id :: id in rows ==>
                var s := rows[id].status; id !in open <==> s.Won? || s.Lost? || s.Rejected? || s.Cancelled?
      ensures forall id :: id in open ==> open[id] == rows[id]
    {
      open := map id | id in rows && SqlOpen(rows[id]) :: rows[id];
    }

    /** One pass over the table, adding the two CASE sums. */
    method SuccessRateCounts() returns (wins: nat, resolved: nat)
      ensures wins == |WinIds(rows)| && resolved == |ResolvedIds(rows)|
      ensures wins == |set id | id in rows && (rows[id].status.Won? || rows[id].status.Redeemed?)|
      ensures resolved == |set id | id in rows && (rows[id].status.Won? || rows[id].status.Redeemed? || rows[id].status.Lost?)|
    {
      CountedStatuses(rows);
      wins, resolved := 0, 0;
      var todo := rows.Keys;
      ghost var seen: Rows := map[];
      while todo != {}
        invariant todo <= rows.Keys && seen == rows - todo
        invariant wins == |WinIds(seen)| && resolved == |ResolvedIds(seen)|
        decreases todo
      {
        var id :| id in todo;
        CountOneMore(seen, id, rows[id]);
        if CountsAsWin(rows[id]) { wins := wins + 1; }
        if CountsAsResolved(rows[id]) { resolved := resolved + 1; }
        todo := todo - {id};
        seen := seen[id := rows[id]];
      }
      assert seen == rows;
    }
  }

  // ─── The vector store ───────────────────────────────────────────────────────

  datatype Stored = Stored(id: nat, row: Row)

  /** The table a vector of records stands for. */
  function AsRows(positions: seq<Stored>): (rows: Rows)
    ensures forall id: nat :: id in rows <==> 1 <= id <= |positions|
    ensures forall id: nat :: id in rows ==> rows[id] == positions[id - 1].row
  {
    if positions == [] then map[]
    else
      var n := |positions|;
      AsRows(positions[..n - 1])[n := positions[n - 1].row]
  }

  lemma RowReplaced(positions: seq<Stored>, i: nat, row: Row)
    requires i < |positions|
    ensures AsRows(positions[i := Stored(i + 1, row)]) == AsRows(positions)[i + 1 := row]
  {
  }

  lemma MockWrites(rows: Rows, id: nat, u: PositionUpdate)
    requires id in rows
    ensures OthersUntouched(rows, rows[id := MockApply(rows[id], u)], id)
    ensures Written(rows[id], MockApply(rows[id], u), u, false)
  {
  }

  /** Editing the record at `i` is the write to id `i + 1`. */
  lemma RecordEdited(positions: seq<Stored>, i: nat, u: PositionUpdate)
    requires i < |positions|
    ensures var rows, next := AsRows(positions), AsRows(positions[i := Stored(i + 1, MockApply(positions[i].row, u))]);
            && i + 1 in rows && i + 1 in next
            && next == rows[i + 1 := MockApply(rows[i + 1], u)]
            && OthersUntouched(rows, next, i + 1) && Written(rows[i + 1], next[i + 1], u, false)
  {
    RowReplaced(positions, i, MockApply(positions[i].row, u));
    MockWrites(AsRows(positions), i + 1, u);
  }

  class MockStore {
    var positions: seq<Stored>
    var nextId: nat

    /** Ids were handed out 1, 2, 3, … in insertion order. */
    ghost predicate Valid() reads this {
      && nextId == |positions|
      && forall i :: 0 <= i < |positions| ==> positions[i].id == i + 1
    }

    constructor ()
      ensures Valid() && positions == []
    {
      positions := [];
      nextId := 0;
    }

    method InsertPosition(record: Row) returns (id: nat)
      requires Valid()
      modifies this
      ensures Valid()
      ensures id == old(nextId) + 1 && id !in AsRows(old(positions))
      ensures AsRows(positions) == AsRows(old(positions))[id := record]
    {
      nextId := nextId + 1;
      id := nextId;
      positions := positions + [Stored(id, record)];
    }

    /** Scans for the id; a missing id is an error and changes nothing. */
    method UpdatePosition(id: nat, u: PositionUpdate) returns (ok: bool)
      requires Valid()
      modifies this`positions
      ensures Valid()
      ensures ok <==> id in AsRows(old(positions))
      ensures !ok ==> positions == old(positions)
      ensures ok ==> AsRows(positions) ==
                     AsRows(old(positions))[id := MockApply(AsRows(old(positions))[id], u)]
      ensures OthersUntouched(AsRows(old(positions)), AsRows(positions), id)
      ensures ok ==> Written(AsRows(old(positions))[id], AsRows(positions)[id], u, false)
    {
      var i := 0;
      while i < |positions| && positions[i].id != id
        invariant 0 <= i <= |positions|
        invariant id == 0 || i < id
      {
        i := i + 1;
      }
      if i == |positions| {
        return false;
      }
      assert id == i + 1;
      RecordEdited(positions, i, u);
      positions := positions[i := Stored(id, MockApply(positions[i].row, u))];
      return true;
    }

    method OpenPositions() returns (open: seq<Stored>)
      requires Valid()
      ensures forall p :: p in open <==> p in positions && !p.row.status.IsTerminal()
      ensures forall p :: p in open <==>
                p in positions && (p.row.status.Submitted? || p.row.status.Filled? || p.row.status.Settling?)
    {
      open := [];
      for i := 0 to |positions|
        invariant forall p :: p in open <==> p in positions[..i] && !p.row.status.IsTerminal()
      {
        if !positions[i].row.status.IsTerminal() {
          open := open + [positions[i]];
        }
      }
    }

    method SuccessRateCounts() returns (wins: nat, resolved: nat)
      requires Valid()
      ensures wins == |WinIds(AsRows(positions))| && resolved == |ResolvedIds(AsRows(positions))|
    {
      wins, resolved := 0, 0;
      for i := 0 to |positions|
        invariant wins == |WinIds(AsRows(positions[..i]))|
        invariant resolved == |ResolvedIds(AsRows(positions[..i]))|
      {
        var row := positions[i].row;
        assert positions[..i + 1][..i] == positions[..i];
        CountOneMore(AsRows(positions[..i]), i + 1, row);
        if CountsAsWin(row) { wins := wins + 1; }
        if CountsAsResolved(row) { resolved := resolved + 1; }
      }
      assert positions[..|positions|] == positions;
    }
  }

  // ─── When the two stores agree ──────────────────────────────────────────────

  /** The stores part ways exactly on an order id recorded for a row already past Submitted. */
  lemma UpdatesAgreeIff(row: Row, u: PositionUpdate)
    ensures Apply(row, u) == MockApply(row, u) <==> !(u.SetSubmitted? && row.status != Submitted)
  {
    if u.SetSubmitted? {
      assert Apply(row, u).status == Submitted && MockApply(row, u).status == row.status;
    }
  }

  /** The open sets agree exactly when no row is Redeemed; what settlement picks agrees always. */
  lemma OpenSetsAgreeIff(rows: Rows)
    ensures (forall id :: id in rows ==> (SqlOpen(rows[id]) <==> !rows[id].status.IsTerminal()))
            <==> (forall id :: id in rows ==> rows[id].status != Redeemed)
    ensures forall id :: id in rows && rows[id].status in {Filled, Settling}
                         ==> SqlOpen(rows[id]) && !rows[id].status.IsTerminal()
  {
    forall id | id in rows
      ensures (SqlOpen(rows[id]) <==> !rows[id].status.IsTerminal()) <==> rows[id].status != Redeemed
    {
      match rows[id].status
      case Redeemed =>
      case _ =>
    }
  }
}
