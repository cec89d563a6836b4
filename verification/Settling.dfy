/** What settlement decides about one position. */
module Settling {
  import opened Types
  import opened Store

  function LowerChar(c: char): char {
    if 'A' <= c <= 'Z' then (c - 'A') + 'a' else c
  }

  function Lower(s: string): string {
    if s == "" then "" else [LowerChar(s[0])] + Lower(s[1..])
  }

  predicate Wins(row: Row, winner: string) {
    Lower(row.outcomeName) == Lower(winner)
  }

  /** Cost basis: the fill price, or the limit price when no fill price is stored. */
  function CostOf(row: Row): real {
    (match row.avgPrice case Some(p) => p case None => row.limitPrice) * row.shares
  }

  /** The catalog's verdict if it gave one, else a local comparison with the strike (a tie is Down). */
  function WinningOutcomeName(market: Market, price: Option<real>): Option<string> {
    if market.resolvedOutcome.Some? then market.resolvedOutcome
    else if market.strike.None? || price.None? then None
    else Some((if price.value > market.strike.value then Up else Down).AsStr())
  }

  /** The catalog's verdict stands whatever the price; without one there is a winner exactly when there
      are a strike and a price, and it is "Up" exactly when the price is above the strike. */
  lemma WinnerIs(market: Market, price: Option<real>)
    ensures var winner := WinningOutcomeName(market, price);
            && (forall w :: market.resolvedOutcome == Some(w) ==> winner == Some(w))
            && (market.resolvedOutcome.None? ==>
                  && (winner.Some? <==> market.strike.Some? && price.Some?)
                  && (winner.Some? ==> winner.value == if price.value > market.strike.value then "Up" else "Down"))
  {
  }

  ghost predicate SameLetter(a: char, b: char) {
    a == b || ('A' <= a <= 'Z' && b as int == a as int + 32) || ('A' <= b <= 'Z' && a as int == b as int + 32)
  }

  /** The same letters, ASCII ones in either case. */
  ghost predicate SameIgnoringCase(a: string, b: string) {
    |a| == |b| && forall i :: 0 <= i < |a| ==> SameLetter(a[i], b[i])
  }

  lemma SameLetterIff(a: char, b: char)
    ensures LowerChar(a) == LowerChar(b) <==> SameLetter(a, b)
  {
    assert 'a' as int == 97 && 'z' as int == 122 && 'A' as int == 65 && 'Z' as int == 90;
    assert LowerChar(a) as int == if 65 <= a as int <= 90 then a as int + 32 else a as int;
    assert LowerChar(b) as int == if 65 <= b as int <= 90 then b as int + 32 else b as int;
  }

  lemma {:induction false} LowerAt(s: string, i: nat)
    requires i < |s|
    ensures |Lower(s)| == |s| && Lower(s)[i] == LowerChar(s[i])
  {
    LowerLength(s);
    if i > 0 {
      LowerAt(s[1..], i - 1);
    }
  }

  /** A position wins exactly when its outcome is the winner's name, ASCII case aside. */
  lemma WinsIff(row: Row, winner: string)
    ensures Wins(row, winner) <==> SameIgnoringCase(row.outcomeName, winner)
  {
    var a, b := row.outcomeName, winner;
    LowerLength(a);
    LowerLength(b);
    if |a| == |b| {
      forall i | 0 <= i < |a| ensures Lower(a)[i] == Lower(b)[i] <==> SameLetter(a[i], b[i]) {
        LowerAt(a, i);
        LowerAt(b, i);
        SameLetterIff(a[i], b[i]);
      }
    }
  }

  /** On the price fallback exactly one side of an up/down market wins, whatever the stored casing:
      the up side for a price above the strike, the down side otherwise, a tie included. */
  lemma OneSideWins(market: Market, price: real, up: Row, down: Row)
    requires market.resolvedOutcome.None? && market.strike.Some?
    requires Lower(up.outcomeName) == Lower("Up") && Lower(down.outcomeName) == Lower("Down")
    ensures var winner := WinningOutcomeName(market, Some(price));
            && winner.Some?
            && (Wins(up, winner.value) <==> price > market.strike.value)
            && (Wins(down, winner.value) <==> price <= market.strike.value)
  {
    LowerLength("Up");
    LowerLength("Down");
  }

  lemma {:induction false} LowerLength(s: string)
    ensures |Lower(s)| == |s|
  {
    if s != "" {
      LowerLength(s[1..]);
    }
  }

  predicate Settleable(row: Row, slug: string) {
    (row.status == PositionStatus.Filled || row.status == PositionStatus.Settling) && row.marketSlug == slug
  }

  /** The rows of the open set that settlement goes through for a market. */
  function ToSettle(rows: Rows, slug: string): Rows {
    map id | id in rows && SqlOpen(rows[id]) && Settleable(rows[id], slug) :: rows[id]
  }

  function LostEvent(pid: nat, row: Row): SettledEvent {
    SettledEvent(pid, PositionStatus.Lost, -CostOf(row), CostOf(row))
  }

  function WonEvent(pid: nat, row: Row, payout: real): SettledEvent {
    SettledEvent(pid, PositionStatus.Won, payout - CostOf(row), CostOf(row))
  }
}
