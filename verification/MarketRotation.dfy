/** Market rotation: one round's state machine, and the lifecycle stream a sequence of rounds emits. */
module MarketRotation {
  import opened Types
  import opened State

  // ─── Window clock ───────────────────────────────────────────────────────────

  function WindowStart(now: nat, interval: nat): nat
    requires interval > 0
  {
    now / interval * interval
  }

  function NextWindowStart(now: nat, interval: nat): nat
    requires interval > 0
  {
    WindowStart(now, interval) + interval
  }

  /** The window asked for is the one containing `now`, and no other aligned window contains it. */
  lemma WindowContains(now: nat, interval: nat, k: nat)
    requires interval > 0
    ensures WindowStart(now, interval) <= now < NextWindowStart(now, interval)
    ensures k * interval <= now < k * interval + interval ==> k * interval == WindowStart(now, interval)
  {
    var q := now / interval;
    assert now == q * interval + now % interval;
    if k * interval <= now < k * interval + interval {
      SameWindow(k, q, now % interval, interval);
    }
  }

  lemma SameWindow(k: nat, q: nat, r: nat, interval: nat)
    requires r < interval && k * interval <= q * interval + r < k * interval + interval
    ensures k == q
  {
    if k < q {
      Scale(k + 1, q, interval);
    } else if q < k {
      Scale(q + 1, k, interval);
    }
  }

  lemma Scale(a: nat, b: nat, interval: nat)
    ensures a <= b ==> a * interval <= b * interval
  {
  }

  /** The prefetch slug is computed once the cutoff has passed. When cutoff is the end of the round's
      window, the window directly after it is the current one, and the prefetch names the one after:
      never the window the next round starts with unless that round starts late. */
  lemma PrefetchSkipsAWindow(start: nat, interval: nat, now: nat)
    requires interval > 0 && start % interval == 0 && now >= start + interval
    ensures NextWindowStart(now, interval) >= start + 2 * interval
    ensures NextWindowStart(now, interval) == start + 2 * interval <==> now < start + 2 * interval
  {
    var k := start / interval;
    assert start == k * interval;
    var q := now / interval;
    assert now == q * interval + now % interval;
    Scale(q, k, interval);
    Scale(k + 1, q, interval);
    assert (k + 1) * interval <= q * interval;
    if now < start + 2 * interval {
      WindowContains(now, interval, k + 1);
    }
  }

  // ─── The lifecycle stream ───────────────────────────────────────────────────

  datatype Lifecycle = TradingCutoff(market: Market) | Resolved(market: Market)

  /** A prefix of (Resolved | TradingCutoff(s) Resolved(s))*: a cutoff is followed at once by the
      resolution of the same market, or ends the stream. */
  ghost predicate Paired(stream: seq<Lifecycle>) {
    forall i :: 0 <= i < |stream| - 1 && stream[i].TradingCutoff? ==>
      stream[i + 1].Resolved? && stream[i + 1].market.slug == stream[i].market.slug
  }

  /** What one round adds; a finished round leaves no cutoff unanswered. */
  ghost predicate RoundAdds(slug: string, added: seq<Lifecycle>, finished: bool) {
    && |added| <= 2 && Paired(added)
    && (forall e :: e in added ==> e.market.slug == slug)
    && (|added| == 2 ==> added[0].TradingCutoff?)
    && (finished ==> |added| > 0 && added[|added| - 1].Resolved?)
  }

  /** Where a cancelled round was dropped: every await is a possible end. */
  datatype Cut = AtResolve | BeforeOpen | BeforeCutoff | AtCutoffSend | AtPoll | AtResolvedSend | AtPrefetch | NoCut

  /** The reply the retry loop stops at. */
  ghost function FirstFound(replies: seq<Option<Market>>): Option<Market> {
    if replies == [] then None
    else if replies[0].Some? then replies[0]
    else FirstFound(replies[1..])
  }

  /** The reply the polling stops at. */
  ghost function FirstResolved(replies: seq<Option<Market>>): Option<Market> {
    if replies == [] then None
    else if replies[0].Some? && replies[0].value.status == MarketStatus.Resolved then replies[0]
    else FirstResolved(replies[1..])
  }

  datatype RoundInput = RoundInput(slug: string, resolves: seq<Option<Market>>, polls: seq<Option<Market>>,
                                   prefetch: Option<Market>, cut: Cut)
  {
    /** The catalog answers with the market it was asked for. */
    ghost predicate Answered() {
      && (forall r :: r in resolves && r.Some? ==> r.value.slug == slug)
      && (forall r :: r in polls && r.Some? ==> r.value.slug == slug)
    }

    /** The window's market is found, and already called resolved. */
    ghost predicate FindsResolved() {
      var found := FirstFound(resolves);
      found.Some? && !cut.AtResolve? && found.value.status == MarketStatus.Resolved
    }

    /** The round goes through to the catalog calling its market resolved. */
    ghost predicate SeesResolution() {
      var found := FirstFound(resolves);
      && found.Some? && found.value.status != MarketStatus.Resolved && FirstResolved(polls).Some?
      && (cut.NoCut? || cut.AtPrefetch?)
    }

    ghost predicate Announces() {
      (FindsResolved() && !cut.AtResolvedSend?) || SeesResolution()
    }

    ghost predicate Finishes() {
      Announces() && (FindsResolved() || cut.NoCut?)
    }
  }

  // ─── One round, step by step ────────────────────────────────────────────────

  /** Reply `k` is the first that names a market. */
  ghost predicate FoundAt(replies: seq<Option<Market>>, k: int) {
    0 <= k < |replies| && replies[k].Some? && forall j :: 0 <= j < k ==> replies[j].None?
  }

  /** Reply `k` is the first that calls its market resolved. */
  ghost predicate ResolvedAt(replies: seq<Option<Market>>, k: int) {
    0 <= k < |replies| && SaysResolved(replies[k]) && forall j :: 0 <= j < k ==> !SaysResolved(replies[j])
  }

  ghost predicate SaysResolved(reply: Option<Market>) {
    reply.Some? && reply.value.status.Resolved?
  }

  lemma {:induction false} FirstFoundAt(replies: seq<Option<Market>>)
    ensures FirstFound(replies).None? <==> forall k :: 0 <= k < |replies| ==> replies[k].None?
    ensures FirstFound(replies).Some? ==> exists k :: FoundAt(replies, k)
    ensures forall k :: FoundAt(replies, k) ==> FirstFound(replies) == replies[k]
  {
    if replies != [] && replies[0].None? {
      var rest := replies[1..];
      FirstFoundAt(rest);
      forall k | FoundAt(replies, k) ensures FoundAt(rest, k - 1) {
        assert forall j :: 0 <= j < k - 1 ==> rest[j] == replies[j + 1];
      }
      if k :| FoundAt(rest, k) {
        assert FoundAt(replies, k + 1);
      }
    } else if replies != [] {
      assert FoundAt(replies, 0);
    }
  }

  lemma {:induction false} FirstResolvedAt(replies: seq<Option<Market>>)
    ensures FirstResolved(replies).None? <==> forall k :: 0 <= k < |replies| ==> !SaysResolved(replies[k])
    ensures FirstResolved(replies).Some? ==> exists k :: ResolvedAt(replies, k)
    ensures forall k :: ResolvedAt(replies, k) ==> FirstResolved(replies) == replies[k]
  {
    if replies != [] && !SaysResolved(replies[0]) {
      var rest := replies[1..];
      FirstResolvedAt(rest);
      forall k | ResolvedAt(replies, k) ensures ResolvedAt(rest, k - 1) {
        assert forall j :: 0 <= j < k - 1 ==> rest[j] == replies[j + 1];
      }
      if k :| ResolvedAt(rest, k) {
        assert ResolvedAt(replies, k + 1);
      }
    } else if replies != [] {
      assert ResolvedAt(replies, 0);
    }
  }

  /** The end of a round, once its cutoff is announced: the first reply calling the market resolved is
      published, then announced, then the prefetched market is published, up to where the round is cut. */
  ghost predicate EndRan(input: RoundInput, told: seq<Market>, added: seq<Lifecycle>, finished: bool) {
    if input.cut.AtPoll? || forall k :: 0 <= k < |input.polls| ==> !SaysResolved(input.polls[k]) then
      told == [] && added == [] && !finished
    else
      exists k :: ResolvedAt(input.polls, k) && EndedWith(input, input.polls[k].value, told, added, finished)
  }

  ghost predicate EndedWith(input: RoundInput, done: Market, told: seq<Market>, added: seq<Lifecycle>, finished: bool) {
    match input.cut
    case AtResolvedSend => told == [done] && added == [] && !finished
    case NoCut =>
      told == [done] + (if input.prefetch.Some? then [input.prefetch.value] else [])
      && added == [Lifecycle.Resolved(done)] && finished
    case _ => told == [done] && added == [Lifecycle.Resolved(done)] && !finished
  }

  /** An unresolved market is published as found, open and at cutoff, its cutoff is announced, it is
      published as resolving, and the round ends as said above. */
  ghost predicate OpenRan(input: RoundInput, m: Market, told: seq<Market>, added: seq<Lifecycle>, finished: bool) {
    var open, atCutoff, resolving := m.(status := MarketStatus.Open), m.(status := MarketStatus.TradingCutoff), m.(status := Resolving);
    match input.cut
    case BeforeOpen => told == [m] && added == [] && !finished
    case BeforeCutoff => told == [m, open] && added == [] && !finished
    case AtCutoffSend => told == [m, open, atCutoff] && added == [] && !finished
    case _ =>
      && |told| >= 4 && told[..4] == [m, open, atCutoff, resolving]
      && |added| >= 1 && added[0] == Lifecycle.TradingCutoff(atCutoff)
      && EndRan(input, told[4..], added[1..], finished)
  }

  /** What a whole round publishes and announces, and whether it gets to its end. */
  ghost predicate RoundRan(input: RoundInput, told: seq<Market>, added: seq<Lifecycle>, finished: bool) {
    if input.cut.AtResolve? || forall k :: 0 <= k < |input.resolves| ==> input.resolves[k].None? then
      told == [] && added == [] && !finished
    else
      exists k :: FoundAt(input.resolves, k) && FoundRan(input, input.resolves[k].value, told, added, finished)
  }

  ghost predicate FoundRan(input: RoundInput, m: Market, told: seq<Market>, added: seq<Lifecycle>, finished: bool) {
    if !m.status.Resolved? then OpenRan(input, m, told, added, finished)
    else if input.cut.AtResolvedSend? then told == [m] && added == [] && !finished
    else told == [m] && added == [Lifecycle.Resolved(m)] && finished
  }

  lemma EndAdds(input: RoundInput, told: seq<Market>, added: seq<Lifecycle>, finished: bool)
    requires input.Answered() && EndRan(input, told, added, finished)
    ensures |added| <= 1 && (|added| == 1 ==> added[0].Resolved? && added[0].market.slug == input.slug)
    ensures |added| == 1 <==> FirstResolved(input.polls).Some? && !input.cut.AtPoll? && !input.cut.AtResolvedSend?
    ensures finished <==> FirstResolved(input.polls).Some? && input.cut.NoCut?
  {
    FirstResolvedAt(input.polls);
    if FirstResolved(input.polls).Some? && !input.cut.AtPoll? {
      var k :| ResolvedAt(input.polls, k) && EndedWith(input, input.polls[k].value, told, added, finished);
      assert input.polls[k] in input.polls;
    }
  }

  /** A round adds a paired piece of the stream for its own market, with a resolution exactly if it announces one. */
  lemma RanAdds(input: RoundInput, told: seq<Market>, added: seq<Lifecycle>, finished: bool)
    requires input.Answered() && RoundRan(input, told, added, finished)
    ensures RoundAdds(input.slug, added, finished)
    ensures finished == input.Finishes() && ResolvedSlugs(added) == Announced(input)
  {
    FirstFoundAt(input.resolves);
    if FirstFound(input.resolves).Some? && !input.cut.AtResolve? {
      var k :| FoundAt(input.resolves, k) && FoundRan(input, input.resolves[k].value, told, added, finished);
      assert input.resolves[k] in input.resolves;
      if !input.resolves[k].value.status.Resolved? {
        OpenAdds(input, input.resolves[k].value, told, added, finished);
      }
    }
  }

  lemma OpenAdds(input: RoundInput, m: Market, told: seq<Market>, added: seq<Lifecycle>, finished: bool)
    requires input.Answered() && m.slug == input.slug && OpenRan(input, m, told, added, finished)
    requires FirstFound(input.resolves) == Some(m) && !m.status.Resolved? && !input.cut.AtResolve?
    ensures RoundAdds(input.slug, added, finished)
    ensures finished == input.Finishes() && ResolvedSlugs(added) == Announced(input)
  {
    if !input.cut.BeforeOpen? && !input.cut.BeforeCutoff? && !input.cut.AtCutoffSend? {
      EndAdds(input, told[4..], added[1..], finished);
      assert added == [added[0]] + added[1..];
      ResolvedConcat([added[0]], added[1..]);
      assert |added| == 2 ==> added[1] == added[1..][0];
    }
  }

  class RotationTask {
    var published: seq<Market>
    var lifecycle: seq<Lifecycle>

    constructor ()
      ensures published == [] && lifecycle == []
    {
      published, lifecycle := [], [];
    }

    method Publish(m: Market)
      modifies this`published
      ensures published == old(published) + [m]
    {
      published := published + [m];
    }

    method EmitLifecycle(e: Lifecycle)
      modifies this`lifecycle
      ensures lifecycle == old(lifecycle) + [e]
    {
      lifecycle := lifecycle + [e];
    }

    /** Retry until the catalog answers; running out of replies is being cancelled here. */
    method ResolveWithRetry(replies: seq<Option<Market>>) returns (market: Option<Market>)
      ensures market.None? ==> forall k :: 0 <= k < |replies| ==> replies[k].None?
      ensures market.Some? ==> exists k :: FoundAt(replies, k) && market == replies[k]
    {
      for i := 0 to |replies|
        invariant forall k :: 0 <= k < i ==> replies[k].None?
      {
        if replies[i].Some? {
          assert FoundAt(replies, i);
          return replies[i];
        }
      }
      market := None;
    }

    /** Poll until a reply says Resolved. */
    method PollResolved(replies: seq<Option<Market>>) returns (market: Option<Market>)
      ensures market.None? ==> forall k :: 0 <= k < |replies| ==> !SaysResolved(replies[k])
      ensures market.Some? ==> exists k :: ResolvedAt(replies, k) && market == replies[k]
    {
      for i := 0 to |replies|
        invariant forall k :: 0 <= k < i ==> !SaysResolved(replies[k])
      {
        if replies[i].Some? && replies[i].value.status == MarketStatus.Resolved {
          assert ResolvedAt(replies, i);
          return replies[i];
        }
      }
      market := None;
    }

    /** One round, with what it adds to the two channels as ghost results. */
    method RunRound(input: RoundInput) returns (finished: bool, ghost told: seq<Market>, ghost added: seq<Lifecycle>)
      modifies this
      ensures published == old(published) + told && lifecycle == old(lifecycle) + added
      ensures RoundRan(input, told, added, finished)
    {
      told, added, finished := [], [], false;
      var resolved := ResolveWithRetry(input.resolves);
      if resolved.None? || input.cut.AtResolve? {
        return;
      }
      var market := resolved.value;
      Publish(market);
      if market.status == MarketStatus.Resolved {
        told := [market];
        if input.cut.AtResolvedSend? {
          return;
        }
        EmitLifecycle(Lifecycle.Resolved(market));
        added, finished := [Lifecycle.Resolved(market)], true;
        return;
      }
      finished, told, added := RunOpenRound(input, market);
      assert FoundRan(input, market, told, added, finished);
    }

    /** From the first publication on. */
    method RunOpenRound(input: RoundInput, found: Market)
      returns (finished: bool, ghost told: seq<Market>, ghost added: seq<Lifecycle>)
      requires !found.status.Resolved? && !input.cut.AtResolve?
      modifies this
      ensures told != [] && told[0] == found
      ensures published == old(published) + told[1..] && lifecycle == old(lifecycle) + added
      ensures OpenRan(input, found, told, added, finished)
    {
      var waiting;
      waiting, told, added := RunToCutoff(input, found);
      finished := false;
      if waiting {
        ghost var rest, last;
        finished, rest, last := AwaitResolution(input);
        assert (told + rest)[4..] == rest && (told + rest)[..4] == told && (added + last)[1..] == last;
        assert (told + rest)[1..] == told[1..] + rest;
        told, added := told + rest, added + last;
      }
    }

    /** Up to the wait for the resolution. The asserts are the source's four `expect`s: none of them can fail. */
    method RunToCutoff(input: RoundInput, found: Market)
      returns (waiting: bool, ghost told: seq<Market>, ghost added: seq<Lifecycle>)
      modifies this
      ensures told != [] && told[0] == found
      ensures published == old(published) + told[1..] && lifecycle == old(lifecycle) + added
      ensures waiting <==> !input.cut.BeforeOpen? && !input.cut.BeforeCutoff? && !input.cut.AtCutoffSend?
      ensures !waiting ==> OpenRan(input, found, told, added, false)
      ensures waiting ==>
                && told == [found, found.(status := MarketStatus.Open), found.(status := MarketStatus.TradingCutoff), found.(status := Resolving)]
                && added == [Lifecycle.TradingCutoff(told[2])]
    {
      told, added, waiting := [found], [], false;
      var market := found;
      var state := MarketStatus.Pending;
      if input.cut.BeforeOpen? {
        return;
      }
      assert MarketTransition(state, MarketStatus.Open).Some?;
      state := MarketStatus.Open;
      market := market.(status := state);
      Publish(market);
      told := told + [market];
      if input.cut.BeforeCutoff? {
        return;
      }
      assert MarketTransition(state, MarketStatus.TradingCutoff).Some?;
      state := MarketStatus.TradingCutoff;
      market := market.(status := state);
      Publish(market);
      told := told + [market];
      if input.cut.AtCutoffSend? {
        return;
      }
      EmitLifecycle(Lifecycle.TradingCutoff(market));
      added := [Lifecycle.TradingCutoff(market)];
      assert MarketTransition(state, MarketStatus.Resolving).Some?;
      state := MarketStatus.Resolving;
      market := market.(status := state);
      Publish(market);
      told := told + [market];
      assert MarketTransition(state, MarketStatus.Resolved).Some?;
      waiting := true;
    }

    /** Poll for the resolution, announce it, publish the prefetched market. */
    method AwaitResolution(input: RoundInput)
      returns (finished: bool, ghost told: seq<Market>, ghost added: seq<Lifecycle>)
      modifies this
      ensures published == old(published) + told && lifecycle == old(lifecycle) + added
      ensures EndRan(input, told, added, finished)
    {
      told, added, finished := [], [], false;
      var done := PollResolved(input.polls);
      if done.None? || input.cut.AtPoll? {
        return;
      }
      Publish(done.value);
      told := [done.value];
      if input.cut.AtResolvedSend? {
        return;
      }
      EmitLifecycle(Lifecycle.Resolved(done.value));
      added := [Lifecycle.Resolved(done.value)];
      if !input.cut.NoCut? {
        return;
      }
      if input.prefetch.Some? {
        Publish(input.prefetch.value);
        told := told + [input.prefetch.value];
      }
      finished := true;
    }

    /** The task: round after round until one is cancelled. Whatever the catalog says and wherever the
        cancellation falls, the lifecycle stream stays paired, and the resolutions on it are those of
        the rounds that announce one, in order: no market's comes twice exactly when no slug is
        announced twice, as when no two rounds are of the same window. */
    method Run(rounds: seq<RoundInput>)
      requires lifecycle == [] && forall r :: r in rounds ==> r.Answered()
      modifies this
      ensures Paired(lifecycle) && ResolvedSlugs(lifecycle) == AnnouncedSlugs(rounds)
      ensures EachResolvedOnce(lifecycle) <==> NoRepeats(AnnouncedSlugs(rounds))
      ensures DistinctRounds(rounds) ==> EachResolvedOnce(lifecycle)
    {
      assert rounds[0..] == rounds;
      for i := 0 to |rounds|
        invariant SoFar(lifecycle, rounds, i)
      {
        ghost var before := lifecycle;
        var finished, told, added := RunRound(rounds[i]);
        RanAdds(rounds[i], told, added, finished);
        RoundDone(before, added, rounds, i);
        if !finished {
          Concluded(lifecycle, rounds);
          return;
        }
      }
      Concluded(lifecycle, rounds);
    }
  }

  lemma Concluded(stream: seq<Lifecycle>, rounds: seq<RoundInput>)
    requires ResolvedSlugs(stream) == AnnouncedSlugs(rounds)
    ensures EachResolvedOnce(stream) <==> NoRepeats(AnnouncedSlugs(rounds))
    ensures DistinctRounds(rounds) ==> EachResolvedOnce(stream)
  {
    ResolvedOnceIff(stream);
    OneAnnouncementEach(rounds);
  }

  /** After `i` finished rounds. */
  ghost predicate SoFar(stream: seq<Lifecycle>, rounds: seq<RoundInput>, i: nat)
    requires i <= |rounds|
  {
    && Paired(stream) && (stream == [] || stream[|stream| - 1].Resolved?)
    && ResolvedSlugs(stream) + AnnouncedSlugs(rounds[i..]) == AnnouncedSlugs(rounds)
  }

  lemma RoundDone(before: seq<Lifecycle>, added: seq<Lifecycle>, rounds: seq<RoundInput>, i: nat)
    requires i < |rounds| && SoFar(before, rounds, i)
    requires RoundAdds(rounds[i].slug, added, rounds[i].Finishes()) && ResolvedSlugs(added) == Announced(rounds[i])
    ensures rounds[i].Finishes() ==> SoFar(before + added, rounds, i + 1)
    ensures !rounds[i].Finishes() ==>
              Paired(before + added) && ResolvedSlugs(before + added) == AnnouncedSlugs(rounds)
  {
    RoundExtends(before, added, rounds[i].slug, rounds[i].Finishes());
    RoundAnnounces(before, added, rounds, i);
  }

  /** What one round adds to the resolutions announced. */
  ghost function Announced(input: RoundInput): seq<string> {
    if input.Announces() then [input.slug] else []
  }

  /** A task stops at its first unfinished round. */
  ghost function AnnouncedSlugs(rounds: seq<RoundInput>): seq<string> {
    if rounds == [] then []
    else Announced(rounds[0]) + if rounds[0].Finishes() then AnnouncedSlugs(rounds[1..]) else []
  }

  ghost function ResolvedSlugs(stream: seq<Lifecycle>): seq<string> {
    if stream == [] then []
    else (if stream[0].Resolved? then [stream[0].market.slug] else []) + ResolvedSlugs(stream[1..])
  }

  ghost predicate NoRepeats(slugs: seq<string>) {
    forall i, j :: 0 <= i < j < |slugs| ==> slugs[i] != slugs[j]
  }

  ghost predicate DistinctRounds(rounds: seq<RoundInput>) {
    forall i, j :: 0 <= i < j < |rounds| ==> rounds[i].slug != rounds[j].slug
  }

  /** What settlement relies on: each market's resolution comes once. */
  ghost predicate EachResolvedOnce(stream: seq<Lifecycle>) {
    forall i, j :: 0 <= i < j < |stream| && stream[i].Resolved? && stream[j].Resolved? ==>
      stream[i].market.slug != stream[j].market.slug
  }

  lemma {:induction false} ResolvedConcat(a: seq<Lifecycle>, b: seq<Lifecycle>)
    ensures ResolvedSlugs(a + b) == ResolvedSlugs(a) + ResolvedSlugs(b)
  {
    if a == [] {
      assert a + b == b;
    } else {
      ResolvedConcat(a[1..], b);
      assert (a + b)[1..] == a[1..] + b;
    }
  }

  lemma RoundAnnounces(before: seq<Lifecycle>, added: seq<Lifecycle>, rounds: seq<RoundInput>, i: nat)
    requires i < |rounds| && ResolvedSlugs(added) == Announced(rounds[i])
    ensures ResolvedSlugs(before + added) + (if rounds[i].Finishes() then AnnouncedSlugs(rounds[i + 1..]) else [])
              == ResolvedSlugs(before) + AnnouncedSlugs(rounds[i..])
  {
    var here := rounds[i..];
    assert here[0] == rounds[i] && here[1..] == rounds[i + 1..];
    ResolvedConcat(before, added);
    Regrouped(ResolvedSlugs(before), Announced(rounds[i]), if rounds[i].Finishes() then AnnouncedSlugs(here[1..]) else []);
  }

  lemma Regrouped(a: seq<string>, b: seq<string>, c: seq<string>)
    ensures (a + b) + c == a + (b + c)
  {
  }

  lemma {:induction false} ResolvedIn(stream: seq<Lifecycle>, slug: string)
    ensures slug in ResolvedSlugs(stream) <==> exists i :: 0 <= i < |stream| && stream[i].Resolved? && stream[i].market.slug == slug
  {
    if stream != [] {
      ResolvedIn(stream[1..], slug);
      if i :| 0 <= i < |stream| && stream[i].Resolved? && stream[i].market.slug == slug {
        assert i > 0 ==> stream[1..][i - 1] == stream[i];
      }
    }
  }

  lemma NoRepeatsCons(first: string, rest: seq<string>)
    ensures NoRepeats([first] + rest) <==> first !in rest && NoRepeats(rest)
  {
    var all := [first] + rest;
    if NoRepeats(all) {
      forall k | 0 <= k < |rest| ensures rest[k] != first {
        assert all[0] != all[k + 1];
      }
      forall i, j | 0 <= i < j < |rest| ensures rest[i] != rest[j] {
        assert all[i + 1] != all[j + 1];
      }
    }
  }

  lemma EachResolvedOnceCons(e: Lifecycle, rest: seq<Lifecycle>)
    ensures EachResolvedOnce([e] + rest) <==>
              EachResolvedOnce(rest) && (e.Resolved? ==> e.market.slug !in ResolvedSlugs(rest))
  {
    var stream := [e] + rest;
    ResolvedIn(rest, e.market.slug);
    if EachResolvedOnce(stream) {
      forall i, j | 0 <= i < j < |rest| && rest[i].Resolved? && rest[j].Resolved?
        ensures rest[i].market.slug != rest[j].market.slug
      {
        assert stream[i + 1] == rest[i] && stream[j + 1] == rest[j];
      }
      forall i | 0 <= i < |rest| && e.Resolved? && rest[i].Resolved? ensures rest[i].market.slug != e.market.slug {
        assert stream[0] == e && stream[i + 1] == rest[i];
      }
    }
  }

  lemma {:induction false} ResolvedOnceIff(stream: seq<Lifecycle>)
    ensures EachResolvedOnce(stream) <==> NoRepeats(ResolvedSlugs(stream))
  {
    if stream != [] {
      var e, rest := stream[0], stream[1..];
      ResolvedOnceIff(rest);
      EachResolvedOnceCons(e, rest);
      NoRepeatsCons(e.market.slug, ResolvedSlugs(rest));
      assert stream == [e] + rest;
      assert ResolvedSlugs(stream) == if e.Resolved? then [e.market.slug] + ResolvedSlugs(rest) else ResolvedSlugs(rest);
    }
  }

  lemma {:induction false} OneAnnouncementEach(rounds: seq<RoundInput>)
    ensures forall slug :: slug in AnnouncedSlugs(rounds) ==> exists k :: 0 <= k < |rounds| && rounds[k].slug == slug
    ensures DistinctRounds(rounds) ==> NoRepeats(AnnouncedSlugs(rounds))
  {
    if rounds != [] {
      var rest := rounds[1..];
      OneAnnouncementEach(rest);
      NoRepeatsCons(rounds[0].slug, AnnouncedSlugs(rest));
      assert forall k :: 0 <= k < |rest| ==> rest[k] == rounds[k + 1];
    }
  }

  /** The repetition is real: a window's market found resolved is announced by every round of that window. */
  lemma {:induction false} FoundResolvedAgain(m: Market, n: nat)
    requires m.status == MarketStatus.Resolved
    ensures var again := RoundInput(m.slug, [Some(m)], [], None, NoCut);
            var rounds := seq(n, i => again);
            && again.Answered() && AnnouncedSlugs(rounds) == seq(n, i => m.slug)
            && (n >= 2 ==> !NoRepeats(AnnouncedSlugs(rounds)))
  {
    var again := RoundInput(m.slug, [Some(m)], [], None, NoCut);
    var rounds := seq(n, i => again);
    if n > 0 {
      FoundResolvedAgain(m, n - 1);
      assert rounds[1..] == seq(n - 1, i => again);
    }
    if n >= 2 {
      assert AnnouncedSlugs(rounds)[0] == AnnouncedSlugs(rounds)[1];
    }
  }

  lemma RoundExtends(before: seq<Lifecycle>, added: seq<Lifecycle>, slug: string, finished: bool)
    requires Paired(before) && (before == [] || before[|before| - 1].Resolved?)
    requires RoundAdds(slug, added, finished)
    ensures Paired(before + added)
    ensures finished ==> before + added != [] && (before + added)[|before + added| - 1].Resolved?
  {
    PairedConcat(before, added);
  }

  /** Rounds compose: after a resolution any paired stream may follow. */
  lemma PairedConcat(a: seq<Lifecycle>, b: seq<Lifecycle>)
    requires Paired(a) && Paired(b) && (a == [] || a[|a| - 1].Resolved?)
    ensures Paired(a + b)
  {
    var all := a + b;
    forall i | 0 <= i < |all| - 1 && all[i].TradingCutoff?
      ensures all[i + 1].Resolved? && all[i + 1].market.slug == all[i].market.slug
    {
      if i >= |a| {
        assert all[i] == b[i - |a|] && all[i + 1] == b[i + 1 - |a|];
      } else {
        assert all[i] == a[i] && i < |a| - 1 && all[i + 1] == a[i + 1];
      }
    }
  }
}
