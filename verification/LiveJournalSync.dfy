/** The live journal's paging and commits: src/binance/liveJournal.ts:116-211. */
module LiveJournalSync {
  import opened Common
  import opened LiveJournal
  import opened JournalFunding
  import opened JournalGuarantees
  import opened Sums

  const KEEP_TRADES: nat := 1000
  const FUNDING_LOOKBACK_MS: int := 604_800_000

  /** One symbol's executions, as the venue will ever report them: positive ids that strictly increase. */
  ghost predicate IsHistory(h: seq<Fill>, symbol: string) {
    h == []
    || (var n := |h| - 1;
        && h[n].symbol == symbol && h[n].id > 0
        && (n > 0 ==> h[n - 1].id < h[n].id)
        && IsHistory(h[..n], symbol))
  }

  lemma {:induction false} HistoryAt(h: seq<Fill>, symbol: string, i: nat)
    requires IsHistory(h, symbol) && i < |h|
    ensures h[i].symbol == symbol && h[i].id > 0
  {
    if i < |h| - 1 {
      HistoryAt(h[..|h| - 1], symbol, i);
    }
  }

  lemma {:induction false} IdsIncrease(h: seq<Fill>, symbol: string, i: nat, j: nat)
    requires IsHistory(h, symbol) && i < j < |h|
    ensures h[i].id < h[j].id
  {
    var n := |h| - 1;
    if j < n {
      IdsIncrease(h[..n], symbol, i, j);
    } else if i < n - 1 {
      IdsIncrease(h[..n], symbol, i, n - 1);
    }
  }

  /** The first execution at or after `id`. */
  function IndexFrom(h: seq<Fill>, id: int): (i: nat)
    ensures i <= |h|
  {
    if h == [] then 0
    else if h[|h| - 1].id < id then |h|
    else IndexFrom(h[..|h| - 1], id)
  }

  lemma {:induction false} IndexAfter(h: seq<Fill>, symbol: string, k: nat)
    requires IsHistory(h, symbol) && k < |h|
    ensures IndexFrom(h, h[k].id + 1) == k + 1
  {
    if k < |h| - 1 {
      IdsIncrease(h, symbol, k, |h| - 1);
      IndexAfter(h[..|h| - 1], symbol, k);
    }
  }

  /** The executions from position `from` up to `upTo`. */
  function Stretch(h: seq<Fill>, from: nat, upTo: nat): (r: seq<Fill>)
    requires from <= upTo <= |h|
    ensures |r| == upTo - from
  {
    h[from..upTo]
  }

  lemma StretchJoin(h: seq<Fill>, a: nat, b: nat, c: nat)
    requires a <= b <= c <= |h|
    ensures Stretch(h, a, b) + Stretch(h, b, c) == Stretch(h, a, c)
  {}

  /**
   * The venue: each symbol's history and the account's funding lines, and answers that may fail or stop short. A page
   * is a stretch of consecutive executions from the id asked for; without an id it may start anywhere. The funding
   * answered at an instant is what was settled from the time asked for until then, oldest first, up to the limit. A
   * prompt venue answers every request with as many executions as there are, up to the limit.
   */
  class Venue {
    const histories: map<string, seq<Fill>>
    const lines: seq<Funding>
    const prompt: bool

    /** Calls that were not answered. */
    ghost var failures: nat

    ghost predicate Valid() {
      (forall s :: s in histories ==> IsHistory(histories[s], s)) && InTimeOrder(lines)
    }

    function HistoryOf(symbol: string): seq<Fill> {
      if symbol in histories then histories[symbol] else []
    }

    constructor (histories: map<string, seq<Fill>>, lines: seq<Funding>, prompt: bool)
      requires (forall s :: s in histories ==> IsHistory(histories[s], s)) && InTimeOrder(lines)
      ensures Valid() && this.histories == histories && this.lines == lines && this.prompt == prompt
    {
      this.histories, this.lines, this.prompt, failures := histories, lines, prompt, 0;
    }

    /** The funding lines from `since` on, asked for up to `limit` and answered at `answered`. */
    method FundingFees(since: int, limit: nat, answered: int) returns (reply: Option<seq<Funding>>)
      modifies this`failures
      ensures failures == old(failures) + (if reply.None? then 1 else 0)
      ensures reply.Some? ==> reply.value == Lines(lines, Window(lines, since, answered, limit))
      ensures prompt ==> reply.Some?
    {
      var fails: bool := *;
      reply := if fails && !prompt then None else Some(Lines(lines, Window(lines, since, answered, limit)));
      failures := failures + (if reply.None? then 1 else 0);
    }

    method AccountTrades(symbol: string, fromId: Option<int>, limit: nat)
        returns (reply: Option<seq<Fill>>, ghost start: nat)
      modifies this`failures
      ensures failures == old(failures) + (if reply.None? then 1 else 0)
      ensures reply.Some? ==>
                && start + |reply.value| <= |HistoryOf(symbol)| && |reply.value| <= limit
                && reply.value == Stretch(HistoryOf(symbol), start, start + |reply.value|)
                && (fromId.Some? ==> start == IndexFrom(HistoryOf(symbol), fromId.value))
      ensures prompt ==>
                && reply.Some?
                && (|reply.value| < limit ==> start + |reply.value| == |HistoryOf(symbol)|)
                && (fromId.None? && limit > 0 && HistoryOf(symbol) != [] ==> reply.value != [])
    {
      var h := HistoryOf(symbol);
      var from: nat := if fromId.Some? then IndexFrom(h, fromId.value) else 0;
      if fromId.None? && h != [] {
        from :| 0 <= from < |h|;
      }
      var most := if |h| - from < limit then |h| - from else limit;
      var n: nat :| n <= most;
      start := from;
      var fails: bool := *;
      if prompt {
        reply := Some(Stretch(h, from, from + most));
      } else if fails {
        reply := None;
      } else {
        reply := Some(Stretch(h, from, from + n));
      }
      failures := failures + (if reply.None? then 1 else 0);
    }
  }

  // ----- what has been ingested -----

  /** The executions of `symbol` among `fills`, in order. */
  function Only(fills: seq<Fill>, symbol: string): seq<Fill> {
    if fills == [] then []
    else
      var last := fills[|fills| - 1];
      Only(fills[..|fills| - 1], symbol) + (if last.symbol == symbol then [last] else [])
  }

  lemma {:induction false} OnlyConcat(a: seq<Fill>, b: seq<Fill>, symbol: string)
    ensures Only(a + b, symbol) == Only(a, symbol) + Only(b, symbol)
    decreases |b|
  {
    if b == [] {
      assert a + b == a;
    } else {
      assert (a + b)[..|a + b| - 1] == a + b[..|b| - 1];
      OnlyConcat(a, b[..|b| - 1], symbol);
    }
  }

  lemma {:induction false} OnlyOfOne(fills: seq<Fill>, own: string, symbol: string)
    requires forall i :: 0 <= i < |fills| ==> fills[i].symbol == own
    ensures Only(fills, symbol) == if symbol == own then fills else []
  {
    if fills != [] {
      OnlyOfOne(fills[..|fills| - 1], own, symbol);
    }
  }

  /**
   * `fills` holds exactly the executions `from..upTo` of the symbol's history, each once and in order,
   * and the cursor stands on the last of them.
   */
  ghost predicate Ingested(h: seq<Fill>, fills: seq<Fill>, cursor: Option<int>, from: nat, upTo: nat) {
    && from <= upTo <= |h| && fills == Stretch(h, from, upTo)
    && (cursor.None? ==> from == upTo)
    && (cursor.Some? ==> 0 < upTo && cursor.value == h[upTo - 1].id)
  }

  /** The same, for some stretch of the history: nothing skipped and nothing doubled. */
  ghost predicate ExactlyOnce(h: seq<Fill>, fills: seq<Fill>, cursor: Option<int>) {
    exists from: nat, upTo: nat :: Ingested(h, fills, cursor, from, upTo)
  }

  function NextId(cursor: Option<int>): Option<int> {
    if cursor.Some? then Some(cursor.value + 1) else None
  }

  /** The highest id of a non-empty page. */
  function MaxId(page: seq<Fill>): int
    requires page != []
  {
    var last := page[|page| - 1].id;
    if |page| == 1 then last
    else
      var earlier := MaxId(page[..|page| - 1]);
      if earlier < last then last else earlier
  }

  lemma {:induction false} MaxIdIsLast(h: seq<Fill>, symbol: string, from: nat, upTo: nat)
    requires IsHistory(h, symbol) && from < upTo <= |h|
    ensures MaxId(Stretch(h, from, upTo)) == h[upTo - 1].id
    decreases upTo
  {
    if from < upTo - 1 {
      assert Stretch(h, from, upTo)[..upTo - from - 1] == Stretch(h, from, upTo - 1);
      MaxIdIsLast(h, symbol, from, upTo - 1);
      IdsIncrease(h, symbol, upTo - 2, upTo - 1);
    }
  }

  /** The cursor after a page: `Math.max(cursor ?? 0, ...ids)`; ids are positive. */
  function Advanced(cursor: Option<int>, page: seq<Fill>): Option<int> {
    if page == [] then cursor
    else
      var top := MaxId(page);
      var base := if cursor.Some? then cursor.value else 0;
      Some(if base < top then top else base)
  }

  lemma FirstPage(h: seq<Fill>, symbol: string, start: nat, end: nat)
    requires IsHistory(h, symbol) && start < end <= |h|
    ensures Ingested(h, Stretch(h, start, end), Advanced(None, Stretch(h, start, end)), start, end)
  {
    MaxIdIsLast(h, symbol, start, end);
    HistoryAt(h, symbol, end - 1);
  }

  lemma NextPage(h: seq<Fill>, symbol: string, cursor: int, from: nat, upTo: nat, end: nat)
    requires IsHistory(h, symbol) && from <= upTo < end <= |h| && 0 < upTo && cursor == h[upTo - 1].id
    ensures Ingested(h, Stretch(h, from, upTo) + Stretch(h, upTo, end), Advanced(Some(cursor), Stretch(h, upTo, end)),
                     from, end)
  {
    MaxIdIsLast(h, symbol, upTo, end);
    IdsIncrease(h, symbol, upTo - 1, end - 1);
    StretchJoin(h, from, upTo, end);
  }

  /** One non-empty page continues exactly where the cursor stands and moves it to the page's end. */
  lemma PageContinues(h: seq<Fill>, symbol: string, fills: seq<Fill>, cursor: Option<int>, start: nat, end: nat,
                      from: nat, upTo: nat)
    requires IsHistory(h, symbol) && Ingested(h, fills, cursor, from, upTo) && start < end <= |h|
    requires cursor.Some? ==> start == IndexFrom(h, cursor.value + 1)
    ensures Ingested(h, fills + Stretch(h, start, end), Advanced(cursor, Stretch(h, start, end)),
                     if cursor.Some? then from else start, end)
  {
    if cursor.Some? {
      IndexAfter(h, symbol, upTo - 1);
      NextPage(h, symbol, cursor.value, from, upTo, end);
    } else {
      FirstPage(h, symbol, start, end);
      assert fills + Stretch(h, start, end) == Stretch(h, start, end);
    }
  }

  // ----- money over syncs -----

  function TradePnl(trades: seq<Trade>, symbol: string): real {
    if trades == [] then 0.0
    else
      var last := trades[|trades| - 1];
      TradePnl(trades[..|trades| - 1], symbol) + (if last.symbol == symbol then last.pnl else 0.0)
  }

  lemma {:induction false} TradePnlConcat(a: seq<Trade>, b: seq<Trade>, symbol: string)
    ensures TradePnl(a + b, symbol) == TradePnl(a, symbol) + TradePnl(b, symbol)
    decreases |b|
  {
    if b == [] {
      assert a + b == a;
    } else {
      assert (a + b)[..|a + b| - 1] == a + b[..|b| - 1];
      TradePnlConcat(a, b[..|b| - 1], symbol);
    }
  }

  lemma {:induction false} TradesCarryJournaled(trades: seq<Trade>, closed: seq<Closed>, ownerOf: OwnerLookup,
                                                symbol: string)
    requires NonEmpty(closed) && IsTrades(trades, closed, ownerOf)
    ensures TradePnl(trades, symbol) == Journaled(closed, symbol)
    decreases |trades|
  {
    if trades != [] {
      TradesCarryJournaled(trades[..|trades| - 1], closed[..|closed| - 1], ownerOf, symbol);
    }
  }

  /** Everything the executions and funding lines moved on `symbol`. */
  function Flow(fills: seq<Fill>, funding: seq<Funding>, symbol: string): real {
    Sum(FillEvents(fills), FlowOf(symbol)) + Sum(FundingEvents(funding), FlowOf(symbol))
  }

  lemma FlowAdds(a: seq<Fill>, b: seq<Fill>, f: seq<Funding>, g: seq<Funding>, symbol: string)
    ensures Flow(a + b, f + g, symbol) == Flow(a, f, symbol) + Flow(b, g, symbol)
  {
    assert FillEvents(a + b) == FillEvents(a) + FillEvents(b);
    assert FundingEvents(f + g) == FundingEvents(f) + FundingEvents(g);
    SumConcat(FillEvents(a), FillEvents(b), FlowOf(symbol));
    SumConcat(FundingEvents(f), FundingEvents(g), FlowOf(symbol));
  }

  /** Journaled results and carried charges are all the money of what was ingested. */
  ghost predicate Conserves(booked: seq<Trade>, pending: map<string, real>, fills: seq<Fill>, funding: seq<Funding>,
                            symbol: string) {
    TradePnl(booked, symbol) + CarryOf(pending, symbol) == Flow(fills, funding, symbol)
  }

  lemma BuildConserves(booked: seq<Trade>, pending: map<string, real>, fills: seq<Fill>, funding: seq<Funding>,
                       more: seq<Fill>, moreFunding: seq<Funding>, trades: seq<Trade>, ownerOf: OwnerLookup,
                         symbol: string)
    requires Conserves(booked, pending, fills, funding, symbol)
    requires var built := Built(SortByTime(FillEvents(more) + FundingEvents(moreFunding)), pending);
             NonEmpty(built.closed) && IsTrades(trades, built.closed, ownerOf)
    ensures var built := Built(SortByTime(FillEvents(more) + FundingEvents(moreFunding)), pending);
            Conserves(booked + trades, built.carry, fills + more, funding + moreFunding, symbol)
  {
    var events := FillEvents(more) + FundingEvents(moreFunding);
    var built := Built(SortByTime(events), pending);
    MoneyIsConserved(SortByTime(events), pending, symbol);
    SortSum(events, FlowOf(symbol));
    SumConcat(FillEvents(more), FundingEvents(moreFunding), FlowOf(symbol));
    TradesCarryJournaled(trades, built.closed, ownerOf, symbol);
    TradePnlConcat(booked, trades, symbol);
    FlowAdds(fills, more, funding, moreFunding, symbol);
  }

  ghost predicate ConservesAll(booked: seq<Trade>, pending: map<string, real>, fills: seq<Fill>,
                               funding: seq<Funding>) {
    forall s: string :: Conserves(booked, pending, fills, funding, s)
  }

  lemma BuildConservesAll(booked: seq<Trade>, pending: map<string, real>, fills: seq<Fill>, funding: seq<Funding>,
                          more: seq<Fill>, moreFunding: seq<Funding>, trades: seq<Trade>, ownerOf: OwnerLookup)
    requires ConservesAll(booked, pending, fills, funding)
    requires var built := Built(SortByTime(FillEvents(more) + FundingEvents(moreFunding)), pending);
             NonEmpty(built.closed) && IsTrades(trades, built.closed, ownerOf)
    ensures var built := Built(SortByTime(FillEvents(more) + FundingEvents(moreFunding)), pending);
            ConservesAll(booked + trades, built.carry, fills + more, funding + moreFunding)
  {
    var built := Built(SortByTime(FillEvents(more) + FundingEvents(moreFunding)), pending);
    forall s: string ensures Conserves(booked + trades, built.carry, fills + more, funding + moreFunding, s) {
      BuildConserves(booked, pending, fills, funding, more, moreFunding, trades, ownerOf, s);
    }
  }

  lemma NewestOfNewest<T>(a: seq<T>, b: seq<T>, n: nat)
    ensures Newest(Newest(a, n) + b, n) == Newest(a + b, n)
  {}

  // ----- the journal -----

  class Journal {
    var cursors: map<string, int>
    var pending: map<string, real>
    var trades: seq<Trade>
    var syncedAt: int
    var fundingSince: int
    /** Every execution, funding line and trade committed so far. */
    ghost var fills: seq<Fill>
    ghost var funding: seq<Funding>
    ghost var booked: seq<Trade>
    /** Every funding question committed so far. */
    ghost var asked: seq<Asking>

    /** What was ingested is a stretch of each symbol's history, each execution once, up to the cursor. */
    ghost predicate Complete(venue: Venue)
      reads this
    {
      AllOnce(venue, fills, cursors)
    }

    /** No money is lost or invented, and the stored trades are the newest of all. */
    ghost predicate Balanced()
      reads this
    {
      && ConservesAll(booked, pending, fills, funding)
      && trades == Newest(booked, KEEP_TRADES)
    }

    /**
     * The funding ingested is what the committed questions were answered, each asked from the stamp of the one before.
     */
    ghost predicate Asked(venue: Venue)
      reads this
    {
      Ledger(venue.lines, asked, funding, fundingSince)
    }

    constructor (venue: Venue)
      ensures Complete(venue) && Balanced() && Asked(venue)
      ensures fills == [] && booked == [] && asked == [] && syncedAt == 0
      ensures forall at, maxAge :: !IsFresh(at, maxAge)
    {
      cursors, pending, trades, syncedAt, fundingSince := map[], map[], [], 0, 0;
      fills, funding, booked, asked := [], [], [], [];
      new;
      forall s: string ensures ExactlyOnce(venue.HistoryOf(s), [], None) {
        assert Ingested(venue.HistoryOf(s), [], None, 0, 0);
      }
      assert FillEvents([]) == [] && FundingEvents([]) == [];
    }

    /** Never before the first success (liveJournal.ts:155-157). */
    predicate IsFresh(now: int, maxAge: int)
      reads this
    {
      syncedAt > 0 && now - syncedAt <= maxAge
    }

    /** Where the next funding question starts (liveJournal.ts:180). */
    function Since(now: int): int
      reads this
    {
      if fundingSince > 0 then fundingSince else now - FUNDING_LOOKBACK_MS
    }

    /**
     * `sync` (liveJournal.ts:167-194), asking for funding at `asking`, answered at `answered`, committing at `now`. Any
     * failed call leaves the journal as it was, and as fresh; when every call is answered it commits the new
     * executions, each exactly once, and the funding lines answered, stays balanced and is fresh from then on. The
     * first funding question goes back a week, a later one to the stamp of the one before.
     */
    method Sync(venue: Venue, symbols: seq<string>, ownerOf: OwnerLookup, asking: int, answered: int, now: int)
        returns (ok: bool)
      requires venue.Valid() && Complete(venue) && Balanced() && Asked(venue)
      requires 0 < asking <= answered <= now && fundingSince <= asking
      modifies this, venue`failures
      ensures Complete(venue) && Balanced() && Asked(venue)
      ensures old(fills) <= fills && old(booked) <= booked
      ensures !ok ==> unchanged(this)
      ensures ok <==> venue.failures == old(venue.failures)
      ensures forall at, maxAge :: IsFresh(at, maxAge) <==> if ok then at <= now + maxAge else old(IsFresh(at, maxAge))
      ensures ok ==>
                && |asked| == |old(asked)| + 1
                && asked[|old(asked)|].since == if old(fundingSince) <= 0 then asking - 7 * 24 * 60 * 60 * 1000
                                                else old(fundingSince)
      ensures ok ==>
                && syncedAt == now && fundingSince == now
                && asked == old(asked) + [Asking(old(Since(asking)), answered, now)]
      ensures venue.prompt ==> ok && CaughtUp(venue, symbols, cursors)
    {
      var pulled, newFills, newCursors := Pull(venue, symbols, cursors, fills);
      if !pulled {
        return false;
      }
      var funded := venue.FundingFees(Since(asking), PAGE, answered);
      if funded.None? {
        return false;
      }
      var built, carry := Build(newFills, funded.value, ownerOf, pending, booked, fills, funding);
      ghost var question := Asking(Since(asking), answered, now);
      LedgerGrows(venue.lines, asked, funding, fundingSince, question);
      Commit(venue, newFills, newCursors, funded.value, question, built, carry, now);
      ok := true;
    }

    /** Replaces the state in one go (liveJournal.ts:183-191). */
    method Commit(ghost venue: Venue, ghost newFills: seq<Fill>, newCursors: map<string, int>,
                  ghost newFunding: seq<Funding>,
                  ghost a: Asking, built: seq<Trade>, carry: map<string, real>, now: int)
      requires AllOnce(venue, fills + newFills, newCursors) && trades == Newest(booked, KEEP_TRADES)
      requires ConservesAll(booked + built, carry, fills + newFills, funding + newFunding)
      requires Ledger(venue.lines, asked + [a], funding + newFunding, now)
      modifies this
      ensures Complete(venue) && Balanced() && Asked(venue)
      ensures fills == old(fills) + newFills && booked == old(booked) + built && asked == old(asked) + [a]
      ensures cursors == newCursors && pending == carry && syncedAt == now && fundingSince == now
    {
      NewestOfNewest(booked, built, KEEP_TRADES);
      trades := Newest(trades + built, KEEP_TRADES);
      cursors, pending, syncedAt, fundingSince := newCursors, carry, now, now;
      fills, booked := fills + newFills, booked + built;
      funding, asked := funding + newFunding, asked + [a];
    }
  }

  ghost predicate AllOnce(venue: Venue, fills: seq<Fill>, cursors: map<string, int>) {
    forall s: string :: ExactlyOnce(venue.HistoryOf(s), Only(fills, s), Get(cursors, s))
  }

  lemma OnlyPulled(fills: seq<Fill>, page: seq<Fill>, symbol: string, s: string)
    requires AllOf(page, symbol)
    ensures Only(fills + page, s) == if s == symbol then Only(fills, s) + page else Only(fills, s)
  {
    OnlyConcat(fills, page, s);
    OnlyOfOne(page, symbol, s);
    if s != symbol {
      assert Only(fills, s) + [] == Only(fills, s);
    }
  }

  /** Reconstructs the new trades and keeps the books balanced over everything ingested. */
  method Build(fills: seq<Fill>, funding: seq<Funding>, ownerOf: OwnerLookup, pending: map<string, real>,
               ghost booked: seq<Trade>, ghost oldFills: seq<Fill>, ghost oldFunding: seq<Funding>)
      returns (trades: seq<Trade>, carry: map<string, real>)
    requires ConservesAll(booked, pending, oldFills, oldFunding)
    ensures ConservesAll(booked + trades, carry, oldFills + fills, oldFunding + funding)
  {
    var unpriced;
    trades, unpriced, carry := ClosedTradesFromFills(fills, funding, ownerOf, pending);
    BuildConservesAll(booked, pending, oldFills, oldFunding, fills, funding, trades, ownerOf);
  }

  function MovedTo(cursors: map<string, int>, symbol: string, cursor: Option<int>): map<string, int> {
    if cursor.Some? then cursors[symbol := cursor.value] else cursors
  }

  /** Adding what was pulled for one symbol leaves the other symbols alone. */
  lemma AllOnceExtends(venue: Venue, fills: seq<Fill>, cursors: map<string, int>, symbol: string, page: seq<Fill>,
                       cursor: Option<int>)
    requires AllOnce(venue, fills, cursors) && AllOf(page, symbol)
    requires ExactlyOnce(venue.HistoryOf(symbol), Only(fills, symbol) + page, cursor)
    requires symbol in cursors ==> cursor.Some?
    ensures AllOnce(venue, fills + page, MovedTo(cursors, symbol, cursor))
  {
    var next := MovedTo(cursors, symbol, cursor);
    forall s: string ensures ExactlyOnce(venue.HistoryOf(s), Only(fills + page, s), Get(next, s)) {
      OnlyPulled(fills, page, symbol, s);
      assert ExactlyOnce(venue.HistoryOf(s), Only(fills, s), Get(cursors, s));
      assert Get(next, s) == if s == symbol then cursor else Get(cursors, s);
    }
  }

  /** Nothing of the symbols' histories lies behind their cursors any more. */
  ghost predicate CaughtUp(venue: Venue, symbols: seq<string>, cursors: map<string, int>) {
    forall k :: 0 <= k < |symbols| ==> Left(venue.HistoryOf(symbols[k]), Get(cursors, symbols[k])) == 0
  }

  lemma CaughtUpNext(venue: Venue, symbols: seq<string>, i: nat, cursors: map<string, int>, cursor: Option<int>)
    requires i < |symbols| && CaughtUp(venue, symbols[..i], cursors)
    requires Left(venue.HistoryOf(symbols[i]), cursor) == 0 && (symbols[i] in cursors ==> cursor.Some?)
    ensures CaughtUp(venue, symbols[..i + 1], MovedTo(cursors, symbols[i], cursor))
  {
    var next := MovedTo(cursors, symbols[i], cursor);
    forall k | 0 <= k < i + 1 ensures Left(venue.HistoryOf(symbols[k]), Get(next, symbols[k])) == 0 {
      if symbols[k] == symbols[i] {
        assert Get(next, symbols[k]) == cursor;
      } else {
        assert symbols[..i][k] == symbols[k] && Get(next, symbols[k]) == Get(cursors, symbols[k]);
      }
    }
  }

  /** The paging loop over the symbols (liveJournal.ts:170-179). */
  method Pull(venue: Venue, symbols: seq<string>, cursors: map<string, int>, ghost before: seq<Fill>)
      returns (ok: bool, fills: seq<Fill>, next: map<string, int>)
    requires venue.Valid() && AllOnce(venue, before, cursors)
    modifies venue`failures
    ensures venue.failures >= old(venue.failures) && (ok <==> venue.failures == old(venue.failures))
    ensures ok ==> AllOnce(venue, before + fills, next)
    ensures venue.prompt ==> ok && CaughtUp(venue, symbols, next)
  {
    ok, fills, next := true, [], cursors;
    assert before + [] == before;
    ghost var seen := before;
    for i := 0 to |symbols|
      invariant ok && seen == before + fills && AllOnce(venue, seen, next) && venue.failures == old(venue.failures)
      invariant venue.prompt ==> CaughtUp(venue, symbols[..i], next)
    {
      var symbol := symbols[i];
      assert ExactlyOnce(venue.HistoryOf(symbol), Only(seen, symbol), Get(next, symbol));
      var done, page, cursor := PullSymbol(venue, symbol, Get(next, symbol), Only(seen, symbol));
      if !done {
        return false, fills, next;
      }
      AllOnceExtends(venue, seen, next, symbol, page, cursor);
      ConcatAssoc(before, fills, page);
      seen := seen + page;
      fills := fills + page;
      if venue.prompt { CaughtUpNext(venue, symbols, i, next, cursor); }
      next := MovedTo(next, symbol, cursor);
    }
    assert symbols[..|symbols|] == symbols;
  }

  ghost predicate AllOf(fills: seq<Fill>, symbol: string) {
    forall k :: 0 <= k < |fills| ==> fills[k].symbol == symbol
  }

  lemma AllOfConcat(a: seq<Fill>, b: seq<Fill>, symbol: string)
    requires AllOf(a, symbol) && AllOf(b, symbol)
    ensures AllOf(a + b, symbol)
  {}

  lemma ConcatAssoc(a: seq<Fill>, b: seq<Fill>, c: seq<Fill>)
    ensures a + (b + c) == (a + b) + c
  {}

  lemma StretchIsOwn(h: seq<Fill>, symbol: string, start: nat, end: nat)
    requires IsHistory(h, symbol) && start <= end <= |h|
    ensures AllOf(Stretch(h, start, end), symbol)
  {
    forall k | start <= k < end ensures h[k].symbol == symbol {
      HistoryAt(h, symbol, k);
    }
  }

  /** Asks for one page and moves the cursor over it. */
  method OnePage(venue: Venue, symbol: string, cursor: Option<int>, ghost seen: seq<Fill>)
      returns (page: Option<seq<Fill>>, next: Option<int>)
    requires venue.Valid() && ExactlyOnce(venue.HistoryOf(symbol), seen, cursor)
    modifies venue`failures
    ensures venue.failures == old(venue.failures) + (if page.None? then 1 else 0)
    ensures page.None? ==> next == cursor
    ensures page.Some? ==>
              && ExactlyOnce(venue.HistoryOf(symbol), seen + page.value, next) && AllOf(page.value, symbol)
              && (cursor.Some? ==> next.Some?)
              && (page.value != [] ==>
                  next.Some? && Left(venue.HistoryOf(symbol), next) < Left(venue.HistoryOf(symbol), cursor))
    ensures venue.prompt ==> page.Some? && (|page.value| < PAGE ==> Left(venue.HistoryOf(symbol), next) == 0)
  {
    ghost var start;
    page, start := venue.AccountTrades(symbol, NextId(cursor), PAGE);
    next := cursor;
    if page.Some? {
      ghost var h, end := venue.HistoryOf(symbol), start + |page.value|;
      PageTaken(h, symbol, seen, cursor, start, end);
      if page.value != [] {
        next := Advanced(cursor, page.value);
      }
    }
  }

  /** What one page adds, and what is left behind the cursor afterwards. */
  lemma PageTaken(h: seq<Fill>, symbol: string, seen: seq<Fill>, cursor: Option<int>, start: nat, end: nat)
    requires IsHistory(h, symbol) && ExactlyOnce(h, seen, cursor) && start <= end <= |h|
    requires cursor.Some? ==> start == IndexFrom(h, cursor.value + 1)
    ensures var next := if start < end then Some(h[end - 1].id) else cursor;
            && (start < end ==> Advanced(cursor, Stretch(h, start, end)) == next && Left(h, next) < Left(h, cursor))
            && ExactlyOnce(h, seen + Stretch(h, start, end), next)
            && (end == |h| && (cursor.Some? || start < end || h == []) ==> Left(h, next) == 0)
    ensures AllOf(Stretch(h, start, end), symbol)
  {
    StretchIsOwn(h, symbol, start, end);
    if start < end {
      PageMoves(h, symbol, seen, cursor, start, end);
    } else {
      assert seen + Stretch(h, start, end) == seen;
    }
  }

  /** One page, moved over: what it adds, and what is left behind the cursor afterwards. */
  lemma PageMoves(h: seq<Fill>, symbol: string, seen: seq<Fill>, cursor: Option<int>, start: nat, end: nat)
    requires IsHistory(h, symbol) && ExactlyOnce(h, seen, cursor) && start < end <= |h|
    requires cursor.Some? ==> start == IndexFrom(h, cursor.value + 1)
    ensures Advanced(cursor, Stretch(h, start, end)) == Some(h[end - 1].id)
    ensures ExactlyOnce(h, seen + Stretch(h, start, end), Some(h[end - 1].id))
    ensures Left(h, Some(h[end - 1].id)) < Left(h, cursor) && (end == |h| ==> Left(h, Some(h[end - 1].id)) == 0)
  {
    PageFits(h, symbol, seen, cursor, start, end);
    LessIsLeft(h, symbol, cursor, start, end);
  }

  /** How much of the history lies behind the cursor's next position. */
  function Left(h: seq<Fill>, cursor: Option<int>): (n: nat)
    ensures n <= |h|
  {
    if cursor.None? then |h| else |h| - IndexFrom(h, cursor.value + 1)
  }

  /** Pages one symbol until a short page (liveJournal.ts:171-178). */
  method PullSymbol(venue: Venue, symbol: string, cursor: Option<int>, ghost before: seq<Fill>)
      returns (ok: bool, fills: seq<Fill>, next: Option<int>)
    requires venue.Valid() && ExactlyOnce(venue.HistoryOf(symbol), before, cursor)
    modifies venue`failures
    ensures venue.failures >= old(venue.failures) && (ok <==> venue.failures == old(venue.failures))
    ensures ok ==> ExactlyOnce(venue.HistoryOf(symbol), before + fills, next)
    ensures cursor.Some? ==> next.Some?
    ensures AllOf(fills, symbol)
    ensures venue.prompt ==> ok && Left(venue.HistoryOf(symbol), next) == 0
  {
    ok, fills, next := true, [], cursor;
    assert before + [] == before;
    ghost var seen := before;
    while true
      invariant ok && seen == before + fills && ExactlyOnce(venue.HistoryOf(symbol), seen, next) && AllOf(fills, symbol)
      invariant (cursor.Some? ==> next.Some?) && venue.failures == old(venue.failures)
      decreases Left(venue.HistoryOf(symbol), next)
    {
      var page, after := OnePage(venue, symbol, next, seen);
      if page.None? {
        return false, fills, next;
      }
      if |page.value| < PAGE && venue.prompt { assert Left(venue.HistoryOf(symbol), after) == 0; }
      ConcatAssoc(before, fills, page.value);
      AllOfConcat(fills, page.value, symbol);
      seen := seen + page.value;
      fills, next := fills + page.value, after;
      if |page.value| < PAGE {
        break;
      }
    }
  }

  /** A cursor moved to a page's end leaves less of the history to read. */
  lemma LessIsLeft(h: seq<Fill>, symbol: string, before: Option<int>, start: nat, end: nat)
    requires IsHistory(h, symbol) && start < end <= |h|
    requires before.Some? ==> start == IndexFrom(h, before.value + 1)
    ensures Left(h, Some(h[end - 1].id)) < Left(h, before) && (end == |h| ==> Left(h, Some(h[end - 1].id)) == 0)
  {
    IndexAfter(h, symbol, end - 1);
  }

  /** What one page does to the loop's state. */
  lemma PageFits(h: seq<Fill>, symbol: string, fills: seq<Fill>, next: Option<int>, start: nat, end: nat)
    requires IsHistory(h, symbol) && ExactlyOnce(h, fills, next) && start <= end <= |h|
    requires next.Some? ==> start == IndexFrom(h, next.value + 1)
    ensures ExactlyOnce(h, fills + Stretch(h, start, end), Advanced(next, Stretch(h, start, end)))
    ensures start < end ==> Advanced(next, Stretch(h, start, end)) == Some(h[end - 1].id)
  {
    var from: nat, upTo: nat :| Ingested(h, fills, next, from, upTo);
    if start == end {
      assert fills + Stretch(h, start, end) == fills;
    } else {
      PageContinues(h, symbol, fills, next, start, end, from, upTo);
    }
  }
}
