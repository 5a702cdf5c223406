/** Which funding lines the live journal counts: src/binance/liveJournal.ts:180-191. */
module JournalFunding {
  import opened LiveJournal

  const PAGE: nat := 1000

  ghost predicate InTimeOrder(lines: seq<Funding>) {
    forall i, j :: 0 <= i < j < |lines| ==> lines[i].time <= lines[j].time
  }

  /** How many lines settled before `time`: the first at or after it. */
  function Before(lines: seq<Funding>, time: int): (n: nat)
    ensures n <= |lines|
  {
    if lines == [] then 0
    else if lines[|lines| - 1].time < time then |lines|
    else Before(lines[..|lines| - 1], time)
  }

  lemma {:induction false} BeforeSplits(lines: seq<Funding>, time: int, i: nat)
    requires InTimeOrder(lines) && i < |lines|
    ensures i < Before(lines, time) <==> lines[i].time < time
  {
    if lines[|lines| - 1].time >= time && i < |lines| - 1 {
      BeforeSplits(lines[..|lines| - 1], time, i);
    }
  }

  /** The lines of one answer, as positions of the venue's history. */
  datatype Span = Span(lo: nat, hi: nat)

  predicate Fits(span: Span, n: nat) {
    span.lo <= span.hi <= n
  }

  function Lines(lines: seq<Funding>, span: Span): seq<Funding>
    requires Fits(span, |lines|)
  {
    lines[span.lo..span.hi]
  }

  function Window(lines: seq<Funding>, since: int, answered: int, limit: nat): (w: Span)
    ensures Fits(w, |lines|)
  {
    var lo, settled := Before(lines, since), Before(lines, answered + 1);
    var hi := if settled < lo then lo else settled;
    Span(lo, if hi - lo <= limit then hi else lo + limit)
  }

  lemma BeforeGrows(lines: seq<Funding>, a: int, b: int)
    requires InTimeOrder(lines) && a <= b
    ensures Before(lines, a) <= Before(lines, b)
  {
    if Before(lines, b) < Before(lines, a) {
      BeforeSplits(lines, a, Before(lines, b));
      BeforeSplits(lines, b, Before(lines, b));
    }
  }

  /** Later questions answered later neither start nor end earlier. */
  lemma WindowsAdvance(lines: seq<Funding>, since: int, answered: int, next: int, answeredNext: int, limit: nat)
    requires InTimeOrder(lines) && since <= next && answered <= answeredNext
    ensures var a, b := Window(lines, since, answered, limit), Window(lines, next, answeredNext, limit);
            a.lo <= b.lo && a.hi <= b.hi
  {
    BeforeGrows(lines, since, next);
    BeforeGrows(lines, answered + 1, answeredNext + 1);
  }

  /** A question asked, answered and stamped: the clock is read again when the answer is committed. */
  datatype Asking = Asking(since: int, answered: int, stamp: int)

  function Answer(lines: seq<Funding>, a: Asking): Span {
    Window(lines, a.since, a.answered, PAGE)
  }

  /** Of the lines asked for, the answer holds exactly those settled before the stamp the next question starts from. */
  ghost predicate Seamless(lines: seq<Funding>, a: Asking) {
    forall i :: 0 <= i < |lines| && a.since <= lines[i].time ==> (i < Answer(lines, a).hi <==> lines[i].time < a.stamp)
  }

  lemma SeamlessJoins(lines: seq<Funding>, a: Asking)
    requires InTimeOrder(lines) && a.since <= a.stamp
    ensures Seamless(lines, a) <==> Answer(lines, a).hi == Before(lines, a.stamp)
  {
    var hi, next := Answer(lines, a).hi, Before(lines, a.stamp);
    BeforeGrows(lines, a.since, a.stamp);
    if hi == next {
      forall i: nat | i < |lines| ensures i < hi <==> lines[i].time < a.stamp {
        BeforeSplits(lines, a.stamp, i);
      }
    } else {
      var odd := if hi < next then hi else next;
      BeforeSplits(lines, a.stamp, odd);
      BeforeSplits(lines, a.since, odd);
      assert a.since <= lines[odd].time && !(odd < hi <==> lines[odd].time < a.stamp);
    }
  }

  /** No line settled between the answer and the stamp, nor on both at once. */
  ghost predicate NoneBetween(lines: seq<Funding>, a: Asking) {
    forall i :: 0 <= i < |lines| ==>
      !(a.answered < lines[i].time < a.stamp) && !(lines[i].time == a.answered == a.stamp)
  }

  /** The page held everything settled by the answer. */
  ghost predicate Uncut(lines: seq<Funding>, a: Asking) {
    Before(lines, a.answered + 1) - Before(lines, a.since) <= PAGE
  }

  lemma UncutAnswers(lines: seq<Funding>, a: Asking, i: nat)
    requires InTimeOrder(lines) && a.since <= a.answered && Uncut(lines, a) && i < |lines|
    ensures i < Answer(lines, a).hi <==> lines[i].time <= a.answered
  {
    BeforeGrows(lines, a.since, a.answered + 1);
    BeforeSplits(lines, a.answered + 1, i);
  }

  /**
   * In the caller's terms: unless the page is cut, that is so if and only if no line settled between the answer and the
   * stamp, nor on both at once.
   */
  lemma SeamlessIff(lines: seq<Funding>, a: Asking)
    requires InTimeOrder(lines) && a.since <= a.answered <= a.stamp && Uncut(lines, a)
    ensures Seamless(lines, a) <==> NoneBetween(lines, a)
  {
    var hi := Answer(lines, a).hi;
    forall i: nat | i < |lines| ensures i < hi <==> lines[i].time <= a.answered {
      UncutAnswers(lines, a, i);
    }
  }

  /** How many of the answers hold line `i`. */
  function Times(spans: seq<Span>, i: int): nat {
    if spans == [] then 0
    else Times(spans[..|spans| - 1], i) + (if spans[|spans| - 1].lo <= i < spans[|spans| - 1].hi then 1 else 0)
  }

  ghost predicate Advancing(spans: seq<Span>, n: nat) {
    && (forall k :: 0 <= k < |spans| ==> Fits(spans[k], n))
    && (forall k :: 0 < k < |spans| ==> spans[k - 1].lo <= spans[k].lo && spans[k - 1].hi <= spans[k].hi)
  }

  /** Every answer starts where the one before ended. */
  ghost predicate Chained(spans: seq<Span>) {
    forall k :: 0 < k < |spans| ==> spans[k].lo == spans[k - 1].hi
  }

  /** Each line from the first answer's start to the last one's end was ingested exactly once. */
  ghost predicate CountedOnce(spans: seq<Span>) {
    spans != [] ==> forall i :: spans[0].lo <= i < spans[|spans| - 1].hi ==> Times(spans, i) == 1
  }

  lemma {:induction false} NotYet(spans: seq<Span>, n: nat, i: int)
    requires Advancing(spans, n) && (spans != [] ==> spans[|spans| - 1].hi <= i)
    ensures Times(spans, i) == 0
  {
    if spans != [] {
      NotYet(spans[..|spans| - 1], n, i);
    }
  }

  lemma {:induction false} FirstIsLow(spans: seq<Span>, n: nat, k: nat)
    requires Advancing(spans, n) && k < |spans|
    ensures spans[0].lo <= spans[k].lo && spans[0].hi <= spans[k].hi
  {
    if k > 0 {
      FirstIsLow(spans, n, k - 1);
    }
  }

  /** A gap would hold a line of no answer, an overlap one of two. */
  lemma Disjointed(spans: seq<Span>, n: nat)
    requires Advancing(spans, n) && |spans| > 1 && spans[|spans| - 1].lo != spans[|spans| - 2].hi
    ensures !CountedOnce(spans)
  {
    var init, last, before := spans[..|spans| - 1], spans[|spans| - 1], spans[|spans| - 2];
    FirstIsLow(spans, n, |spans| - 2);
    var odd := if before.hi < last.lo then before.hi else last.lo;
    if before.hi < last.lo {
      NotYet(init, n, odd);
    } else {
      assert Times(init, odd) >= 1;
    }
    assert spans[0].lo <= odd < last.hi && Times(spans, odd) != 1;
  }

  /** Joining one more answer at the end of the last. */
  lemma JoiningCounts(spans: seq<Span>, n: nat)
    requires Advancing(spans, n) && |spans| > 1 && spans[|spans| - 1].lo == spans[|spans| - 2].hi
    ensures CountedOnce(spans) <==> CountedOnce(spans[..|spans| - 1])
  {
    var init, last := spans[..|spans| - 1], spans[|spans| - 1];
    FirstIsLow(spans, n, |spans| - 2);
    forall i | last.lo <= i < last.hi ensures Times(spans, i) == 1 {
      NotYet(init, n, i);
    }
    forall i | i < last.lo ensures Times(spans, i) == Times(init, i) {}
  }

  lemma ChainedLast(spans: seq<Span>)
    requires |spans| > 1
    ensures Chained(spans) <==> Chained(spans[..|spans| - 1]) && spans[|spans| - 1].lo == spans[|spans| - 2].hi
  {
    var init := spans[..|spans| - 1];
    if Chained(init) && spans[|spans| - 1].lo == spans[|spans| - 2].hi {
      forall k | 0 < k < |spans| ensures spans[k].lo == spans[k - 1].hi {
        if k < |spans| - 1 { assert init[k].lo == init[k - 1].hi; }
      }
    }
    if Chained(spans) {
      forall k | 0 < k < |init| ensures init[k].lo == init[k - 1].hi {
        assert spans[k].lo == spans[k - 1].hi;
      }
    }
  }

  lemma {:induction false} OnceIffChained(spans: seq<Span>, n: nat)
    requires Advancing(spans, n)
    ensures CountedOnce(spans) <==> Chained(spans)
  {
    if |spans| > 1 {
      ChainedLast(spans);
      if spans[|spans| - 1].lo == spans[|spans| - 2].hi {
        OnceIffChained(spans[..|spans| - 1], n);
        JoiningCounts(spans, n);
      } else {
        Disjointed(spans, n);
      }
    } else if |spans| == 1 {
      assert spans[..0] == [];
      forall i | spans[0].lo <= i < spans[0].hi ensures Times(spans, i) == 1 {}
    }
  }

  /** The answers one after the other. */
  function Joined(lines: seq<Funding>, spans: seq<Span>): seq<Funding>
    requires forall k :: 0 <= k < |spans| ==> Fits(spans[k], |lines|)
  {
    if spans == [] then [] else Joined(lines, spans[..|spans| - 1]) + Lines(lines, spans[|spans| - 1])
  }

  /** Chained answers are one unbroken stretch of the venue's lines. */
  lemma {:induction false} ChainedIsOneStretch(lines: seq<Funding>, spans: seq<Span>)
    requires spans != [] && Advancing(spans, |lines|) && Chained(spans)
    ensures spans[0].lo <= spans[|spans| - 1].hi && Joined(lines, spans) == lines[spans[0].lo..spans[|spans| - 1].hi]
  {
    if |spans| > 1 {
      ChainedLast(spans);
      ChainedIsOneStretch(lines, spans[..|spans| - 1]);
    } else {
      assert Joined(lines, spans[..0]) == [];
    }
  }

  // ----- over a run of syncs -----

  /** Each question starts at the stamp of the one before, and is answered and stamped after it was asked. */
  ghost predicate Sequenced(asked: seq<Asking>) {
    && (forall k :: 0 <= k < |asked| ==> 0 < asked[k].stamp && asked[k].since <= asked[k].answered <= asked[k].stamp)
    && (forall k :: 0 < k < |asked| ==> asked[k].since == asked[k - 1].stamp)
  }

  function Answers(lines: seq<Funding>, asked: seq<Asking>): (spans: seq<Span>)
    ensures |spans| == |asked| && forall k :: 0 <= k < |spans| ==> Fits(spans[k], |lines|)
  {
    seq(|asked|, k requires 0 <= k < |asked| => Answer(lines, asked[k]))
  }

  /**
   * `funding` is what the questions asked so far were answered, and the next one starts at `since`, if there was one.
   */
  ghost predicate Ledger(lines: seq<Funding>, asked: seq<Asking>, funding: seq<Funding>, since: int) {
    && Sequenced(asked) && funding == Joined(lines, Answers(lines, asked))
    && (if asked == [] then since == 0 else since == asked[|asked| - 1].stamp)
  }

  lemma LedgerGrows(lines: seq<Funding>, asked: seq<Asking>, funding: seq<Funding>, since: int, a: Asking)
    requires Ledger(lines, asked, funding, since)
    requires 0 < a.stamp && a.since <= a.answered <= a.stamp && (since > 0 ==> a.since == since)
    ensures Ledger(lines, asked + [a], funding + Lines(lines, Answer(lines, a)), a.stamp)
  {
    assert Answers(lines, asked + [a])[..|asked|] == Answers(lines, asked);
  }

  lemma AnswersAdvance(lines: seq<Funding>, asked: seq<Asking>)
    requires InTimeOrder(lines) && Sequenced(asked)
    ensures Advancing(Answers(lines, asked), |lines|)
  {
    var spans := Answers(lines, asked);
    forall k | 0 < k < |asked| ensures spans[k - 1].lo <= spans[k].lo && spans[k - 1].hi <= spans[k].hi {
      WindowsAdvance(lines, asked[k - 1].since, asked[k - 1].answered, asked[k].since, asked[k].answered, PAGE);
    }
  }

  /** Every answer but the last held exactly the lines settled before its stamp. */
  ghost predicate AllSeamless(lines: seq<Funding>, asked: seq<Asking>) {
    forall k :: 0 <= k < |asked| - 1 ==> Seamless(lines, asked[k])
  }

  lemma SeamlessIsChained(lines: seq<Funding>, asked: seq<Asking>)
    requires InTimeOrder(lines) && Sequenced(asked)
    ensures AllSeamless(lines, asked) <==> Chained(Answers(lines, asked))
  {
    var spans := Answers(lines, asked);
    forall k | 0 < k < |asked| ensures Seamless(lines, asked[k - 1]) <==> spans[k].lo == spans[k - 1].hi {
      SeamlessJoins(lines, asked[k - 1]);
    }
    if AllSeamless(lines, asked) {
      forall k | 0 < k < |asked| ensures spans[k].lo == spans[k - 1].hi {
        assert Seamless(lines, asked[k - 1]);
      }
    }
    if Chained(spans) {
      forall k | 0 <= k < |asked| - 1 ensures Seamless(lines, asked[k]) {
        assert spans[k + 1].lo == spans[k].hi;
        assert Seamless(lines, asked[k + 1 - 1]);
      }
    }
  }

  /**
   * Main result: over all the syncs committed, each funding line was counted exactly once if and only if every answer
   * but the last held exactly the lines settled before its stamp; what was counted is then one unbroken stretch of the
   * lines.
   */
  lemma FundingCountedOnce(lines: seq<Funding>, asked: seq<Asking>, funding: seq<Funding>, since: int)
    requires InTimeOrder(lines) && Ledger(lines, asked, funding, since) && asked != []
    ensures var spans := Answers(lines, asked);
            && (CountedOnce(spans) <==> AllSeamless(lines, asked))
            && (CountedOnce(spans) ==>
                  && spans[0].lo <= spans[|spans| - 1].hi
                  && funding == lines[spans[0].lo..spans[|spans| - 1].hi])
  {
    var spans := Answers(lines, asked);
    AnswersAdvance(lines, asked);
    OnceIffChained(spans, |lines|);
    SeamlessIsChained(lines, asked);
    if CountedOnce(spans) {
      ChainedIsOneStretch(lines, spans);
    }
  }
}
