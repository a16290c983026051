/** Draining /transactions/sync: one attempt accumulates pages along a chain of cursors, a
    retryable failure restarts from the original cursor, attempts and waits are bounded. */
module Pagination {
  import opened Wrappers
  import opened Records
  import opened Ledger

  datatype Class = ClassError | ClassRetryable | ClassNeedsReauth | ClassFatal | ClassCanceled

  /** An error of the Plaid client, as far as the engine looks at it. */
  datatype Failure = Failure(kind: Class, code: string)

  datatype Page = Page(added: seq<Txn>, modified: seq<Txn>, removed: seq<Id>, next: string, hasMore: bool,
    updateStatus: string)

  datatype Answer = Got(page: Page) | Refused(failure: Failure)

  /** The in-memory state of one attempt. */
  datatype Accumulated = Accumulated(upserts: seq<Txn>, removed: seq<Id>, next: string, pages: nat,
                                     added: nat, modified: nat, removals: nat, updateStatus: string)

  const NO_PAGES := Accumulated([], [], "", 0, 0, 0, 0, "")

  const EMPTY_CURSOR := Failure(ClassFatal, "EMPTY_CURSOR_WITH_HAS_MORE")

  function Absorb(a: Accumulated, p: Page): Accumulated {
    Accumulated(a.upserts + p.added + p.modified, a.removed + p.removed, p.next, a.pages + 1,
                a.added + |p.added|, a.modified + |p.modified|, a.removals + |p.removed|, p.updateStatus)
  }

  function AbsorbAll(pages: seq<Page>): Accumulated {
    if pages == [] then NO_PAGES else Absorb(AbsorbAll(pages[..|pages| - 1]), pages[|pages| - 1])
  }

  /** The counts of an attempt are those of its pages. */
  lemma {:induction false} AbsorbedCounts(pages: seq<Page>)
    ensures var a := AbsorbAll(pages);
            && a.pages == |pages| && |a.upserts| == a.added + a.modified && |a.removed| == a.removals
            && (pages == [] ==> a.next == "" && a.updateStatus == "")
            && (pages != [] ==>
                  var last := pages[|pages| - 1];
                  var before := AbsorbAll(pages[..|pages| - 1]);
                  && a.next == last.next && a.updateStatus == last.updateStatus
                  && a.added == before.added + |last.added| && a.modified == before.modified + |last.modified|)
  {
    if pages != [] { AbsorbedCounts(pages[..|pages| - 1]); }
  }

  /** One attempt: the cursors it asked with, the pages it got, and the failure that ended
      it, if any. */
  datatype Attempt = Attempt(asked: seq<string>, pages: seq<Page>, ending: Option<Failure>)

  /** The cursor a chain asks with after i pages. */
  function CursorAfter(orig: string, pages: seq<Page>, i: nat): string
    requires i <= |pages|
  {
    if i == 0 then orig else pages[i - 1].next
  }

  /** Every request carries the cursor of the page before it, the first one the original. */
  ghost predicate Chained(orig: string, a: Attempt) {
    && |a.pages| <= |a.asked|
    && (forall i :: 0 <= i < |a.asked| ==> i <= |a.pages| && a.asked[i] == CursorAfter(orig, a.pages, i))
    && (forall i :: 0 <= i < |a.pages| - 1 ==> a.pages[i].hasMore && a.pages[i].next != "")
  }

  /** A finished chain: every request was answered and the last page is the last. */
  ghost predicate Complete(orig: string, a: Attempt) {
    && Chained(orig, a) && a.ending.None?
    && |a.asked| == |a.pages| > 0 && !a.pages[|a.pages| - 1].hasMore
  }

  /** A broken chain: the request after the last page was refused, or the last page promised
      more without a cursor to ask with. */
  ghost predicate Broken(orig: string, a: Attempt) {
    && Chained(orig, a) && a.ending.Some?
    && (if |a.asked| > |a.pages| then
          && |a.asked| == |a.pages| + 1
          && (|a.pages| > 0 ==> a.pages[|a.pages| - 1].hasMore && a.pages[|a.pages| - 1].next != "")
        else
          && |a.pages| > 0 && a.pages[|a.pages| - 1].hasMore && a.pages[|a.pages| - 1].next == ""
          && a.ending == Some(EMPTY_CURSOR))
  }

  /** What the server answered during an attempt. */
  function AnswersOf(a: Attempt): seq<Answer> {
    seq(|a.pages|, i requires 0 <= i < |a.pages| => Got(a.pages[i]))
    + if a.ending.Some? && |a.asked| > |a.pages| then [Refused(a.ending.value)] else []
  }

  function AllAnswers(attempts: seq<Attempt>): seq<Answer> {
    if attempts == [] then [] else AllAnswers(attempts[..|attempts| - 1]) + AnswersOf(attempts[|attempts| - 1])
  }

  datatype Config = Config(maxAttempts: nat, retryBase: nat, retryMax: nat)

  ghost predicate ValidConfig(cfg: Config) { cfg.maxAttempts >= 1 && 0 < cfg.retryBase <= cfg.retryMax }

  // ---------------------------------------------------------------- backoff

  function Pow2(n: nat): nat { if n == 0 then 1 else 2 * Pow2(n - 1) }

  function Min(a: nat, b: nat): nat { if a < b then a else b }

  lemma {:induction false} Pow2Grows(m: nat, n: nat)
    requires m <= n
    ensures 1 <= Pow2(m) <= Pow2(n)
  {
    if m < n { Pow2Grows(m, n - 1); } else if m > 0 { Pow2Grows(m - 1, m - 1); }
  }

  /** Before jitter: the base doubled per attempt, capped. */
  method PlainWait(cfg: Config, attempt: nat) returns (d: nat)
    requires ValidConfig(cfg) && attempt >= 1
    ensures d == Min(cfg.retryBase * Pow2(attempt - 1), cfg.retryMax)
  {
    d := cfg.retryBase;
    var i := 1;
    while i < attempt && d < cfg.retryMax
      invariant 1 <= i <= attempt && d == cfg.retryBase * Pow2(i - 1)
    {
      d := d * 2;
      i := i + 1;
    }
    Pow2Grows(i - 1, attempt - 1);
    Monotone(cfg.retryBase, Pow2(i - 1), Pow2(attempt - 1));
    if d > cfg.retryMax { d := cfg.retryMax; }
  }

  /** The wait times its jitter, rounded down, capped. */
  method Jittered(plain: nat, jitter: real, cap: nat) returns (d: nat)
    requires plain <= cap && 0.5 <= jitter < 1.5
    ensures plain / 2 <= d <= cap && IsJittered(plain as real * jitter, cap, d)
  {
    JitterBounds(plain, jitter);
    d := (plain as real * jitter).Floor;
    if d > cap { d := cap; }
  }

  predicate IsJittered(exact: real, cap: nat, d: nat) {
    if exact >= cap as real then d == cap else d as real <= exact < d as real + 1.0
  }

  /** With jitter the wait is the plain one times the factor, rounded down, so between half of it
      (rounded down) and the cap. */
  method Backoff(cfg: Config, attempt: nat, jitter: real) returns (d: nat)
    requires ValidConfig(cfg) && attempt >= 1 && 0.5 <= jitter < 1.5
    ensures Min(cfg.retryBase * Pow2(attempt - 1), cfg.retryMax) / 2 <= d <= cfg.retryMax
    ensures IsJittered(Min(cfg.retryBase * Pow2(attempt - 1), cfg.retryMax) as real * jitter, cfg.retryMax, d)
  {
    var plain := PlainWait(cfg, attempt);
    d := Jittered(plain, jitter, cfg.retryMax);
  }

  lemma JitterBounds(plain: nat, jitter: real)
    requires 0.5 <= jitter < 1.5
    ensures plain / 2 <= (plain as real * jitter).Floor
  {
    var x := plain as real;
    assert x * 0.5 <= x * jitter;
    assert (plain / 2) as real <= x / 2.0;
  }

  lemma Monotone(b: nat, x: nat, y: nat)
    requires x <= y
    ensures b * x <= b * y
  {
  }

  // ---------------------------------------------------------------- paginate

  /** The i-th answer of the server; a run that outlives the script was canceled. */
  function AnswerAt(script: seq<Answer>, i: nat): Answer {
    if i < |script| then script[i] else Refused(Failure(ClassCanceled, ""))
  }

  /** An attempt goes on after a page that promises more and says with which cursor. */
  predicate GoesOn(a: Answer) { a.Got? && a.page.hasMore && a.page.next != "" }

  /** The pages of the attempt the script answers from this position on. */
  function PagesFrom(script: seq<Answer>, start: nat): seq<Page>
    decreases |script| - start
  {
    match AnswerAt(script, start)
    case Refused(_) => []
    case Got(page) => [page] + if GoesOn(AnswerAt(script, start)) then PagesFrom(script, start + 1) else []
  }

  /** The failure that ends that attempt, if any. */
  function EndingFrom(script: seq<Answer>, start: nat): Option<Failure>
    decreases |script| - start
  {
    match AnswerAt(script, start)
    case Refused(failure) => Some(failure)
    case Got(page) =>
      if !page.hasMore then None
      else if page.next == "" then Some(EMPTY_CURSOR)
      else EndingFrom(script, start + 1)
  }

  /** How many answers it takes. */
  function TakenFrom(script: seq<Answer>, start: nat): nat
    decreases |script| - start
  {
    1 + if GoesOn(AnswerAt(script, start)) then TakenFrom(script, start + 1) else 0
  }

  /** What the server sends, all attempts considered: the pages of the attempt that is the
      last and its failure, if it failed. */
  datatype Delivery = Delivery(pages: seq<Page>, failure: Option<Failure>)

  function Delivered(script: seq<Answer>, start: nat, naps: seq<bool>, attempt: nat, cfg: Config): Delivery
    requires 1 <= attempt <= cfg.maxAttempts <= |naps|
    decreases cfg.maxAttempts - attempt
  {
    var pages, ending := PagesFrom(script, start), EndingFrom(script, start);
    if ending.None? || ending.value.kind != ClassRetryable || attempt == cfg.maxAttempts then Delivery(pages, ending)
    else if !naps[attempt - 1] then Delivery(pages, Some(Failure(ClassCanceled, "")))
    else Delivered(script, start + TakenFrom(script, start), naps, attempt + 1, cfg)
  }

  /** An unfinished chain: every request so far was answered and promised more. */
  ghost predicate Open(orig: string, asked: seq<string>, pages: seq<Page>) {
    && |asked| == |pages|
    && (forall i :: 0 <= i < |asked| ==> asked[i] == CursorAfter(orig, pages, i))
    && (forall i :: 0 <= i < |pages| ==> pages[i].hasMore && pages[i].next != "")
  }

  /** All requests answered, and every page but perhaps the last promised more. */
  ghost predicate Linked(orig: string, asked: seq<string>, pages: seq<Page>) {
    && |asked| == |pages| > 0
    && (forall i :: 0 <= i < |asked| ==> asked[i] == CursorAfter(orig, pages, i))
    && (forall i :: 0 <= i < |pages| - 1 ==> pages[i].hasMore && pages[i].next != "")
  }

  ghost predicate GotAll(script: seq<Answer>, start: nat, pages: seq<Page>) {
    forall i :: 0 <= i < |pages| ==> AnswerAt(script, start + i) == Got(pages[i])
  }

  /** The script answered this attempt from position start on. */
  ghost predicate Answered(script: seq<Answer>, start: nat, a: Attempt) {
    && GotAll(script, start, a.pages)
    && (a.ending.Some? && |a.asked| > |a.pages| ==> AnswerAt(script, start + |a.pages|) == Refused(a.ending.value))
  }

  /** The attempt is the one the script gives from this position on. */
  ghost predicate Scripted(script: seq<Answer>, start: nat, a: Attempt) {
    && a.pages == PagesFrom(script, start) && a.ending == EndingFrom(script, start)
    && |AnswersOf(a)| == TakenFrom(script, start)
  }

  /** The rest of the script continues the attempt that began at `start`. */
  ghost predicate Continues(script: seq<Answer>, start: nat, pages: seq<Page>) {
    && PagesFrom(script, start) == pages + PagesFrom(script, start + |pages|)
    && EndingFrom(script, start) == EndingFrom(script, start + |pages|)
    && TakenFrom(script, start) == |pages| + TakenFrom(script, start + |pages|)
  }

  lemma OnePage(script: seq<Answer>, at: nat, page: Page)
    requires AnswerAt(script, at) == Got(page)
    ensures PagesFrom(script, at) == [page] + if GoesOn(Got(page)) then PagesFrom(script, at + 1) else []
    ensures TakenFrom(script, at) == 1 + if GoesOn(Got(page)) then TakenFrom(script, at + 1) else 0
    ensures GoesOn(Got(page)) ==> EndingFrom(script, at) == EndingFrom(script, at + 1)
  {
  }

  lemma Regrouped(pages: seq<Page>, page: Page, more: seq<Page>)
    ensures pages + ([page] + more) == pages + [page] + more
    ensures pages + ([page] + []) == pages + [page]
  {
  }

  lemma OnePageOn(script: seq<Answer>, start: nat, pages: seq<Page>, page: Page)
    requires Continues(script, start, pages) && AnswerAt(script, start + |pages|) == Got(page)
    ensures if GoesOn(Got(page)) then Continues(script, start, pages + [page])
            else PagesFrom(script, start) == pages + [page] && TakenFrom(script, start) == |pages| + 1
  {
    OnePage(script, start + |pages|, page);
    Regrouped(pages, page, PagesFrom(script, start + |pages| + 1));
  }

  /** The loop's state after some pages: an open chain, absorbed, as the script answered it. */
  ghost predicate Draining(script: seq<Answer>, start: nat, orig: string, asked: seq<string>, pages: seq<Page>,
                           pg: Accumulated, cursor: string) {
    && Open(orig, asked, pages) && start + |pages| <= |script| && GotAll(script, start, pages)
    && pg == AbsorbAll(pages) && cursor == CursorAfter(orig, pages, |pages|)
  }

  ghost predicate IsDrained(script: seq<Answer>, start: nat, orig: string, pg: Accumulated, a: Attempt) {
    (Complete(orig, a) || Broken(orig, a)) && pg == AbsorbAll(a.pages) && Answered(script, start, a)
  }

  lemma PageContinues(script: seq<Answer>, start: nat, orig: string, asked: seq<string>, pages: seq<Page>,
    pg: Accumulated,
                      cursor: string, page: Page)
    requires Draining(script, start, orig, asked, pages, pg, cursor) && AnswerAt(script, start + |pages|) == Got(page)
    ensures var asked', pages', pg' := asked + [cursor], pages + [page], Absorb(pg, page);
            && start + |pages'| <= |script|
            && (!page.hasMore ==> IsDrained(script, start, orig, pg', Attempt(asked', pages', None)))
            && (page.hasMore && page.next == "" ==>
              IsDrained(script, start, orig, pg', Attempt(asked', pages', Some(EMPTY_CURSOR))))
            && (page.hasMore && page.next != "" ==> Draining(script, start, orig, asked', pages', pg', page.next))
  {
  }

  /** One pass of the outer loop: drain pages until the chain ends or breaks. */
  method DrainOnce(script: seq<Answer>, start: nat, orig: string) returns (pg: Accumulated, attempt: Attempt)
    requires start <= |script|
    ensures IsDrained(script, start, orig, pg, attempt) && Scripted(script, start, attempt)
  {
    pg := NO_PAGES;
    var cursor := orig;
    var asked: seq<string> := [];
    var pages: seq<Page> := [];
    while true
      invariant Draining(script, start, orig, asked, pages, pg, cursor) && Continues(script, start, pages)
      decreases |script| - start - |pages|
    {
      var answer := AnswerAt(script, start + |pages|);
      if answer.Refused? {
        attempt := Attempt(asked + [cursor], pages, Some(answer.failure));
        return;
      }
      var page := answer.page;
      PageContinues(script, start, orig, asked, pages, pg, cursor, page);
      OnePageOn(script, start, pages, page);
      asked, pages, pg := asked + [cursor], pages + [page], Absorb(pg, page);
      if !page.hasMore {
        attempt := Attempt(asked, pages, None);
        return;
      }
      if page.next == "" {
        attempt := Attempt(asked, pages, Some(EMPTY_CURSOR));
        return;
      }
      cursor := page.next;
    }
  }

  /** Answers of consecutive attempts are consecutive in the script. */
  lemma AnswersAppend(script: seq<Answer>, attempts: seq<Attempt>, a: Attempt)
    requires forall i :: 0 <= i < |AllAnswers(attempts)| ==> AllAnswers(attempts)[i] == AnswerAt(script, i)
    requires Answered(script, |AllAnswers(attempts)|, a)
    ensures AllAnswers(attempts + [a]) == AllAnswers(attempts) + AnswersOf(a)
    ensures forall i :: 0 <= i < |AllAnswers(attempts + [a])| ==> AllAnswers(attempts + [a])[i] == AnswerAt(script, i)
  {
    assert (attempts + [a])[..|attempts|] == attempts;
  }

  /** What the caller gets: the batch, or the failure that ended the last attempt together
      with its partial state. */
  datatype Drained = Drained(pg: Accumulated, failure: Option<Failure>, attempts: seq<Attempt>, waits: seq<nat>)

  /** A right pagination of one answer script. The batch is the last attempt's pages and
      nothing else; it succeeds exactly when that attempt's chain is complete; the attempts
      before it all broke on a retryable failure; after the last no further try was due,
      unless the wait for it was canceled. */
  ghost predicate IsPagination(r: Drained, script: seq<Answer>, orig: string, cfg: Config) {
    var n := |r.attempts|;
    && 1 <= n <= cfg.maxAttempts
    && r.pg == AbsorbAll(r.attempts[n - 1].pages)
    && (forall i :: 0 <= i < n - 1 ==>
          Broken(orig, r.attempts[i]) && r.attempts[i].ending.value.kind == ClassRetryable)
    && (r.failure.None? <==> Complete(orig, r.attempts[n - 1]))
    && (r.failure.Some? ==>
          && Broken(orig, r.attempts[n - 1])
          && (if |r.waits| == n then
                && r.attempts[n - 1].ending.value.kind == ClassRetryable
                && r.failure.value.kind == ClassCanceled
              else
                && r.failure == r.attempts[n - 1].ending
                && (r.failure.value.kind != ClassRetryable || n == cfg.maxAttempts)))
    && n - 1 <= |r.waits| <= n && (r.failure.None? ==> |r.waits| == n - 1)
    && (forall i :: 0 <= i < |r.waits| ==> r.waits[i] <= cfg.retryMax)
    && (forall i :: 0 <= i < |AllAnswers(r.attempts)| ==> AllAnswers(r.attempts)[i] == AnswerAt(script, i))
  }

  /** The attempts that were given up and retried, with the waits after them. */
  ghost predicate Retried(orig: string, attempts: seq<Attempt>, waits: seq<nat>, cfg: Config) {
    && |attempts| == |waits|
    && (forall i :: 0 <= i < |attempts| ==>
        Broken(orig, attempts[i]) && attempts[i].ending.value.kind == ClassRetryable)
    && (forall i :: 0 <= i < |waits| ==> waits[i] <= cfg.retryMax)
  }

  lemma RunEnds(r: Drained, script: seq<Answer>, orig: string, cfg: Config, before: seq<Attempt>, a: Attempt)
    requires r.attempts == before + [a] && |before| < cfg.maxAttempts
    requires |before| <= |r.waits| <= |before| + 1 && Retried(orig, before, r.waits[..|before|], cfg)
    requires |r.waits| > |before| ==> r.waits[|before|] <= cfg.retryMax
    requires Complete(orig, a) || Broken(orig, a)
    requires r.pg == AbsorbAll(a.pages)
    requires if |r.waits| == |before| then
               && r.failure == a.ending
               && (a.ending.None? || a.ending.value.kind != ClassRetryable || |before| + 1 == cfg.maxAttempts)
             else
               && a.ending.Some? && a.ending.value.kind == ClassRetryable
               && r.failure == Some(Failure(ClassCanceled, ""))
    requires forall i :: 0 <= i < |AllAnswers(r.attempts)| ==> AllAnswers(r.attempts)[i] == AnswerAt(script, i)
    ensures IsPagination(r, script, orig, cfg)
  {
    assert r.attempts[|before|] == a;
    assert forall i :: 0 <= i < |before| ==> r.attempts[i] == before[i];
    assert forall i :: 0 <= i < |before| ==> r.waits[i] == r.waits[..|before|][i];
  }

  /** The batch and the failure are those of the server's delivery. */
  ghost predicate Receives(r: Drained, d: Delivery) { r.pg == AbsorbAll(d.pages) && r.failure == d.failure }

  /** The loop's state between attempts. */
  ghost predicate Trying(script: seq<Answer>, orig: string, naps: seq<bool>, cfg: Config, attempts: seq<Attempt>,
    waits: seq<nat>,
                         used: nat)
    requires cfg.maxAttempts <= |naps|
  {
    && |attempts| < cfg.maxAttempts && Retried(orig, attempts, waits, cfg)
    && used == |AllAnswers(attempts)| <= |script|
    && (forall i :: 0 <= i < used ==> AllAnswers(attempts)[i] == AnswerAt(script, i))
    && Delivered(script, 0, naps, 1, cfg) == Delivered(script, used, naps, |attempts| + 1, cfg)
  }

  /** One more attempt, as the script has it. */
  ghost predicate Tried(script: seq<Answer>, orig: string, used: nat, pg: Accumulated, a: Attempt) {
    IsDrained(script, used, orig, pg, a) && Scripted(script, used, a)
  }

  predicate IsLast(a: Attempt, n: nat, cfg: Config) {
    a.ending.None? || a.ending.value.kind != ClassRetryable || n == cfg.maxAttempts
  }

  lemma LastTry(script: seq<Answer>, orig: string, naps: seq<bool>, cfg: Config, attempts: seq<Attempt>,
    waits: seq<nat>, used: nat,
                pg: Accumulated, a: Attempt)
    requires cfg.maxAttempts <= |naps| && Trying(script, orig, naps, cfg, attempts, waits, used)
    requires Tried(script, orig, used, pg, a) && IsLast(a, |attempts| + 1, cfg)
    ensures var r := Drained(pg, a.ending, attempts + [a], waits);
            IsPagination(r, script, orig, cfg) && Receives(r, Delivered(script, 0, naps, 1, cfg))
  {
    AnswersAppend(script, attempts, a);
    assert waits[..|attempts|] == waits;
    RunEnds(Drained(pg, a.ending, attempts + [a], waits), script, orig, cfg, attempts, a);
  }

  lemma InterruptedWait(script: seq<Answer>, orig: string, naps: seq<bool>, cfg: Config, attempts: seq<Attempt>,
    waits: seq<nat>,
                        used: nat, pg: Accumulated, a: Attempt, delay: nat)
    requires cfg.maxAttempts <= |naps| && Trying(script, orig, naps, cfg, attempts, waits, used)
    requires Tried(script, orig, used, pg, a) && !IsLast(a, |attempts| + 1, cfg) && !naps[|attempts|]
    requires delay <= cfg.retryMax
    ensures var r := Drained(pg, Some(Failure(ClassCanceled, "")), attempts + [a], waits + [delay]);
            IsPagination(r, script, orig, cfg) && Receives(r, Delivered(script, 0, naps, 1, cfg))
  {
    AnswersAppend(script, attempts, a);
    assert (waits + [delay])[..|attempts|] == waits;
    RunEnds(Drained(pg, Some(Failure(ClassCanceled, "")), attempts + [a], waits + [delay]), script, orig, cfg,
      attempts, a);
  }

  lemma NextTry(script: seq<Answer>, orig: string, naps: seq<bool>, cfg: Config, attempts: seq<Attempt>,
    waits: seq<nat>, used: nat,
                pg: Accumulated, a: Attempt, delay: nat)
    requires cfg.maxAttempts <= |naps| && Trying(script, orig, naps, cfg, attempts, waits, used)
    requires Tried(script, orig, used, pg, a) && !IsLast(a, |attempts| + 1, cfg) && naps[|attempts|]
    requires delay <= cfg.retryMax
    ensures Trying(script, orig, naps, cfg, attempts + [a], waits + [delay], used + |AnswersOf(a)|)
  {
    AnswersAppend(script, attempts, a);
  }

  /** `naps[k]` says whether the k-th wait ran to its end, `jitters[k]` is its factor. */
  method Paginate(script: seq<Answer>, naps: seq<bool>, jitters: seq<real>, orig: string, cfg: Config)
    returns (r: Drained)
    requires ValidConfig(cfg) && |naps| >= cfg.maxAttempts && |jitters| >= cfg.maxAttempts
    requires forall k :: 0 <= k < |jitters| ==> 0.5 <= jitters[k] < 1.5
    ensures IsPagination(r, script, orig, cfg)
    ensures Receives(r, Delivered(script, 0, naps, 1, cfg))
  {
    var attempts: seq<Attempt> := [];
    var waits: seq<nat> := [];
    var used: nat := 0;
    var attempt := 1;
    while true
      invariant 1 <= attempt <= cfg.maxAttempts && |attempts| == attempt - 1
      invariant Trying(script, orig, naps, cfg, attempts, waits, used)
      decreases cfg.maxAttempts - attempt
    {
      var pg, a := DrainOnce(script, used, orig);
      if IsLast(a, attempt, cfg) {
        LastTry(script, orig, naps, cfg, attempts, waits, used, pg, a);
        r := Drained(pg, a.ending, attempts + [a], waits);
        break;
      }
      var delay := Backoff(cfg, attempt, jitters[attempt - 1]);
      if !naps[attempt - 1] {
        InterruptedWait(script, orig, naps, cfg, attempts, waits, used, pg, a, delay);
        r := Drained(pg, Some(Failure(ClassCanceled, "")), attempts + [a], waits + [delay]);
        break;
      }
      NextTry(script, orig, naps, cfg, attempts, waits, used, pg, a, delay);
      attempts, waits := attempts + [a], waits + [delay];
      used := used + |AnswersOf(a)|;
      attempt := attempt + 1;
    }
  }
}
