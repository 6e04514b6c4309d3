/**
 * The attempt aggregator of src/utils/mockDataProcessor.ts: raw messages with
 * their delivery attempts are reshaped into one summary per message, sorted
 * newest first, and reduced to summary statistics.
 *
 * Times are integers (milliseconds since the epoch). The source keeps them as
 * ISO strings and shows them through `formatDate`; the summary here keeps the
 * millisecond value that the formatted text is made from.
 */
module MockData {
  import opened Wrappers
  import Decimal

  // ---------------------------------------------------------------------------
  // Data model
  // ---------------------------------------------------------------------------

  /** One delivery attempt of a message (MockAttempt). */
  datatype Attempt = Attempt(
    id: string,
    messageId: string,
    createdAt: int,
    isFailure: bool,
    failureReason: Option<string>,
    resultCode: int,
    resultBody: string)

  /** A webhook message (MockMessage); `attempts` is None when the field is missing. */
  datatype Message = Message(id: string, attempts: Option<seq<Attempt>>)

  datatype Status = Success | Failed

  datatype FailureDetails = FailureDetails(
    resultCode: int,
    failureReason: string,
    responseBody: string,
    timestamp: int)

  datatype SuccessDetails = SuccessDetails(
    resultCode: int,
    responseBody: string,
    timestamp: int)

  /** The per-message view model (ProcessedAttempt). */
  datatype Summary = Summary(
    messageId: string,
    firstAttempt: int,
    firstAttemptRelative: string,
    lastAttempt: int,
    lastAttemptRelative: string,
    attempts: nat,
    status: Status,
    issue: Option<string>,
    responseCode: Option<int>,
    failureDetails: Option<FailureDetails>,
    successDetails: Option<SuccessDetails>)

  // ---------------------------------------------------------------------------
  // Relative time (getRelativeTime), with the current time passed in
  // ---------------------------------------------------------------------------

  const MinuteMs: int := 60_000
  const HourMs: int := 3_600_000
  const DayMs: int := 86_400_000

  /** The unit and count that getRelativeTime chooses. */
  datatype Age = Minutes(minutes: int) | Hours(hours: int) | OneDay | Days(days: int)

  /**
   * The age of a timestamp `diff` milliseconds in the past; every count is
   * a floor division, like `Math.floor` on the millisecond difference.
   */
  function AgeOf(diff: int): (a: Age)
    ensures a.Minutes? <==> 0 <= diff < HourMs
    ensures a.Minutes? ==> a.minutes * MinuteMs <= diff < (a.minutes + 1) * MinuteMs && 0 <= a.minutes <= 59
    ensures a.Hours? <==> HourMs <= diff < DayMs
    ensures a.Hours? ==> a.hours * HourMs <= diff < (a.hours + 1) * HourMs && 1 <= a.hours <= 23
    ensures a.OneDay? <==> DayMs <= diff < 2 * DayMs
    ensures a.Days? <==> diff < 0 || 2 * DayMs <= diff
    ensures a.Days? ==> a.days * DayMs <= diff < (a.days + 1) * DayMs && a.days != 0 && a.days != 1
  {
    var days := diff / DayMs;
    if days == 0 then
      var hours := diff / HourMs;
      if hours == 0 then Minutes(diff / MinuteMs) else Hours(hours)
    else if days == 1 then OneDay
    else Days(days)
  }

  /** The template literals of getRelativeTime. Only OneDay reads "1 day ago". */
  function Render(a: Age): (s: string)
    ensures |s| >= 9 && s[|s| - 4..] == " ago"
    ensures s == "1 day ago" <==> a == OneDay
  {
    match a
    case Minutes(m) => Decimal.IntToString(m) + " minutes ago"
    case Hours(h) => Decimal.IntToString(h) + " hours ago"
    case OneDay => "1 day ago"
    case Days(d) => Decimal.IntToString(d) + " days ago"
  }

  /** getRelativeTime(t) evaluated at time `now`. */
  function RelativeTime(now: int, t: int): (r: string)
    ensures |r| >= 9 && r[|r| - 4..] == " ago"
    ensures r == "1 day ago" <==> DayMs <= now - t < 2 * DayMs
  {
    Render(AgeOf(now - t))
  }

  /** The unit words of a phrase, after its count. */
  function UnitWords(a: Age): string
    requires !a.OneDay?
  {
    match a
    case Minutes(_) => " minutes ago"
    case Hours(_) => " hours ago"
    case Days(_) => " days ago"
  }

  function Count(a: Age): int
    requires !a.OneDay?
  {
    match a
    case Minutes(m) => m
    case Hours(h) => h
    case Days(d) => d
  }

  /** Five and six characters before the end, the phrases of the four units differ. */
  lemma RenderTail(a: Age)
    ensures |Render(a)| >= 9
    ensures Render(a)[|Render(a)| - 5] == (if a.OneDay? then 'y' else 's')
    ensures Render(a)[|Render(a)| - 6] ==
      match a case Minutes(_) => 'e' case Hours(_) => 'r' case OneDay => 'a' case Days(_) => 'y'
    ensures !a.OneDay? ==> Render(a) == Decimal.IntToString(Count(a)) + UnitWords(a)
  {
    if !a.OneDay? {
      var p, u := Decimal.IntToString(Count(a)), UnitWords(a);
      assert Render(a) == p + u;
      assert (p + u)[|p + u| - 5] == u[|u| - 5];
      assert (p + u)[|p + u| - 6] == u[|u| - 6];
    }
  }

  /** The phrase names its age: distinct ages give distinct phrases. */
  lemma RenderInjective(a: Age, b: Age)
    requires Render(a) == Render(b)
    ensures a == b
  {
    RenderTail(a);
    RenderTail(b);
    if !a.OneDay? {
      assert !b.OneDay? && UnitWords(a) == UnitWords(b);
      var u := UnitWords(a);
      var pa, pb := Decimal.IntToString(Count(a)), Decimal.IntToString(Count(b));
      assert pa == (pa + u)[..|pa|];
      assert pb == (pb + u)[..|pb|];
      Decimal.IntToStringInjective(Count(a), Count(b));
    }
  }

  /** The phrase getRelativeTime produces, range by range of the elapsed time. */
  lemma RelativeTimePhrases(now: int, t: int)
    ensures 0 <= now - t < HourMs ==>
      RelativeTime(now, t) == Decimal.IntToString((now - t) / MinuteMs) + " minutes ago"
    ensures HourMs <= now - t < DayMs ==>
      RelativeTime(now, t) == Decimal.IntToString((now - t) / HourMs) + " hours ago"
    ensures DayMs <= now - t < 2 * DayMs ==> RelativeTime(now, t) == "1 day ago"
    ensures now - t < 0 || 2 * DayMs <= now - t ==>
      RelativeTime(now, t) == Decimal.IntToString((now - t) / DayMs) + " days ago"
  {
  }

  // ---------------------------------------------------------------------------
  // One message's summary
  // ---------------------------------------------------------------------------

  predicate HasAttempts(m: Message) {
    m.attempts.Some? && |m.attempts.value| > 0
  }

  predicate AnyFailure(atts: seq<Attempt>) {
    exists i :: 0 <= i < |atts| && atts[i].isFailure
  }

  /** The createdAt of the first attempt once the attempts are sorted by time. */
  function EarliestAt(atts: seq<Attempt>): (t: int)
    requires |atts| > 0
    ensures exists i :: 0 <= i < |atts| && atts[i].createdAt == t
    ensures forall i :: 0 <= i < |atts| ==> t <= atts[i].createdAt
    decreases |atts|
  {
    if |atts| == 1 then atts[0].createdAt
    else
      var rest := EarliestAt(atts[1..]);
      if atts[0].createdAt <= rest then atts[0].createdAt else rest
  }

  /** The createdAt of the last attempt once the attempts are sorted by time. */
  function LatestAt(atts: seq<Attempt>): (t: int)
    requires |atts| > 0
    ensures exists i :: 0 <= i < |atts| && atts[i].createdAt == t
    ensures forall i :: 0 <= i < |atts| ==> atts[i].createdAt <= t
    decreases |atts|
  {
    if |atts| == 1 then atts[0].createdAt
    else
      var rest := LatestAt(atts[1..]);
      if rest <= atts[0].createdAt then atts[0].createdAt else rest
  }

  /**
   * Attempt `k` is the one the source picks as the latest failure
   * (`want` true) or latest success (`want` false): among the attempts with
   * that outcome it has the largest createdAt, and it comes first in input
   * order among those that share it (both sorts are stable).
   */
  ghost predicate IsLatest(atts: seq<Attempt>, want: bool, k: int) {
    && 0 <= k < |atts|
    && atts[k].isFailure == want
    && (forall i :: 0 <= i < |atts| && atts[i].isFailure == want ==> atts[i].createdAt <= atts[k].createdAt)
    && (forall i :: 0 <= i < k && atts[i].isFailure == want ==> atts[i].createdAt < atts[k].createdAt)
  }

  /** The index of the latest attempt with outcome `want`, if there is one. */
  function LatestMatching(atts: seq<Attempt>, want: bool): (r: Option<nat>)
    ensures r.None? <==> forall i :: 0 <= i < |atts| ==> atts[i].isFailure != want
    ensures r.Some? ==> IsLatest(atts, want, r.value)
    decreases |atts|
  {
    if |atts| == 0 then None
    else
      var prev := LatestMatching(atts[..|atts| - 1], want);
      var last := atts[|atts| - 1];
      if last.isFailure == want && (prev.None? || last.createdAt > atts[prev.value].createdAt)
      then Some(|atts| - 1)
      else prev
  }

  /** At most one attempt is the latest with a given outcome. */
  lemma LatestIsUnique(atts: seq<Attempt>, want: bool, j: int, k: int)
    requires IsLatest(atts, want, j) && IsLatest(atts, want, k)
    ensures j == k
  {
  }

  /** `latestFailure.failureReason || "Unknown error"`. */
  function ReasonOrDefault(reason: Option<string>): (r: string)
    ensures reason.None? || reason.value == "" ==> r == "Unknown error"
    ensures reason.Some? && reason.value != "" ==> r == reason.value
  {
    if reason.Some? && reason.value != "" then reason.value else "Unknown error"
  }

  function FailureDetailsOf(a: Attempt): FailureDetails {
    FailureDetails(a.resultCode, ReasonOrDefault(a.failureReason), a.resultBody, a.createdAt)
  }

  function SuccessDetailsOf(a: Attempt): SuccessDetails {
    SuccessDetails(a.resultCode, a.resultBody, a.createdAt)
  }

  /** The summary the body of processMockData's forEach pushes for a message. */
  function SummaryOf(id: string, atts: seq<Attempt>, now: int): (s: Summary)
    requires |atts| > 0
    ensures s.messageId == id && s.attempts == |atts|
    ensures exists i :: 0 <= i < |atts| && atts[i].createdAt == s.firstAttempt
    ensures exists i :: 0 <= i < |atts| && atts[i].createdAt == s.lastAttempt
    ensures forall i :: 0 <= i < |atts| ==> s.firstAttempt <= atts[i].createdAt <= s.lastAttempt
    ensures s.firstAttemptRelative == RelativeTime(now, s.firstAttempt)
    ensures s.lastAttemptRelative == RelativeTime(now, s.lastAttempt)
    ensures s.status == Failed <==> AnyFailure(atts)
    ensures s.failureDetails.Some? <==> AnyFailure(atts)
    ensures s.failureDetails.Some? ==>
      exists k :: IsLatest(atts, true, k) && s.failureDetails.value == FailureDetailsOf(atts[k])
    ensures s.successDetails.Some? <==> AnySuccess(atts)
    ensures s.successDetails.Some? ==>
      exists k :: IsLatest(atts, false, k) && s.successDetails.value == SuccessDetailsOf(atts[k])
    ensures s.responseCode.Some?
    ensures s.status == Failed ==>
      && s.responseCode == Some(s.failureDetails.value.resultCode)
      && s.issue == Some(Decimal.IntToString(s.responseCode.value))
    ensures s.status == Success ==>
      && s.successDetails.Some?
      && s.responseCode == Some(s.successDetails.value.resultCode)
      && s.issue == None
  {
    var first := EarliestAt(atts);
    var last := LatestAt(atts);
    var status := if AnyFailure(atts) then Failed else Success;
    var latestFailure := LatestMatching(atts, true);
    var latestSuccess := LatestMatching(atts, false);
    var issue: Option<string> :=
      if status == Failed && latestFailure.Some?
      then Some(Decimal.IntToString(atts[latestFailure.value].resultCode))
      else None;
    var responseCode: Option<int> :=
      if status == Failed && latestFailure.Some? then Some(atts[latestFailure.value].resultCode)
      else if status == Success && latestSuccess.Some? then Some(atts[latestSuccess.value].resultCode)
      else None;
    var failureDetails :=
      if latestFailure.Some? then Some(FailureDetailsOf(atts[latestFailure.value])) else None;
    var successDetails :=
      if latestSuccess.Some? then Some(SuccessDetailsOf(atts[latestSuccess.value])) else None;
    Summary(id, first, RelativeTime(now, first), last, RelativeTime(now, last), |atts|,
            status, issue, responseCode, failureDetails, successDetails)
  }

  function SummaryOfMessage(m: Message, now: int): Summary
    requires HasAttempts(m)
  {
    SummaryOf(m.id, m.attempts.value, now)
  }

  predicate AnySuccess(atts: seq<Attempt>) {
    exists i :: 0 <= i < |atts| && !atts[i].isFailure
  }

  lemma SameMembers(a1: seq<Attempt>, a2: seq<Attempt>)
    requires multiset(a1) == multiset(a2)
    ensures |a1| == |a2|
    ensures forall x :: x in a1 <==> x in a2
  {
    assert |a1| == |multiset(a1)| == |multiset(a2)| == |a2|;
    forall x ensures x in a1 <==> x in a2 {
      assert x in a1 <==> x in multiset(a1);
      assert x in a2 <==> x in multiset(a2);
    }
  }

  lemma EarliestAgrees(a1: seq<Attempt>, a2: seq<Attempt>)
    requires |a1| > 0 && |a2| > 0 && forall x :: x in a1 <==> x in a2
    ensures EarliestAt(a1) == EarliestAt(a2)
  {
    var i1 :| 0 <= i1 < |a1| && a1[i1].createdAt == EarliestAt(a1);
    var i2 :| 0 <= i2 < |a2| && a2[i2].createdAt == EarliestAt(a2);
    assert a1[i1] in a2 && a2[i2] in a1;
  }

  lemma LatestAgrees(a1: seq<Attempt>, a2: seq<Attempt>)
    requires |a1| > 0 && |a2| > 0 && forall x :: x in a1 <==> x in a2
    ensures LatestAt(a1) == LatestAt(a2)
  {
    var i1 :| 0 <= i1 < |a1| && a1[i1].createdAt == LatestAt(a1);
    var i2 :| 0 <= i2 < |a2| && a2[i2].createdAt == LatestAt(a2);
    assert a1[i1] in a2 && a2[i2] in a1;
  }

  lemma OutcomesAgree(a1: seq<Attempt>, a2: seq<Attempt>)
    requires forall x :: x in a1 <==> x in a2
    ensures AnyFailure(a1) == AnyFailure(a2)
    ensures AnySuccess(a1) == AnySuccess(a2)
  {
    if AnyFailure(a1) {
      var k :| 0 <= k < |a1| && a1[k].isFailure;
      assert a1[k] in a2;
    }
    if AnyFailure(a2) {
      var k :| 0 <= k < |a2| && a2[k].isFailure;
      assert a2[k] in a1;
    }
    if AnySuccess(a1) {
      var k :| 0 <= k < |a1| && !a1[k].isFailure;
      assert a1[k] in a2;
    }
    if AnySuccess(a2) {
      var k :| 0 <= k < |a2| && !a2[k].isFailure;
      assert a2[k] in a1;
    }
  }

  /**
   * What depends only on the attempts as a collection does not depend on
   * their order: status, first and last time, count, and whether failure and
   * success details exist.
   */
  lemma SummaryOrderIndependent(id: string, a1: seq<Attempt>, a2: seq<Attempt>, now: int)
    requires |a1| > 0 && multiset(a1) == multiset(a2)
    ensures |a2| > 0
    ensures SummaryOf(id, a1, now).status == SummaryOf(id, a2, now).status
    ensures SummaryOf(id, a1, now).attempts == SummaryOf(id, a2, now).attempts
    ensures SummaryOf(id, a1, now).firstAttempt == SummaryOf(id, a2, now).firstAttempt
    ensures SummaryOf(id, a1, now).lastAttempt == SummaryOf(id, a2, now).lastAttempt
    ensures SummaryOf(id, a1, now).failureDetails.Some? == SummaryOf(id, a2, now).failureDetails.Some?
    ensures SummaryOf(id, a1, now).successDetails.Some? == SummaryOf(id, a2, now).successDetails.Some?
  {
    SameMembers(a1, a2);
    EarliestAgrees(a1, a2);
    LatestAgrees(a1, a2);
    OutcomesAgree(a1, a2);
  }

  // ---------------------------------------------------------------------------
  // All messages (processMockData)
  // ---------------------------------------------------------------------------

  /** The summaries in the order the forEach pushes them. */
  function Collected(ms: seq<Message>, now: int): (r: seq<Summary>)
    ensures |r| <= |ms|
    ensures forall k :: 0 <= k < |r| ==> r[k].attempts >= 1
    decreases |ms|
  {
    if ms == [] then []
    else
      var init := Collected(ms[..|ms| - 1], now);
      var m := ms[|ms| - 1];
      if HasAttempts(m) then init + [SummaryOfMessage(m, now)] else init
  }

  /** The number of messages with at least one attempt. */
  function WithAttempts(ms: seq<Message>): nat
    decreases |ms|
  {
    if ms == [] then 0
    else WithAttempts(ms[..|ms| - 1]) + (if HasAttempts(ms[|ms| - 1]) then 1 else 0)
  }

  /** The number of messages with at least one failing attempt. */
  function FailingMessages(ms: seq<Message>): nat
    decreases |ms|
  {
    if ms == [] then 0
    else
      var m := ms[|ms| - 1];
      FailingMessages(ms[..|ms| - 1]) + (if HasAttempts(m) && AnyFailure(m.attempts.value) then 1 else 0)
  }

  /** The number of attempts over all messages that have some. */
  function AttemptTotal(ms: seq<Message>): nat
    decreases |ms|
  {
    if ms == [] then 0
    else
      var m := ms[|ms| - 1];
      AttemptTotal(ms[..|ms| - 1]) + (if HasAttempts(m) then |m.attempts.value| else 0)
  }

  /** `s` is the summary of some message of `ms` that has attempts. */
  ghost predicate SummarizedFrom(s: Summary, ms: seq<Message>, now: int) {
    exists m :: m in ms && HasAttempts(m) && s == SummaryOfMessage(m, now)
  }

  /** One summary for each message with attempts, and nothing else. */
  lemma {:induction false} CollectedExactlyOnePerMessage(ms: seq<Message>, now: int)
    ensures |Collected(ms, now)| == WithAttempts(ms)
    ensures forall s :: s in Collected(ms, now) <==> SummarizedFrom(s, ms, now)
    decreases |ms|
  {
    if ms != [] {
      var init, last := ms[..|ms| - 1], ms[|ms| - 1];
      CollectedExactlyOnePerMessage(init, now);
      forall s ensures s in Collected(ms, now) <==> SummarizedFrom(s, ms, now) {
        SummarizedFromSnoc(s, ms, now);
      }
    }
  }

  /** A message of `ms` is one of its first |ms|-1 messages or its last. */
  lemma SummarizedFromSnoc(s: Summary, ms: seq<Message>, now: int)
    requires ms != []
    ensures SummarizedFrom(s, ms, now) <==>
      SummarizedFrom(s, ms[..|ms| - 1], now)
      || (HasAttempts(ms[|ms| - 1]) && s == SummaryOfMessage(ms[|ms| - 1], now))
  {
    var init, last := ms[..|ms| - 1], ms[|ms| - 1];
    if SummarizedFrom(s, ms, now) {
      var m :| m in ms && HasAttempts(m) && s == SummaryOfMessage(m, now);
      InSnoc(m, ms);
    }
    if SummarizedFrom(s, init, now) {
      var m :| m in init && HasAttempts(m) && s == SummaryOfMessage(m, now);
      InSnoc(m, ms);
    }
    InSnoc(last, ms);
  }

  lemma InSnoc(m: Message, ms: seq<Message>)
    requires ms != []
    ensures m in ms <==> m in ms[..|ms| - 1] || m == ms[|ms| - 1]
  {
    assert ms == ms[..|ms| - 1] + [ms[|ms| - 1]];
  }

  // ---------------------------------------------------------------------------
  // Newest-first order of the summaries
  // ---------------------------------------------------------------------------

  /** `ps` in descending order of `key` applied to the last-attempt time. */
  predicate SortedDescBy(ps: seq<Summary>, key: int -> int) {
    forall i, j :: 0 <= i < j < |ps| ==> key(ps[j].lastAttempt) <= key(ps[i].lastAttempt)
  }

  /** The order the sort is meant to produce: the latest last attempt first. */
  function ExactTime(t: int): int {
    t
  }

  predicate NewestFirst(ps: seq<Summary>) {
    SortedDescBy(ps, ExactTime)
  }

  /**
   * The key the source's comparator actually compares: it re-parses the
   * formatted `lastAttempt`, which shows minutes but no seconds, so the key
   * is the last attempt's time rounded down to its minute.
   */
  function SortKey(t: int): (k: int)
    ensures k <= t < k + MinuteMs
    ensures k % MinuteMs == 0
  {
    t - t % MinuteMs
  }

  lemma SortKeyMonotone(a: int, b: int)
    requires a <= b
    ensures SortKey(a) <= SortKey(b)
  {
  }

  /** Sorted by the minute key, a later summary is never a full minute newer. */
  lemma MinuteOrderWithinAMinute(ps: seq<Summary>, i: int, j: int)
    requires SortedDescBy(ps, SortKey) && 0 <= i < j < |ps|
    ensures ps[j].lastAttempt < ps[i].lastAttempt + MinuteMs
  {
  }

  /** The exact order is also an order by minute. */
  lemma NewestFirstIsMinuteOrder(ps: seq<Summary>)
    requires NewestFirst(ps)
    ensures SortedDescBy(ps, SortKey)
  {
    forall i, j | 0 <= i < j < |ps|
      ensures SortKey(ps[j].lastAttempt) <= SortKey(ps[i].lastAttempt)
    {
      SortKeyMonotone(ps[j].lastAttempt, ps[i].lastAttempt);
    }
  }

  /**
   * The source's order is not newest first: two summaries whose last
   * attempts fall in the same minute (1 s and 59 s past it) have equal keys,
   * so inserting them in input order leaves the newer one second.
   */
  lemma MinuteOrderMisorders(older: Summary, newer: Summary)
    requires older.lastAttempt == 1_000 && newer.lastAttempt == 59_000
    ensures SortedDescBy([older, newer], SortKey)
    ensures InsertByKey(InsertByKey([], older, SortKey), newer, SortKey) == [older, newer]
    ensures !NewestFirst([older, newer])
  {
    assert SortKey(1_000) == 0 && SortKey(59_000) == 0;
    var ps := [older, newer];
    assert SortedDescBy(ps, SortKey) by {
      forall i, j | 0 <= i < j < |ps| ensures SortKey(ps[j].lastAttempt) <= SortKey(ps[i].lastAttempt) {
        assert i == 0 && j == 1;
      }
    }
    EqualKeysKeepOrder(older, newer, SortKey);
    assert !NewestFirst(ps) by {
      assert ExactTime(ps[0].lastAttempt) < ExactTime(ps[1].lastAttempt);
    }
  }

  /** A summary whose key is at least every key of a sorted sequence can go in front of it. */
  lemma SortedCons(x: Summary, r: seq<Summary>, key: int -> int)
    requires SortedDescBy(r, key)
    requires forall k :: 0 <= k < |r| ==> key(r[k].lastAttempt) <= key(x.lastAttempt)
    ensures SortedDescBy([x] + r, key)
  {
    var xr := [x] + r;
    forall i, j | 0 <= i < j < |xr| ensures key(xr[j].lastAttempt) <= key(xr[i].lastAttempt) {
      assert xr[j] == r[j - 1];
      if i > 0 {
        assert xr[i] == r[i - 1];
      }
    }
  }

  /** A bound on the keys of `ps` and of `s` bounds every key of a permutation of `ps` plus `s`. */
  lemma KeysBoundedAfterInsert(r: seq<Summary>, ps: seq<Summary>, s: Summary, key: int -> int, bound: int)
    requires multiset(r) == multiset(ps) + multiset{s}
    requires forall k :: 0 <= k < |ps| ==> key(ps[k].lastAttempt) <= bound
    requires key(s.lastAttempt) <= bound
    ensures forall k :: 0 <= k < |r| ==> key(r[k].lastAttempt) <= bound
  {
    forall k | 0 <= k < |r| ensures key(r[k].lastAttempt) <= bound {
      assert r[k] in multiset(r);
      if r[k] != s {
        assert r[k] in multiset(ps);
        var j :| 0 <= j < |ps| && ps[j] == r[k];
      }
    }
  }

  /** The first summary of a sorted sequence has the largest key. */
  lemma SortedHeadIsMax(ps: seq<Summary>, key: int -> int)
    requires SortedDescBy(ps, key) && ps != []
    ensures forall k :: 0 <= k < |ps| ==> key(ps[k].lastAttempt) <= key(ps[0].lastAttempt)
  {
    forall k | 0 < k < |ps| ensures key(ps[k].lastAttempt) <= key(ps[0].lastAttempt) {
    }
  }

  /** Inserts `s` after every summary whose key is at least its own. */
  function InsertByKey(ps: seq<Summary>, s: Summary, key: int -> int): (r: seq<Summary>)
    requires SortedDescBy(ps, key)
    ensures SortedDescBy(r, key)
    ensures multiset(r) == multiset(ps) + multiset{s}
    decreases |ps|
  {
    if ps == [] then [s]
    else if key(s.lastAttempt) <= key(ps[0].lastAttempt) then
      var rest := InsertByKey(ps[1..], s, key);
      assert ps == [ps[0]] + ps[1..];
      KeysBoundedAfterInsert(rest, ps[1..], s, key, key(ps[0].lastAttempt));
      SortedCons(ps[0], rest, key);
      [ps[0]] + rest
    else
      SortedHeadIsMax(ps, key);
      SortedCons(s, ps, key);
      [s] + ps
  }

  /** A summary whose key is no larger than any key already there goes last. */
  lemma {:induction false} InsertAtEnd(ps: seq<Summary>, s: Summary, key: int -> int)
    requires SortedDescBy(ps, key)
    requires forall k :: 0 <= k < |ps| ==> key(s.lastAttempt) <= key(ps[k].lastAttempt)
    ensures InsertByKey(ps, s, key) == ps + [s]
    decreases |ps|
  {
    if ps != [] {
      InsertAtEnd(ps[1..], s, key);
      assert ps == [ps[0]] + ps[1..];
    }
  }

  /** Two summaries with equal keys stay in the order they are inserted. */
  lemma EqualKeysKeepOrder(a: Summary, b: Summary, key: int -> int)
    requires key(a.lastAttempt) == key(b.lastAttempt)
    ensures InsertByKey(InsertByKey([], a, key), b, key) == [a, b]
  {
    InsertAtEnd([], a, key);
    assert InsertByKey([], a, key) == [a];
    InsertAtEnd([a], b, key);
    assert [a] + [b] == [a, b];
  }

  /** `processedAttempts.sort(...)`: a stable sort, descending by `key`. */
  method SortNewestFirst(ps: seq<Summary>, key: int -> int) returns (sorted: seq<Summary>)
    ensures SortedDescBy(sorted, key)
    ensures multiset(sorted) == multiset(ps)
  {
    sorted := [];
    for i := 0 to |ps|
      invariant SortedDescBy(sorted, key)
      invariant multiset(sorted) == multiset(ps[..i])
    {
      assert ps[..i + 1] == ps[..i] + [ps[i]];
      sorted := InsertByKey(sorted, ps[i], key);
    }
    assert ps[..|ps|] == ps;
  }

  /**
   * processMockData on the loaded messages `messages`, with `now` the time at
   * which getRelativeTime runs, sorting descending by `key` of the last
   * attempt. With `SortKey` this is the source's comparator; with `ExactTime`
   * the result is newest first (see MinuteOrderMisorders for the difference).
   */
  method ProcessMessages(messages: seq<Message>, now: int, key: int -> int) returns (processed: seq<Summary>)
    ensures SortedDescBy(processed, key)
    ensures multiset(processed) == multiset(Collected(messages, now))
    ensures |processed| == WithAttempts(messages)
    ensures forall s :: s in processed <==> SummarizedFrom(s, messages, now)
  {
    var pushed: seq<Summary> := [];
    for i := 0 to |messages|
      invariant pushed == Collected(messages[..i], now)
    {
      assert messages[..i + 1][..i] == messages[..i];
      var message := messages[i];
      if HasAttempts(message) {
        pushed := pushed + [SummaryOfMessage(message, now)];
      }
    }
    assert messages[..|messages|] == messages;
    processed := SortNewestFirst(pushed, key);
    CollectedExactlyOnePerMessage(messages, now);
    assert |processed| == |multiset(processed)| == |multiset(pushed)| == |pushed|;
    forall s ensures s in processed <==> s in pushed {
      assert s in processed <==> s in multiset(processed);
      assert s in pushed <==> s in multiset(pushed);
    }
  }

  // ---------------------------------------------------------------------------
  // Summary statistics (getMockDataSummary)
  // ---------------------------------------------------------------------------

  datatype SummaryStats = SummaryStats(
    totalMessages: nat,
    successMessages: int,
    failedMessages: nat,
    totalAttempts: nat,
    successRate: int)

  /** The sum of `f` over the summaries (the `filter(...).length` and `reduce` of the source). */
  function Tally(ps: seq<Summary>, f: Summary -> nat): (r: nat)
    ensures ps == [] ==> r == 0
    ensures forall k :: 0 <= k < |ps| ==> f(ps[k]) <= r
    decreases |ps|
  {
    if ps == [] then 0 else Tally(ps[..|ps| - 1], f) + f(ps[|ps| - 1])
  }

  function FailedWeight(s: Summary): nat {
    if s.status == Failed then 1 else 0
  }

  function AttemptWeight(s: Summary): nat {
    s.attempts
  }

  lemma {:induction false} TallyConcat(a: seq<Summary>, b: seq<Summary>, f: Summary -> nat)
    ensures Tally(a + b, f) == Tally(a, f) + Tally(b, f)
    decreases |b|
  {
    if b != [] {
      assert (a + b)[..|a + b| - 1] == a + b[..|b| - 1];
      assert (a + b)[|a + b| - 1] == b[|b| - 1];
      TallyConcat(a, b[..|b| - 1], f);
    } else {
      assert a + b == a;
    }
  }

  /** Taking out the summary at `k` takes its weight out of the tally. */
  lemma {:induction false} TallyRemove(b: seq<Summary>, k: int, f: Summary -> nat)
    requires 0 <= k < |b|
    ensures Tally(b, f) == Tally(b[..k] + b[k + 1..], f) + f(b[k])
  {
    var left, right := b[..k], b[k + 1..];
    assert b == (left + [b[k]]) + right;
    TallyConcat(left + [b[k]], right, f);
    TallyConcat(left, [b[k]], f);
    TallyConcat(left, right, f);
    assert Tally([b[k]], f) == f(b[k]) by {
      assert [b[k]][..0] == [];
    }
  }

  lemma MultisetRemove(b: seq<Summary>, k: int)
    requires 0 <= k < |b|
    ensures multiset(b[..k] + b[k + 1..]) == multiset(b) - multiset{b[k]}
  {
    assert b == b[..k] + [b[k]] + b[k + 1..];
  }

  /** A tally does not depend on the order of the summaries. */
  lemma {:induction false} TallyPermutation(a: seq<Summary>, b: seq<Summary>, f: Summary -> nat)
    requires multiset(a) == multiset(b)
    ensures Tally(a, f) == Tally(b, f)
    decreases |a|
  {
    if a == [] {
      assert |b| == |multiset(b)| == 0;
    } else {
      var x := a[|a| - 1];
      var a' := a[..|a| - 1];
      assert a == a' + [x];
      assert multiset(a') == multiset(a) - multiset{x};
      assert x in multiset(b);
      var k :| 0 <= k < |b| && b[k] == x;
      TallyRemove(b, k, f);
      MultisetRemove(b, k);
      TallyPermutation(a', b[..k] + b[k + 1..], f);
    }
  }

  /** The tallies of the collected summaries, counted on the messages. */
  lemma {:induction false} CollectedTallies(ms: seq<Message>, now: int)
    ensures Tally(Collected(ms, now), FailedWeight) == FailingMessages(ms)
    ensures Tally(Collected(ms, now), AttemptWeight) == AttemptTotal(ms)
    decreases |ms|
  {
    if ms != [] {
      var init := ms[..|ms| - 1];
      CollectedTallies(init, now);
      var m := ms[|ms| - 1];
      if HasAttempts(m) {
        var s := SummaryOfMessage(m, now);
        assert Collected(ms, now) == Collected(init, now) + [s];
        TallySnoc(Collected(init, now), s, FailedWeight);
        TallySnoc(Collected(init, now), s, AttemptWeight);
        SummaryWeights(m, now);
      } else {
        assert Collected(ms, now) == Collected(init, now);
      }
    }
  }

  /** What one message's summary adds to each tally. */
  lemma SummaryWeights(m: Message, now: int)
    requires HasAttempts(m)
    ensures FailedWeight(SummaryOfMessage(m, now)) == if AnyFailure(m.attempts.value) then 1 else 0
    ensures AttemptWeight(SummaryOfMessage(m, now)) == |m.attempts.value|
  {
  }

  lemma TallySnoc(c: seq<Summary>, s: Summary, f: Summary -> nat)
    ensures Tally(c + [s], f) == Tally(c, f) + f(s)
  {
    assert (c + [s])[..|c|] == c;
  }

  /**
   * `rate` is 100·success/total rounded half up: 2·rate·total lies within
   * total below or strictly less than total above 200·success.
   */
  predicate RoundsHalfUp(rate: int, success: int, total: int) {
    total > 0 ==> 2 * rate * total <= 200 * success + total < 2 * (rate + 1) * total
  }

  /**
   * `Math.round((success / total) * 100)` on exact rationals: round half up
   * of 100·success/total; 0 when there are no messages.
   */
  function SuccessRate(success: nat, total: nat): (r: int)
    requires success <= total
    ensures 0 <= r <= 100
    ensures total == 0 ==> r == 0
    ensures RoundsHalfUp(r, success, total)
  {
    if total > 0 then RoundHalfUp(200 * success + total, 2 * total) else 0
  }

  /** Floor of n/d, with the bounds that make it round-half-up of 100·s/t. */
  function RoundHalfUp(n: nat, d: nat): (q: nat)
    requires d > 0 && n < 101 * d
    ensures q * d <= n < (q + 1) * d
    ensures q <= 100
  {
    var q := n / d;
    assert q * d <= n < q * d + d by {
      assert n == d * q + n % d;
    }
    assert q <= 100 by {
      if q > 100 {
        MulMonotone(101, q, d);
      }
    }
    q
  }

  lemma MulMonotone(x: nat, y: nat, d: nat)
    requires x <= y
    ensures x * d <= y * d
  {
  }

  /** getMockDataSummary's reduction over already processed summaries. */
  function MockDataSummary(processed: seq<Summary>): (st: SummaryStats)
    ensures st.totalMessages == |processed|
    ensures st.failedMessages == Tally(processed, FailedWeight)
    ensures st.successMessages + st.failedMessages == st.totalMessages
    ensures 0 <= st.successMessages <= st.totalMessages
    ensures st.totalAttempts == Tally(processed, AttemptWeight)
    ensures 0 <= st.successRate <= 100
    ensures st.totalMessages == 0 ==> st == SummaryStats(0, 0, 0, 0, 0)
    ensures RoundsHalfUp(st.successRate, st.successMessages, st.totalMessages)
  {
    FailedAtMostAll(processed);
    var totalMessages := |processed|;
    var failedMessages := Tally(processed, FailedWeight);
    var successMessages := totalMessages - failedMessages;
    assert processed == [] ==> Tally(processed, AttemptWeight) == 0;
    SummaryStats(totalMessages, successMessages, failedMessages,
                 Tally(processed, AttemptWeight), SuccessRate(successMessages, totalMessages))
  }

  lemma {:induction false} FailedAtMostAll(ps: seq<Summary>)
    ensures Tally(ps, FailedWeight) <= |ps|
    decreases |ps|
  {
    if ps != [] {
      FailedAtMostAll(ps[..|ps| - 1]);
    }
  }

  /**
   * getMockDataSummary: process the messages with the source's comparator,
   * then reduce. The statistics do not depend on the order, and are counted
   * on the messages themselves.
   */
  method GetMockDataSummary(messages: seq<Message>, now: int) returns (st: SummaryStats)
    ensures st.totalMessages == WithAttempts(messages)
    ensures st.failedMessages == FailingMessages(messages)
    ensures st.successMessages == WithAttempts(messages) - FailingMessages(messages)
    ensures st.totalAttempts == AttemptTotal(messages)
    ensures 0 <= st.successRate <= 100
    ensures st.totalMessages == 0 ==> st.successRate == 0
    ensures RoundsHalfUp(st.successRate, st.successMessages, st.totalMessages)
  {
    var processed := ProcessMessages(messages, now, SortKey);
    st := MockDataSummary(processed);
    var collected := Collected(messages, now);
    TallyPermutation(processed, collected, FailedWeight);
    TallyPermutation(processed, collected, AttemptWeight);
    CollectedTallies(messages, now);
    assert st.totalMessages == WithAttempts(messages);
    assert st.failedMessages == FailingMessages(messages);
  }

  // ---------------------------------------------------------------------------
  // The loaded-data cache (loadMockData)
  // ---------------------------------------------------------------------------

  /**
   * The module-level `cachedMessages`. The fetch of the fixture is not
   * modelled: its outcome is passed in (None when the request or the JSON
   * decoding failed), and is used only when nothing is cached yet.
   */
  class MockDataCache {
    var cached: Option<seq<Message>>

    constructor ()
      ensures cached == None
    {
      cached := None;
    }

    method LoadMockData(fetched: Option<seq<Message>>) returns (messages: seq<Message>)
      modifies this
      ensures old(cached).Some? ==> messages == old(cached).value && cached == old(cached)
      ensures old(cached).None? && fetched.Some? ==> messages == fetched.value && cached == fetched
      ensures old(cached).None? && fetched.None? ==> messages == [] && cached == None
    {
      if cached.Some? {
        return cached.value;
      }
      if fetched.Some? {
        cached := fetched;
        messages := fetched.value;
      } else {
        messages := [];
      }
    }

    /**
     * What the Dashboard's refresh is meant to do ("Clear cache and reload"):
     * drop the cached data, then load again.
     */
    method Refresh(fetched: Option<seq<Message>>) returns (messages: seq<Message>)
      modifies this
      ensures messages == if fetched.Some? then fetched.value else []
      ensures cached == fetched
    {
      cached := None;
      messages := LoadMockData(fetched);
    }
  }

  /**
   * The refresh as written only loads again, so once data is cached it
   * returns the first load and never the refetched data.
   */
  method StaleRefresh() returns (loaded: seq<Message>, refreshed: seq<Message>, refetched: seq<Message>)
    ensures refreshed == loaded && refreshed != refetched
  {
    var cache := new MockDataCache();
    loaded := cache.LoadMockData(Some([Message("m1", None)]));
    refetched := [Message("m2", None)];
    refreshed := cache.LoadMockData(Some(refetched));
  }

  /**
   * A failure followed by a later success: the message is Failed and its
   * response code is the failure's, not the later success's.
   */
  lemma FailureThenSuccess(now: int)
    ensures var atts := [
        Attempt("a1", "m3", 1_000, true, None, 502, "bad gateway"),
        Attempt("a2", "m3", 2_000, false, None, 200, "ok")];
      var s := SummaryOf("m3", atts, now);
      && s.status == Failed
      && s.responseCode == Some(502)
      && s.issue == Some("502")
      && s.failureDetails == Some(FailureDetails(502, "Unknown error", "bad gateway", 1_000))
      && s.successDetails == Some(SuccessDetails(200, "ok", 2_000))
      && s.firstAttempt == 1_000 && s.lastAttempt == 2_000 && s.attempts == 2
  {
    var atts := [
        Attempt("a1", "m3", 1_000, true, None, 502, "bad gateway"),
        Attempt("a2", "m3", 2_000, false, None, 200, "ok")];
    assert atts[0].isFailure && !atts[1].isFailure;
    assert Decimal.IntToString(502) == "502" by {
      assert Decimal.NatToString(5) == "5";
      assert Decimal.NatToString(50) == "50";
    }
  }
}
