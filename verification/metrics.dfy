/** The rolling request window, its percentiles, and the alerts computed from them. */
module Metrics {
  import opened Options

  datatype Sample = Sample(at: real, statusCode: int, elapsedMs: real)

  // ------------------------------------------------------- the window

  /** deque(maxlen = max): only the newest `max` samples of a history are kept. */
  function Newest(history: seq<Sample>, max: nat): seq<Sample> {
    if |history| <= max then history else history[|history| - max..]
  }

  /** The samples no older than `cutoff`. */
  function InWindow(s: seq<Sample>, cutoff: real): seq<Sample> {
    if s == [] then []
    else InWindow(s[..|s| - 1], cutoff) + (if s[|s| - 1].at >= cutoff then [s[|s| - 1]] else [])
  }

  ghost predicate InOrder(s: seq<Sample>) {
    forall i, j :: 0 <= i < j < |s| ==> s[i].at <= s[j].at
  }

  lemma {:induction false} InWindowAppend(a: seq<Sample>, b: seq<Sample>, cutoff: real)
    ensures InWindow(a + b, cutoff) == InWindow(a, cutoff) + InWindow(b, cutoff)
    decreases |b|
  {
    if b == [] {
      assert a + b == a;
    } else {
      assert (a + b)[..|a + b| - 1] == a + b[..|b| - 1];
      InWindowAppend(a, b[..|b| - 1], cutoff);
    }
  }

  lemma {:induction false} InWindowAll(s: seq<Sample>, cutoff: real)
    requires forall x <- s :: x.at >= cutoff
    ensures InWindow(s, cutoff) == s
    decreases |s|
  {
    if s != [] {
      assert s[|s| - 1] in s;
      InWindowAll(s[..|s| - 1], cutoff);
    }
  }

  lemma {:induction false} InWindowNone(s: seq<Sample>, cutoff: real)
    requires forall x <- s :: x.at < cutoff
    ensures InWindow(s, cutoff) == []
    decreases |s|
  {
    if s != [] {
      assert s[|s| - 1] in s;
      InWindowNone(s[..|s| - 1], cutoff);
    }
  }

  /** Of an ordered history the window is a suffix. */
  lemma WindowIsSuffix(s: seq<Sample>, cutoff: real, k: nat)
    requires k <= |s|
    requires forall i :: 0 <= i < k ==> s[i].at < cutoff
    requires forall i :: k <= i < |s| ==> s[i].at >= cutoff
    ensures InWindow(s, cutoff) == s[k..]
  {
    var early, late := s[..k], s[k..];
    assert s == early + late;
    assert forall i :: 0 <= i < |early| ==> early[i] == s[i];
    assert forall i :: 0 <= i < |late| ==> late[i] == s[k + i];
    InWindowNone(early, cutoff);
    InWindowAll(late, cutoff);
    InWindowAppend(early, late, cutoff);
  }

  lemma WindowStart(s: seq<Sample>, cutoff: real, from: nat) returns (k: nat)
    requires InOrder(s) && from <= |s| && forall i :: 0 <= i < from ==> s[i].at < cutoff
    ensures from <= k <= |s| && InWindow(s, cutoff) == s[k..]
    ensures forall i :: 0 <= i < k ==> s[i].at < cutoff
    ensures forall i :: k <= i < |s| ==> s[i].at >= cutoff
  {
    k := from;
    while k < |s| && s[k].at < cutoff
      invariant from <= k <= |s| && forall i :: 0 <= i < k ==> s[i].at < cutoff
    {
      k := k + 1;
    }
    WindowIsSuffix(s, cutoff, k);
  }

  /** Trimming an already trimmed window again with a later cutoff. */
  lemma WindowTwice(s: seq<Sample>, early: real, late: real)
    requires InOrder(s) && early <= late
    ensures InWindow(InWindow(s, early), late) == InWindow(s, late)
    ensures InOrder(InWindow(s, early))
  {
    var j := WindowStart(s, early, 0);
    var k := WindowStart(s, late, j);
    WindowIsSuffix(s[j..], late, k - j);
    assert s[j..][k - j..] == s[k..];
  }

  lemma {:induction false} InWindowShorter(s: seq<Sample>, cutoff: real)
    ensures |InWindow(s, cutoff)| <= |s|
    decreases |s|
  {
    if s != [] {
      InWindowShorter(s[..|s| - 1], cutoff);
    }
  }

  /** One more sample, with room for it. */
  lemma WindowGrows(h: seq<Sample>, cutoff: real, x: Sample)
    requires x.at >= cutoff
    ensures InWindow(h + [x], cutoff) == InWindow(h, cutoff) + [x]
  {
    assert (h + [x])[..|h|] == h;
  }

  /** One more sample, pushing the oldest one out. */
  lemma WindowSlides(h: seq<Sample>, cutoff: real, x: Sample)
    requires h != [] && InOrder(h) && x.at >= cutoff
    ensures InWindow(h[1..] + [x], cutoff) == Newest(InWindow(h, cutoff) + [x], |h|)
  {
    var k := WindowStart(h, cutoff, 0);
    WindowGrows(h[1..], cutoff, x);
    WindowIsSuffix(h[1..], cutoff, if k == 0 then 0 else k - 1);
  }

  /** Appending to the trimmed, bounded deque keeps it the window of the whole bounded history. */
  lemma RecordKeepsWindow(history: seq<Sample>, max: nat, cutoff: real, x: Sample)
    requires InOrder(history) && x.at >= cutoff
    ensures Newest(InWindow(Newest(history, max), cutoff) + [x], max) == InWindow(Newest(history + [x], max), cutoff)
  {
    NewestMore(history, max, x);
    var h := Newest(history, max);
    InWindowShorter(h, cutoff);
    if |history| < max {
      WindowGrows(h, cutoff, x);
    } else if max > 0 {
      WindowSlides(h, cutoff, x);
    }
  }

  lemma NewestMore(history: seq<Sample>, max: nat, x: Sample)
    ensures |history| < max ==> Newest(history + [x], max) == Newest(history, max) + [x]
    ensures |history| >= max > 0 ==> Newest(history + [x], max) == Newest(history, max)[1..] + [x]
    ensures max == 0 ==> Newest(history + [x], max) == []
    ensures InOrder(history) ==> InOrder(Newest(history, max))
  {
  }

  /** The deque is ordered, and trimming it later is trimming the bounded history. */
  lemma TrimOrdered(history: seq<Sample>, max: nat, early: real, late: real)
    requires InOrder(history) && early <= late
    ensures InOrder(InWindow(Newest(history, max), early))
    ensures InWindow(InWindow(Newest(history, max), early), late) == InWindow(Newest(history, max), late)
  {
    NewestInOrder(history, max);
    WindowTwice(Newest(history, max), early, late);
  }

  lemma NewestInOrder(history: seq<Sample>, max: nat)
    requires InOrder(history)
    ensures InOrder(Newest(history, max))
  {
  }

  // -------------------------------------------------------- statistics

  /** An exact quotient; over nothing it is 0. */
  datatype Ratio = Ratio(part: nat, whole: nat) {
    predicate MoreThan(percent: nat) {
      whole > 0 && 100 * part > percent * whole
    }
  }

  datatype Snapshot = Snapshot(requestCount: nat, errorCount: nat, errorRate: Ratio, p50: Option<real>, p95: Option<real>)

  function Errors(s: seq<Sample>): nat {
    if s == [] then 0 else Errors(s[..|s| - 1]) + (if s[|s| - 1].statusCode >= 500 then 1 else 0)
  }

  /** Exactly the answers from 500 on are errors. */
  lemma {:induction false} ErrorsAreServerErrors(s: seq<Sample>)
    ensures Errors(s) == |set i: nat | i < |s| && s[i].statusCode >= 500|
    decreases |s|
  {
    var failing := set i: nat | i < |s| && s[i].statusCode >= 500;
    if s == [] {
      assert failing == {};
    } else {
      var n := |s| - 1;
      var front := s[..n];
      ErrorsAreServerErrors(front);
      var earlier := set i: nat | i < |front| && front[i].statusCode >= 500;
      assert failing == if s[n].statusCode >= 500 then earlier + {n} else earlier;
    }
  }

  function Latencies(s: seq<Sample>): seq<real> {
    if s == [] then [] else Latencies(s[..|s| - 1]) + [s[|s| - 1].elapsedMs]
  }

  ghost predicate Ascending(v: seq<real>) {
    forall i, j :: 0 <= i < j < |v| ==> v[i] <= v[j]
  }

  function Insert(x: real, v: seq<real>): (r: seq<real>)
    ensures multiset(r) == multiset(v) + multiset{x}
  {
    if v == [] || x >= v[|v| - 1] then v + [x]
    else
      var r := Insert(x, v[..|v| - 1]) + [v[|v| - 1]];
      assert v == v[..|v| - 1] + [v[|v| - 1]];
      r
  }

  /** Python's sorted(). */
  function Sorted(v: seq<real>): seq<real> {
    if v == [] then [] else Insert(v[|v| - 1], Sorted(v[..|v| - 1]))
  }

  lemma {:induction false} InsertAscending(x: real, v: seq<real>)
    requires Ascending(v)
    ensures Ascending(Insert(x, v)) && |Insert(x, v)| == |v| + 1
    ensures forall y <- Insert(x, v) :: y == x || y in v
    decreases |v|
  {
    if v != [] && x < v[|v| - 1] {
      InsertAscending(x, v[..|v| - 1]);
      var front := Insert(x, v[..|v| - 1]);
      assert forall i :: 0 <= i < |front| ==> front[i] in front;
    }
  }

  lemma {:induction false} SortedAscending(v: seq<real>)
    ensures Ascending(Sorted(v)) && |Sorted(v)| == |v| && multiset(Sorted(v)) == multiset(v)
    decreases |v|
  {
    if v != [] {
      SortedAscending(v[..|v| - 1]);
      InsertAscending(v[|v| - 1], Sorted(v[..|v| - 1]));
      assert v == v[..|v| - 1] + [v[|v| - 1]];
    }
  }

  /** The value at floor(n * percent / 100), held inside the list. */
  function Percentile(v: seq<real>, percent: nat): Option<real>
    requires percent <= 100
  {
    if v == [] then None
    else
      var idx := |v| * percent / 100;
      Some(v[if idx < |v| - 1 then idx else |v| - 1])
  }

  function SnapshotOf(recent: seq<Sample>): Snapshot {
    var v := Sorted(Latencies(recent));
    Snapshot(|recent|, Errors(recent),
             Ratio(Errors(recent), |recent|),
             Percentile(v, 50), Percentile(v, 95))
  }

  // --------------------------------------------------- the p95 threshold

  ghost function Above(v: seq<real>, t: real): nat {
    if v == [] then 0 else Above(v[..|v| - 1], t) + (if v[|v| - 1] > t then 1 else 0)
  }

  lemma {:induction false} AboveCounts(v: seq<real>, t: real, k: nat)
    requires k <= |v|
    ensures (forall i :: k <= i < |v| ==> v[i] > t) ==> Above(v, t) >= |v| - k
    ensures (forall i :: 0 <= i < k ==> v[i] <= t) ==> Above(v, t) <= |v| - k
    decreases |v|
  {
    if v != [] {
      AboveCounts(v[..|v| - 1], t, if k < |v| then k else k - 1);
    }
  }

  lemma {:induction false} AboveInsert(x: real, v: seq<real>, t: real)
    ensures Above(Insert(x, v), t) == Above(v, t) + (if x > t then 1 else 0)
    decreases |v|
  {
    if v == [] || x >= v[|v| - 1] {
      assert (v + [x])[..|v|] == v;
    } else {
      AboveInsert(x, v[..|v| - 1], t);
      var r := Insert(x, v[..|v| - 1]);
      assert (r + [v[|v| - 1]])[..|r|] == r;
    }
  }

  lemma {:induction false} AboveSorted(v: seq<real>, t: real)
    ensures Above(Sorted(v), t) == Above(v, t)
    decreases |v|
  {
    if v != [] {
      AboveSorted(v[..|v| - 1], t);
      AboveInsert(v[|v| - 1], Sorted(v[..|v| - 1]), t);
    }
  }

  ghost function Slow(s: seq<Sample>, limit: real): nat {
    if s == [] then 0 else Slow(s[..|s| - 1], limit) + (if s[|s| - 1].elapsedMs > limit then 1 else 0)
  }

  lemma {:induction false} SlowIsAbove(s: seq<Sample>, limit: real)
    ensures |Latencies(s)| == |s| && Above(Latencies(s), limit) == Slow(s, limit)
    decreases |s|
  {
    if s != [] {
      SlowIsAbove(s[..|s| - 1], limit);
      assert Latencies(s)[..|s| - 1] == Latencies(s[..|s| - 1]);
    }
  }

  lemma AscendingAbove(v: seq<real>, t: real, k: nat)
    requires Ascending(v) && k < |v|
    ensures v[k] > t <==> Above(v, t) >= |v| - k
  {
    if v[k] > t {
      AboveCounts(v, t, k);
    } else {
      AboveCounts(v, t, k + 1);
    }
  }

  /** p95 passes a limit exactly when at least one sample in twenty does. */
  lemma P95Exact(recent: seq<Sample>, limit: real)
    ensures var p := SnapshotOf(recent).p95;
            && (p.Some? <==> recent != [])
            && (p.Some? && p.value > limit <==> recent != [] && 20 * Slow(recent, limit) >= |recent|)
  {
    var v := Sorted(Latencies(recent));
    SlowIsAbove(recent, limit);
    SortedAscending(Latencies(recent));
    AboveSorted(Latencies(recent), limit);
    if recent != [] {
      P95Index(|recent|, Slow(recent, limit));
      AscendingAbove(v, limit, |recent| * 95 / 100);
    }
  }

  /** p50 passes a limit exactly when at least half of the samples do. */
  lemma P50Exact(recent: seq<Sample>, limit: real)
    ensures var p := SnapshotOf(recent).p50;
            && (p.Some? <==> recent != [])
            && (p.Some? && p.value > limit <==> recent != [] && 2 * Slow(recent, limit) >= |recent|)
  {
    var v := Sorted(Latencies(recent));
    SlowIsAbove(recent, limit);
    SortedAscending(Latencies(recent));
    AboveSorted(Latencies(recent), limit);
    if recent != [] {
      P50Index(|recent|, Slow(recent, limit));
      AscendingAbove(v, limit, |recent| * 50 / 100);
    }
  }

  lemma P50Index(n: nat, slow: nat)
    requires n > 0
    ensures n * 50 / 100 <= n - 1
    ensures slow >= n - n * 50 / 100 <==> 2 * slow >= n
  {
  }

  lemma P95Index(n: nat, slow: nat)
    requires n > 0
    ensures n * 95 / 100 <= n - 1
    ensures slow >= n - n * 95 / 100 <==> 20 * slow >= n
  {
  }

  // -------------------------------------------------------------- alerts

  datatype Signal = DatabaseUnreachable | RedisUnreachable | ErrorRate | LatencyP95 | DiskUsage

  const LATENCY_P95_LIMIT_MS := 1500.0

  function When(condition: bool, signal: Signal): seq<Signal> {
    if condition then [signal] else []
  }

  /** The breached thresholds, in their fixed order. */
  method CheckAlerts(m: Snapshot, dbStatus: string, redisStatus: string, diskPct: real) returns (alerts: seq<Signal>)
    ensures alerts == When(dbStatus == "unreachable", DatabaseUnreachable) + When(redisStatus == "unreachable", RedisUnreachable)
                    + When(m.requestCount >= 20 && m.errorRate.MoreThan(5), ErrorRate)
                    + When(m.p95.Some? && m.p95.value > 1500.0, LatencyP95)
                    + When(diskPct > 85.0, DiskUsage)
  {
    alerts := [];
    if dbStatus == "unreachable" {
      alerts := alerts + [DatabaseUnreachable];
    }
    assert alerts == When(dbStatus == "unreachable", DatabaseUnreachable);
    ghost var before := alerts;
    if redisStatus == "unreachable" {
      alerts := alerts + [RedisUnreachable];
    }
    assert alerts == before + When(redisStatus == "unreachable", RedisUnreachable);
    before := alerts;
    if m.requestCount >= 20 && m.errorRate.MoreThan(5) {
      alerts := alerts + [ErrorRate];
    }
    assert alerts == before + When(m.requestCount >= 20 && m.errorRate.MoreThan(5), ErrorRate);
    before := alerts;
    if m.p95.Some? && m.p95.value > LATENCY_P95_LIMIT_MS {
      alerts := alerts + [LatencyP95];
    }
    assert alerts == before + When(m.p95.Some? && m.p95.value > LATENCY_P95_LIMIT_MS, LatencyP95);
    before := alerts;
    if diskPct > 85.0 {
      alerts := alerts + [DiskUsage];
    }
    assert alerts == before + When(diskPct > 85.0, DiskUsage);
  }

  /** More than one request in twenty answered 500 or above, out of at least twenty. */
  lemma ErrorRateExact(recent: seq<Sample>)
    ensures var failing := |set i: nat | i < |recent| && recent[i].statusCode >= 500|;
            && SnapshotOf(recent).errorCount == failing
            && SnapshotOf(recent).errorRate == Ratio(failing, |recent|)
            && (SnapshotOf(recent).requestCount >= 20 && SnapshotOf(recent).errorRate.MoreThan(5) <==>
                  |recent| >= 20 && 20 * failing > |recent|)
  {
    ErrorsAreServerErrors(recent);
  }

  /** The longest suffix of a history that has at most `max` samples and none older than `cutoff`. */
  ghost predicate LongestRecent(history: seq<Sample>, max: nat, cutoff: real, recent: seq<Sample>) {
    && |recent| <= |history| && recent == history[|history| - |recent|..]
    && |recent| <= max
    && (forall i :: 0 <= i < |recent| ==> recent[i].at >= cutoff)
    && (recent == history || |recent| == max || history[|history| - |recent| - 1].at < cutoff)
  }

  lemma RecentExactly(history: seq<Sample>, max: nat, cutoff: real)
    requires InOrder(history)
    ensures LongestRecent(history, max, cutoff, InWindow(Newest(history, max), cutoff))
  {
    var s := Newest(history, max);
    NewestInOrder(history, max);
    var first := |history| - |s|;
    assert s == history[first..];
    var j := WindowStart(s, cutoff, 0);
    assert s[j..] == history[first + j..];
    assert j > 0 ==> history[first + j - 1] == s[j - 1];
  }

  // ------------------------------------------------------------ registry

  /** popleft until the head is recent enough: on ordered samples that is the whole filter. */
  method DropOlder(s: seq<Sample>, limit: real) returns (r: seq<Sample>)
    requires InOrder(s)
    ensures r == InWindow(s, limit)
  {
    r := s;
    var dropped := 0;
    while r != [] && r[0].at < limit
      invariant dropped <= |s| && r == s[dropped..]
      invariant forall i :: 0 <= i < dropped ==> s[i].at < limit
      decreases |r|
    {
      assert r[0] == s[dropped];
      r := r[1..];
      dropped := dropped + 1;
    }
    assert dropped < |s| ==> r[0] == s[dropped];
    WindowIsSuffix(s, limit, dropped);
  }

  /** The sums over the samples of a snapshot. */
  method Tally(recent: seq<Sample>) returns (errors: nat, latencies: seq<real>)
    ensures errors == Errors(recent) && latencies == Latencies(recent)
  {
    errors, latencies := 0, [];
    for i := 0 to |recent|
      invariant errors == Errors(recent[..i]) && latencies == Latencies(recent[..i])
    {
      if recent[i].statusCode >= 500 {
        errors := errors + 1;
      }
      latencies := latencies + [recent[i].elapsedMs];
      assert recent[..i + 1][..i] == recent[..i];
    }
    assert recent[..|recent|] == recent;
  }

  /** deque.append: at the bound the oldest samples fall out on the left. */
  method Append(s: seq<Sample>, max: nat, x: Sample) returns (r: seq<Sample>)
    ensures r == Newest(s + [x], max)
  {
    r := s + [x];
    if |r| > max {
      r := r[|r| - max..];
    }
  }

  lemma InOrderAppend(history: seq<Sample>, x: Sample)
    requires InOrder(history) && forall i :: 0 <= i < |history| ==> history[i].at <= x.at
    ensures InOrder(history + [x])
    ensures forall i :: 0 <= i < |history + [x]| ==> (history + [x])[i].at <= x.at
  {
  }

  class MetricsRegistry {
    const windowSeconds: real
    const maxSamples: nat
    var samples: seq<Sample>
    ghost var history: seq<Sample>    // every sample ever recorded
    ghost var clock: real             // the latest reading of time.monotonic()
    ghost var cutoff: real            // the latest cutoff trimmed to

    ghost predicate Valid()
      reads this
    {
      && windowSeconds >= 0.0
      && cutoff <= clock - windowSeconds
      && InOrder(history)
      && (forall i :: 0 <= i < |history| ==> history[i].at <= clock)
      && samples == InWindow(Newest(history, maxSamples), cutoff)
    }

    constructor (windowSeconds: real, maxSamples: nat)
      requires windowSeconds >= 0.0
      ensures Valid() && history == [] && clock == 0.0
      ensures this.windowSeconds == windowSeconds && this.maxSamples == maxSamples
    {
      this.windowSeconds, this.maxSamples := windowSeconds, maxSamples;
      samples, history, clock, cutoff := [], [], 0.0, -windowSeconds;
    }

    method Record(now: real, statusCode: int, elapsedMs: real)
      requires Valid() && now >= clock
      modifies this
      ensures Valid() && clock == now
      ensures history == old(history) + [Sample(now, statusCode, elapsedMs)]
    {
      var x := Sample(now, statusCode, elapsedMs);
      RecordKeepsWindow(history, maxSamples, cutoff, x);
      InOrderAppend(history, x);
      samples := Append(samples, maxSamples, x);
      history, clock := history + [x], now;
    }

    /** Trimming returns the in-window part of the last maxSamples samples ever recorded, whatever was trimmed before. */
    method Recent(now: real) returns (recent: seq<Sample>)
      requires Valid() && now >= clock
      modifies this
      ensures Valid() && clock == now && history == old(history)
      ensures recent == InWindow(Newest(history, maxSamples), now - windowSeconds)
    {
      var limit := now - windowSeconds;
      TrimOrdered(history, maxSamples, cutoff, limit);
      samples := DropOlder(samples, limit);
      clock, cutoff := now, limit;
      recent := samples;
    }

    method TakeSnapshot(now: real) returns (s: Snapshot)
      requires Valid() && now >= clock
      modifies this
      ensures Valid() && clock == now && history == old(history)
      ensures s == SnapshotOf(InWindow(Newest(history, maxSamples), now - windowSeconds))
      ensures var recent := InWindow(Newest(history, maxSamples), now - windowSeconds);
              var failing := |set i: nat | i < |recent| && recent[i].statusCode >= 500|;
              s.requestCount == |recent| && s.errorCount == failing && s.errorRate == Ratio(failing, |recent|)
    {
      var recent := Recent(now);
      var errors, latencies := Tally(recent);
      ErrorRateExact(recent);
      latencies := Sorted(latencies);
      s := Snapshot(|recent|, errors, Ratio(errors, |recent|),
                    Percentile(latencies, 50), Percentile(latencies, 95));
    }

    /** One cycle of the monitor: a snapshot now, and the alerts it raises. */
    method CheckNow(now: real, dbStatus: string, redisStatus: string, diskPct: real) returns (alerts: seq<Signal>)
      requires Valid() && now >= clock
      modifies this
      ensures Valid() && clock == now && history == old(history)
      ensures var recent := InWindow(Newest(history, maxSamples), now - windowSeconds);
              var failing := |set i: nat | i < |recent| && recent[i].statusCode >= 500|;
              alerts == When(dbStatus == "unreachable", DatabaseUnreachable) + When(redisStatus == "unreachable", RedisUnreachable)
                      + When(|recent| >= 20 && 20 * failing > |recent|, ErrorRate)
                      + When(recent != [] && 20 * Slow(recent, 1500.0) >= |recent|, LatencyP95)
                      + When(diskPct > 85.0, DiskUsage)
    {
      var s := TakeSnapshot(now);
      ghost var recent := InWindow(Newest(history, maxSamples), now - windowSeconds);
      P95Exact(recent, LATENCY_P95_LIMIT_MS);
      ErrorRateExact(recent);
      alerts := CheckAlerts(s, dbStatus, redisStatus, diskPct);
    }
  }
}
