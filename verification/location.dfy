/** Ingesting batches of positions from a driver's device. */
module Location {
  import opened Basics

  const MAX_BATCH := 50
  const SLACK_MS := 60_000

  datatype Point = Point(lat: real, lng: real)

  datatype Sample = Sample(point: Point, at: int)

  /** What is kept of a driver: nothing while offline. */
  datatype Driver = Offline | Online(ts: Option<int>, point: Option<Point>)

  datatype Reply = Accepted(count: nat) | Empty | TooMany | DriverOffline

  predicate Valid(p: Point) {
    -90.0 <= p.lat <= 90.0 && -180.0 <= p.lng <= 180.0 && !(p.lat == 0.0 && p.lng == 0.0)
  }

  predicate InKosovo(p: Point) { 41.85 <= p.lat <= 43.30 && 19.95 <= p.lng <= 21.80 }

  predicate Usable(s: Sample, last: int, now: int) {
    Valid(s.point) && InKosovo(s.point) && last < s.at <= now + SLACK_MS
  }

  /** The distinct timestamps a batch brings that are newer than `last` and not in the future. */
  ghost function News(samples: seq<Sample>, last: int, now: int): set<int> {
    set s | s in samples && Usable(s, last, now) :: s.at
  }

  ghost predicate IsMax(m: int, ts: set<int>) { m in ts && forall t :: t in ts ==> t <= m }

  /** The timestamp kept after a batch. */
  ghost predicate Keeps(samples: seq<Sample>, last: int, now: int, after: int) {
    var news := News(samples, last, now);
    if news == {} then after == last else IsMax(after, news)
  }

  function LastOf(d: Driver): int { if d.Online? && d.ts.Some? then d.ts.value else 0 }

  // ------------------------------------------------------------------- sorting

  predicate Sorted(s: seq<Sample>) { forall i, k :: 0 <= i < k < |s| ==> s[i].at <= s[k].at }

  /** All in order except that the sample at `k` may belong further left. */
  predicate SortedBut(s: seq<Sample>, k: nat) {
    forall i, j :: 0 <= i < j < |s| && j != k ==> s[i].at <= s[j].at
  }

  function Swap(s: seq<Sample>, i: nat, j: nat): seq<Sample>
    requires i < |s| && j < |s|
  {
    s[i := s[j]][j := s[i]]
  }

  lemma SwapPermutes(s: seq<Sample>, k: nat)
    requires 0 < k < |s|
    ensures multiset(Swap(s, k, k - 1)) == multiset(s)
  {
    assert s == s[..k - 1] + [s[k - 1], s[k]] + s[k + 1..];
    assert Swap(s, k, k - 1) == s[..k - 1] + [s[k], s[k - 1]] + s[k + 1..];
  }

  lemma SwapMovesLeft(s: seq<Sample>, k: nat)
    requires 0 < k < |s| && SortedBut(s, k) && s[k].at < s[k - 1].at
    ensures SortedBut(Swap(s, k, k - 1), k - 1)
  {
  }

  lemma InPlace(s: seq<Sample>, k: nat)
    requires k < |s| && SortedBut(s, k) && (k == 0 || s[k - 1].at <= s[k].at)
    ensures Sorted(s)
  {
    forall i | 0 <= i < k
      ensures s[i].at <= s[k].at
    {
      if i < k - 1 { assert s[i].at <= s[k - 1].at; }
    }
  }

  /** Moves the sample at `n` left to its place among the sorted ones before it. */
  method Insert(a: array<Sample>, n: nat)
    requires n < a.Length && Sorted(a[..n])
    modifies a
    ensures Sorted(a[..n + 1])
    ensures multiset(a[..]) == multiset(old(a[..]))
  {
    var k: nat := n;
    while k > 0 && a[k].at < a[k - 1].at
      invariant k <= n
      invariant SortedBut(a[..n + 1], k)
      invariant multiset(a[..]) == multiset(old(a[..]))
    {
      ghost var before := a[..];
      SwapPermutes(before, k);
      SwapMovesLeft(before[..n + 1], k);
      a[k], a[k - 1] := a[k - 1], a[k];
      assert a[..] == Swap(before, k, k - 1);
      assert a[..n + 1] == Swap(before[..n + 1], k, k - 1);
      k := k - 1;
    }
    InPlace(a[..n + 1], k);
  }

  method SortByTime(a: array<Sample>)
    modifies a
    ensures Sorted(a[..]) && multiset(a[..]) == multiset(old(a[..]))
  {
    for n := 0 to a.Length
      invariant Sorted(a[..n]) && multiset(a[..]) == multiset(old(a[..]))
    {
      Insert(a, n);
    }
    assert a[..a.Length] == a[..];
  }

  // ----------------------------------------------------------------- the batch

  /** In time order, a sample is new exactly when it lies beyond the last one accepted. */
  lemma OneMoreSample(s: seq<Sample>, i: nat, last: int, now: int, high: int)
    requires i < |s| && Sorted(s)
    requires high == last || IsMax(high, News(s[..i], last, now))
    requires high == last ==> News(s[..i], last, now) == {}
    ensures News(s[..i + 1], last, now) == News(s[..i], last, now) + if Usable(s[i], high, now) then {s[i].at} else {}
    ensures Usable(s[i], high, now) ==> s[i].at !in News(s[..i], last, now)
    ensures Usable(s[i], high, now) ==> IsMax(s[i].at, News(s[..i + 1], last, now))
  {
    assert s[..i + 1] == s[..i] + [s[i]];
    assert high >= last;
    if Usable(s[i], last, now) && !Usable(s[i], high, now) {
      var x :| x in s[..i] && Usable(x, last, now) && x.at == high;
      var k :| 0 <= k < i && s[k] == x;
      assert s[k].at <= s[i].at;
    }
  }

  /** Counts the new samples of a sorted batch and finds the last of them. */
  method Scan(a: array<Sample>, last: int, now: int) returns (accepted: nat, latest: nat)
    requires Sorted(a[..])
    ensures accepted == |News(a[..], last, now)|
    ensures accepted > 0 ==>
      latest < a.Length && IsMax(a[latest].at, News(a[..], last, now)) && Usable(a[latest], last, now)
  {
    ghost var sorted := a[..];
    var high := last;
    accepted, latest := 0, 0;
    for i := 0 to a.Length
      invariant accepted == |News(sorted[..i], last, now)|
      invariant accepted == 0 ==> high == last
      invariant accepted > 0 ==> IsMax(high, News(sorted[..i], last, now)) && latest < i
      invariant accepted > 0 ==> a[latest].at == high && Usable(a[latest], last, now)
    {
      OneMoreSample(sorted, i, last, now, high);
      if Usable(a[i], high, now) {
        high, latest, accepted := a[i].at, i, accepted + 1;
      }
    }
    assert sorted[..a.Length] == sorted;
  }

  class Tracker {
    var driver: Driver

    constructor ()
      ensures driver == Offline
    {
      driver := Offline;
    }

    /** Going on duty keeps whatever was known of the driver. */
    method SetOnline()
      modifies this
      ensures driver == if old(driver).Offline? then Online(None, None) else old(driver)
    {
      if driver.Offline? { driver := Online(None, None); }
    }

    method SetOffline()
      modifies this
      ensures driver == Offline
    {
      driver := Offline;
    }

    /** Accepts each new timestamp once, whatever the order and repetition of the samples, and
        keeps the latest. */
    method Ingest(samples: array<Sample>, now: int) returns (r: Reply)
      modifies this, samples
      ensures multiset(samples[..]) == multiset(old(samples[..]))
      ensures samples.Length == 0 ==> r == Empty
      ensures samples.Length > 50 ==> r == TooMany
      ensures 0 < samples.Length <= 50 && old(driver).Offline? ==> r == DriverOffline
      ensures !r.Accepted? ==> driver == old(driver)
      ensures 0 < samples.Length <= 50 && old(driver).Online? ==>
        var news := News(old(samples[..]), LastOf(old(driver)), now);
        && r == Accepted(|news|) && Keeps(old(samples[..]), LastOf(old(driver)), now, LastOf(driver))
        && (news == {} ==> driver == old(driver))
        && (news != {} ==>
              && driver.Online? && driver.ts.Some? && driver.point.Some? && IsMax(driver.ts.value, news)
              && Sample(driver.point.value, driver.ts.value) in old(samples[..]) && InKosovo(driver.point.value))
    {
      if samples.Length == 0 { return Empty; }
      if samples.Length > MAX_BATCH { return TooMany; }
      if driver.Offline? { return DriverOffline; }
      var last := LastOf(driver);
      ghost var batch := samples[..];
      SortByTime(samples);
      SameNews(batch, samples[..], last, now);
      var accepted, latest := Scan(samples, last, now);
      if accepted == 0 { return Accepted(0); }
      SameSamples(batch, samples[..], samples[latest]);
      driver := Online(Some(samples[latest].at), Some(samples[latest].point));
      return Accepted(accepted);
    }
  }

  /** A timestamp is news exactly when a position in Kosovo carries it, it is later than the last one
      kept, and it lies at most a minute ahead of the clock. */
  lemma NewsAre(samples: seq<Sample>, last: int, now: int, t: int)
    ensures t in News(samples, last, now) <==>
      last < t <= now + 60_000 && exists s ::
        s in samples && s.at == t && 41.85 <= s.point.lat <= 43.30 && 19.95 <= s.point.lng <= 21.80
  {
    if s :| s in samples && s.at == t && 41.85 <= s.point.lat <= 43.30 && 19.95 <= s.point.lng <= 21.80 {
      assert Valid(s.point) && InKosovo(s.point);
      if last < t <= now + 60_000 { assert Usable(s, last, now); }
    }
    if t in News(samples, last, now) {
      var s :| s in samples && Usable(s, last, now) && s.at == t;
    }
  }

  lemma SameSamples(a: seq<Sample>, b: seq<Sample>, s: Sample)
    requires multiset(a) == multiset(b)
    ensures s in a <==> s in b
  {
    assert s in a <==> s in multiset(a);
    assert s in b <==> s in multiset(b);
  }

  /** A permutation of the batch brings the same news. */
  lemma SameNews(a: seq<Sample>, b: seq<Sample>, last: int, now: int)
    requires multiset(a) == multiset(b)
    ensures News(a, last, now) == News(b, last, now)
  {
    forall s: Sample
      ensures s in a <==> s in b
    {
      SameSamples(a, b, s);
    }
  }

  // ------------------------------------------------------------------ many batches

  /** A sample that a batch left for later: in the area and newer, but too far in the future. */
  predicate TooEarly(s: Sample, last: int, now: int, later: int) {
    Valid(s.point) && InKosovo(s.point) && s.at > last && now + SLACK_MS < s.at <= later + SLACK_MS
  }

  /** What a replay brings is just what had been too far in the future. */
  lemma ReplayedSample(samples: seq<Sample>, last: int, now: int, after: int, later: int, s: Sample)
    requires Keeps(samples, last, now, after) && now <= later && s in samples
    ensures last <= after
    ensures Usable(s, after, later) <==> TooEarly(s, last, now, later)
  {
    var news := News(samples, last, now);
    if Usable(s, last, now) { assert s.at in news; }
    if news != {} {
      var x :| x in samples && Usable(x, last, now) && x.at == after;
    }
  }

  /** Replaying a batch accepts nothing, exactly unless the clock has let such a sample in;
      at the same clock it never does. */
  lemma ReplayAccepts(samples: seq<Sample>, last: int, now: int, after: int, later: int)
    requires Keeps(samples, last, now, after) && now <= later
    ensures News(samples, after, later) == {} <==> forall s :: s in samples ==> !TooEarly(s, last, now, later)
    ensures later == now ==> News(samples, after, later) == {}
  {
    forall s | s in samples
      ensures Usable(s, after, later) <==> TooEarly(s, last, now, later)
    {
      ReplayedSample(samples, last, now, after, later, s);
    }
    if s :| s in samples && TooEarly(s, last, now, later) {
      assert s.at in News(samples, after, later);
    }
  }

  datatype Batch = Batch(samples: seq<Sample>, now: int)

  /** The kept timestamps before each of the batches and after the last. */
  ghost predicate Trace(batches: seq<Batch>, kept: seq<int>) {
    && |kept| == |batches| + 1
    && forall i :: 0 <= i < |batches| ==> Keeps(batches[i].samples, kept[i], batches[i].now, kept[i + 1])
  }

  ghost function TotalAccepted(batches: seq<Batch>, kept: seq<int>): nat
    requires |kept| == |batches| + 1
  {
    if batches == [] then 0
    else
      var n := |batches| - 1;
      TotalAccepted(batches[..n], kept[..n + 1]) + |News(batches[n].samples, kept[n], batches[n].now)|
  }

  ghost function AllAccepted(batches: seq<Batch>, kept: seq<int>): set<int>
    requires |kept| == |batches| + 1
  {
    if batches == [] then {}
    else
      var n := |batches| - 1;
      AllAccepted(batches[..n], kept[..n + 1]) + News(batches[n].samples, kept[n], batches[n].now)
  }

  /** Over any run of batches while the driver stays online, the kept timestamp never moves back,
      and no timestamp is ever counted twice, in whatever batches and at whatever times it came. */
  lemma {:induction false} NeverTwiceNeverBack(batches: seq<Batch>, kept: seq<int>)
    requires Trace(batches, kept)
    ensures kept[0] <= kept[|batches|]
    ensures forall t :: t in AllAccepted(batches, kept) ==> kept[0] < t <= kept[|batches|]
    ensures TotalAccepted(batches, kept) == |AllAccepted(batches, kept)|
  {
    if batches != [] {
      var n := |batches| - 1;
      NeverTwiceNeverBack(batches[..n], kept[..n + 1]);
      var earlier, news := AllAccepted(batches[..n], kept[..n + 1]), News(batches[n].samples, kept[n], batches[n].now);
      assert Keeps(batches[n].samples, kept[n], batches[n].now, kept[n + 1]);
      assert earlier !! news;
      assert |earlier + news| == |earlier| + |news|;
    }
  }

  // ------------------------------------------------------------ overlapping batches

  /** A call reads the kept timestamp first and writes at the end, when another may be kept. */
  ghost predicate Writes(samples: seq<Sample>, read: int, now: int, kept: int, after: int) {
    var news := News(samples, read, now);
    if news == {} then after == kept else IsMax(after, news)
  }

  /** It counts what it would count if it read only now, exactly when nothing it counts is as old as
      what is kept meanwhile; and it moves the kept timestamp back exactly when all of it is older. */
  lemma AsIfReadNow(samples: seq<Sample>, read: int, now: int, kept: int, after: int)
    requires read <= kept && Writes(samples, read, now, kept, after)
    ensures News(samples, read, now) == News(samples, kept, now) <==>
      forall t :: t in News(samples, read, now) ==> t > kept
    ensures after < kept <==> News(samples, read, now) != {} && forall t :: t in News(samples, read, now) ==> t < kept
  {
    if forall t :: t in News(samples, read, now) ==> t > kept {
      forall s | s in samples && Usable(s, read, now)
        ensures Usable(s, kept, now)
      {
        assert s.at in News(samples, read, now);
      }
    }
  }

  /** The same batch sent twice at once: the second call counts all of it again, where one that read
      after the first had written would count nothing. */
  lemma SentTwiceAtOnce(samples: seq<Sample>, read: int, now: int, first: int)
    requires Writes(samples, read, now, read, first) && News(samples, read, now) != {}
    ensures Writes(samples, read, now, first, first) && News(samples, first, now) == {}
  {
    ReplayAccepts(samples, read, now, first, now);
  }

  /** Over every run of overlapping batches: they are as good as one after another, so that the laws
      above hold, if each counts only what is newer than what is kept when it writes. */
  lemma OverlapInOrder(batches: seq<Batch>, seen: seq<int>, kept: seq<int>)
    requires |seen| == |batches| && |kept| == |batches| + 1
    requires forall i :: 0 <= i < |batches| ==>
      && seen[i] <= kept[i]
      && Writes(batches[i].samples, seen[i], batches[i].now, kept[i], kept[i + 1])
      && forall t :: t in News(batches[i].samples, seen[i], batches[i].now) ==> t > kept[i]
    ensures Trace(batches, kept)
    ensures forall i :: 0 <= i < |batches| ==>
      News(batches[i].samples, seen[i], batches[i].now) == News(batches[i].samples, kept[i], batches[i].now)
  {
    forall i | 0 <= i < |batches|
      ensures News(batches[i].samples, seen[i], batches[i].now) == News(batches[i].samples, kept[i], batches[i].now)
    {
      AsIfReadNow(batches[i].samples, seen[i], batches[i].now, kept[i], kept[i + 1]);
    }
  }
}
