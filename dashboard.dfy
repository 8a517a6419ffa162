/** `DashboardComponent`: the three figures its setters store and the data its
    chart builders compute. The clock is a (year, month) parameter and the
    Chart.js calls are not part of this model. */
module Dashboard {
  import opened Common
  import Decimal
  import Text
  import Entities

  // ---------------------------------------------------------------------
  // Totals

  /** `release.tracks?.reduce((s, t) => s + (t.streams || 0), 0) || 0`. */
  function ReleaseTrackStreams(r: Entities.Release): int {
    Sum(Entities.TracksOf(r), Entities.TrackStreams)
  }

  /** The value `setTotalStreams` stores. */
  function TotalStreams(releases: seq<Entities.Release>): int {
    Sum(releases, ReleaseTrackStreams)
  }

  /** The nested sum is the sum over all tracks of all releases. */
  lemma {:induction false} TotalStreamsOverAllTracks(releases: seq<Entities.Release>)
    ensures TotalStreams(releases) == Sum(Entities.AllTracks(releases), Entities.TrackStreams)
    decreases |releases|
  {
    if releases != [] {
      var front := releases[..|releases| - 1];
      TotalStreamsOverAllTracks(front);
      SumConcat(Entities.AllTracks(front), Entities.TracksOf(releases[|releases| - 1]), Entities.TrackStreams);
    }
  }

  // ---------------------------------------------------------------------
  // Monthly revenue

  function RoyaltyAmount(r: Entities.Royalty): real {
    r.amount
  }

  /** `const [y, m] = period.split('-').map(Number); y === year && m === month`.
      Without a `-` there is no second field and nothing matches. */
  predicate PeriodMatches(period: string, year: int, month: int) {
    var k := Text.IndexOf(period, '-');
    && k < |period|
    && Decimal.NumberValue(period[..k]) == Some(year)
    && Decimal.NumberValue(Text.FirstField(period[k + 1..], '-')) == Some(month)
  }

  function InMonth(year: int, month: int): Entities.Royalty -> bool {
    (r: Entities.Royalty) => PeriodMatches(r.period, year, month)
  }

  /** The value `setMonthlyRevenue` stores for the month `month` (1..12) of `year`. */
  function MonthlyRevenue(royalties: seq<Entities.Royalty>, year: int, month: int): real {
    SumReal(Filter(royalties, InMonth(year, month)), RoyaltyAmount)
  }

  /** Monthly revenue adds up over a concatenation of royalty lists. */
  lemma MonthlyRevenueConcat(a: seq<Entities.Royalty>, b: seq<Entities.Royalty>, year: int, month: int)
    ensures MonthlyRevenue(a + b, year, month) == MonthlyRevenue(a, year, month) + MonthlyRevenue(b, year, month)
  {
    FilterConcat(a, b, InMonth(year, month));
    SumRealConcat(Filter(a, InMonth(year, month)), Filter(b, InMonth(year, month)), RoyaltyAmount);
  }

  /** Royalties of other months contribute nothing. */
  lemma MonthlyRevenueOtherMonths(royalties: seq<Entities.Royalty>, year: int, month: int)
    requires forall i :: 0 <= i < |royalties| ==> !PeriodMatches(royalties[i].period, year, month)
    ensures MonthlyRevenue(royalties, year, month) == 0.0
  {
    FilterNone(royalties, InMonth(year, month));
  }

  // ---------------------------------------------------------------------
  // Month keys

  /** The year `new Date(year, …)` means: 0..99 stand for 1900..1999. */
  function CalendarYear(year: nat): (y: nat)
    ensures y >= 100
  {
    if year <= 99 then 1900 + year else year
  }

  /** `new Date(year, monthIndex, 1)` as a count of months since January of
      year 0: an out-of-range month index rolls over into other years. Its
      `getFullYear()` is `t / 12` and its `getMonth()` is `t % 12`. */
  function MonthsOf(year: nat, monthIndex: int): int {
    CalendarYear(year) * 12 + monthIndex
  }

  /** `${d.getFullYear()}-${String(d.getMonth() + 1).padStart(2, '0')}`. */
  function MonthKey(t: nat): string {
    Decimal.NatToString(t / 12) + ['-'] + Decimal.PadStart(Decimal.NatToString(t % 12 + 1), 2, '0')
  }

  /** A month key is the year's digits, a `-`, and two month digits. */
  lemma MonthKeyShape(t: nat)
    ensures var key := MonthKey(t);
            && |key| >= 4 && key[|key| - 3] == '-'
            && Decimal.AllDigits(key[..|key| - 3]) && Decimal.AllDigits(key[|key| - 2..])
  {
    var year := Decimal.NatToString(t / 12);
    var month := Decimal.PadStart(Decimal.NatToString(t % 12 + 1), 2, '0');
    Decimal.TwoDigits(t % 12 + 1);
    assert MonthKey(t) == Decimal.Joined(year, '-', month);
  }

  /** A month key is read back by the period parser as its own year and month. */
  lemma MonthKeyParses(t: nat)
    ensures PeriodMatches(MonthKey(t), t / 12, t % 12 + 1)
  {
    var y := Decimal.NatToString(t / 12);
    var mm := Decimal.PadStart(Decimal.NatToString(t % 12 + 1), 2, '0');
    Decimal.TwoDigits(t % 12 + 1);
    Decimal.NatToStringRoundTrip(t / 12);
    DigitFieldsMatch(y, mm);
  }

  /** Digits, a `-`, and more digits parse as the two numbers they spell. */
  lemma DigitFieldsMatch(y: string, mm: string)
    requires y != [] && Decimal.AllDigits(y) && Decimal.AllDigits(mm)
    ensures PeriodMatches(y + ['-'] + mm, Decimal.DigitsValue(y), Decimal.DigitsValue(mm))
  {
    var key := y + ['-'] + mm;
    NoDash(y);
    NoDash(mm);
    Text.IndexOfAfter(y, '-', mm);
    assert key[..|y|] == y;
    assert key[|y| + 1..] == mm;
  }

  lemma NoDash(d: string)
    requires Decimal.AllDigits(d)
    ensures '-' !in d
  {
    forall i | 0 <= i < |d| ensures d[i] != '-' {
      assert Decimal.IsDigit(d[i]);
    }
  }

  /** The only month a month key matches is its own. */
  lemma MonthKeyMatchesOnly(t: nat, year: int, month: int)
    requires 1 <= month <= 12
    ensures PeriodMatches(MonthKey(t), year, month) <==> t == year * 12 + month - 1
  {
    MonthKeyParses(t);
  }

  /** Different months have different keys. */
  lemma MonthKeyInjective(t1: nat, t2: nat)
    requires MonthKey(t1) == MonthKey(t2)
    ensures t1 == t2
  {
    MonthKeyParses(t1);
    MonthKeyParses(t2);
  }

  ghost predicate IsMonthKey(period: string) {
    exists t: nat :: period == MonthKey(t)
  }

  function InPeriod(period: string): Entities.Royalty -> bool {
    (r: Entities.Royalty) => r.period == period
  }

  /** `revenueByMonth[key] || 0`: the amounts whose period is exactly `key`. */
  function PeriodRevenue(royalties: seq<Entities.Royalty>, key: string): real {
    SumReal(Filter(royalties, InPeriod(key)), RoyaltyAmount)
  }

  /** On a month key, matching the current month's key and parsing as the
      current month agree. */
  lemma SameMonth(t: nat, now: nat, year: int, month: int)
    requires 1 <= month <= 12 && now == year * 12 + month - 1
    ensures MonthKey(t) == MonthKey(now) <==> PeriodMatches(MonthKey(t), year, month)
  {
    MonthKeyMatchesOnly(t, year, month);
    MonthKeysEqual(t, now);
  }

  lemma MonthKeysEqual(t1: nat, t2: nat)
    ensures MonthKey(t1) == MonthKey(t2) <==> t1 == t2
  {
    if MonthKey(t1) == MonthKey(t2) {
      MonthKeyInjective(t1, t2);
    }
  }

  /** When every period is a month key, the revenue of the current month
      `now` (a count of months, as `MonthsOf` gives) is the revenue of its key. */
  lemma CurrentMonthAgrees(royalties: seq<Entities.Royalty>, now: nat)
    requires forall i :: 0 <= i < |royalties| ==> IsMonthKey(royalties[i].period)
    ensures PeriodRevenue(royalties, MonthKey(now)) == MonthlyRevenue(royalties, now / 12, now % 12 + 1)
  {
    var key := MonthKey(now);
    var year, month := now / 12, now % 12 + 1;
    forall i | 0 <= i < |royalties|
      ensures InPeriod(key)(royalties[i]) == InMonth(year, month)(royalties[i])
    {
      var period := royalties[i].period;
      var t: nat :| period == MonthKey(t);
      SameMonth(t, now, year, month);
    }
    FilterCongruent(royalties, InPeriod(key), InMonth(year, month));
  }

  /** The month of the j-th entry (0 = oldest) of the series ending at the
      month `month` (1..12) of `year`. */
  function SeriesMonth(year: nat, month: int, j: nat): nat
    requires 1 <= month <= 12 && j < 12
  {
    MonthsOf(year, month - 1 - (11 - j))
  }

  /** The series runs month by month and, for a four-digit year, ends at the
      current month, whose key the period parser reads as that month. */
  lemma SeriesEndsNow(year: nat, month: int)
    requires 1 <= month <= 12 && year >= 100
    ensures forall j :: 0 < j < 12 ==> SeriesMonth(year, month, j) == SeriesMonth(year, month, j - 1) + 1
    ensures SeriesMonth(year, month, 11) == year * 12 + month - 1
    ensures PeriodMatches(MonthKey(SeriesMonth(year, month, 11)), year, month)
  {
    var t := SeriesMonth(year, month, 11);
    assert CalendarYear(year) == year;
    assert t == year * 12 + (month - 1);
    forall j | 0 < j < 12
      ensures SeriesMonth(year, month, j) == SeriesMonth(year, month, j - 1) + 1
    {
    }
    MonthOfYear(year, month - 1);
    assert t / 12 == year && t % 12 + 1 == month;
    MonthKeyParses(t);
    assert PeriodMatches(MonthKey(t), t / 12, t % 12 + 1);
  }

  /** The month count of a month index within a year splits back into both. */
  lemma MonthOfYear(year: nat, index: int)
    requires 0 <= index < 12
    ensures (year * 12 + index) / 12 == year && (year * 12 + index) % 12 == index
  {
  }

  /** No month appears twice in the series. */
  lemma SeriesKeysDistinct(year: nat, month: int, i: nat, j: nat)
    requires 1 <= month <= 12 && i < j < 12
    ensures MonthKey(SeriesMonth(year, month, i)) != MonthKey(SeriesMonth(year, month, j))
  {
    if MonthKey(SeriesMonth(year, month, i)) == MonthKey(SeriesMonth(year, month, j)) {
      MonthKeyInjective(SeriesMonth(year, month, i), SeriesMonth(year, month, j));
    }
  }

  /** The month-key loop of `renderRevenueChart`: i from 11 down to 0. */
  method SeriesKeys(year: nat, month: int) returns (keys: seq<string>)
    requires 1 <= month <= 12
    ensures |keys| == 12
    ensures forall j :: 0 <= j < 12 ==> keys[j] == MonthKey(SeriesMonth(year, month, j))
  {
    keys := [];
    var i := 11;
    while i >= 0
      invariant -1 <= i <= 11 && |keys| == 11 - i
      invariant forall j :: 0 <= j < |keys| ==> keys[j] == MonthKey(SeriesMonth(year, month, j))
    {
      var t := MonthsOf(year, month - 1 - i);
      keys := keys + [MonthKey(t)];
      i := i - 1;
    }
  }

  /** One pass of the accumulation loop: a missing or zero entry is set to 0,
      then the amount is added. */
  function Accumulate(table: map<string, real>, r: Entities.Royalty): map<string, real> {
    var t := ZeroIfMissing(table, r.period);
    t[r.period := t[r.period] + r.amount]
  }

  /** `if (!acc[p]) acc[p] = 0`: a missing or zero entry becomes 0. */
  function ZeroIfMissing(table: map<string, real>, p: string): (t: map<string, real>)
    ensures p in t
  {
    if p !in table || table[p] == 0.0 then table[p := 0.0] else table
  }

  /** The table the accumulation loop builds from `royalties`, read in order. */
  function Tally(royalties: seq<Entities.Royalty>): map<string, real> {
    if royalties == [] then map[]
    else Accumulate(Tally(royalties[..|royalties| - 1]), royalties[|royalties| - 1])
  }

  /** The revenue of a period, read up to and including the last royalty. */
  lemma PeriodRevenueLast(royalties: seq<Entities.Royalty>, key: string)
    requires royalties != []
    ensures var r := royalties[|royalties| - 1];
            PeriodRevenue(royalties, key) ==
              PeriodRevenue(royalties[..|royalties| - 1], key) + (if r.period == key then r.amount else 0.0)
  {
    var r := royalties[|royalties| - 1];
    var f := Filter(royalties[..|royalties| - 1], InPeriod(key));
    assert InPeriod(key)(r) == (r.period == key);
    if r.period == key {
      assert Filter(royalties, InPeriod(key)) == f + [r];
      assert (f + [r])[..|f|] == f;
    } else {
      assert Filter(royalties, InPeriod(key)) == f;
    }
  }

  /** `table` holds the revenue of period `p` in `royalties`, or omits `p`
      when that revenue is 0. */
  ghost predicate TalliesAt(table: map<string, real>, royalties: seq<Entities.Royalty>, p: string) {
    && (p in table ==> table[p] == PeriodRevenue(royalties, p))
    && (p !in table ==> PeriodRevenue(royalties, p) == 0.0)
  }

  /** One pass of the accumulation loop keeps the table a tally of the royalties read so far. */
  lemma AccumulateAt(table: map<string, real>, royalties: seq<Entities.Royalty>, p: string)
    requires royalties != [] && TalliesAt(table, royalties[..|royalties| - 1], p)
    ensures TalliesAt(Accumulate(table, royalties[|royalties| - 1]), royalties, p)
  {
    var r := royalties[|royalties| - 1];
    var zeroed := ZeroIfMissing(table, r.period);
    var next := zeroed[r.period := zeroed[r.period] + r.amount];
    assert next == Accumulate(table, r);
    PeriodRevenueLast(royalties, p);
    var before := PeriodRevenue(royalties[..|royalties| - 1], p);
    var after := PeriodRevenue(royalties, p);
    if p == r.period {
      assert after == before + r.amount;
      if p in table && table[p] != 0.0 {
        assert zeroed[p] == table[p] == before;
      } else {
        assert zeroed[p] == 0.0 == before;
      }
      assert next[p] == after;
    } else {
      assert after == before;
      assert p in zeroed <==> p in table;
      assert p in zeroed ==> zeroed[p] == table[p];
      assert p in next <==> p in table;
      assert p in next ==> next[p] == table[p];
    }
  }

  /** The built table holds, under each period, the revenue of that period,
      and omits only periods without revenue. */
  lemma {:induction false} TallyAt(royalties: seq<Entities.Royalty>, p: string)
    ensures TalliesAt(Tally(royalties), royalties, p)
    decreases |royalties|
  {
    if royalties != [] {
      TallyAt(royalties[..|royalties| - 1], p);
      AccumulateAt(Tally(royalties[..|royalties| - 1]), royalties, p);
    }
  }

  /** `revenueByMonth[key] || 0` on the built table is the period's revenue. */
  lemma TallyLookup(royalties: seq<Entities.Royalty>, p: string)
    ensures (if p in Tally(royalties) && Tally(royalties)[p] != 0.0 then Tally(royalties)[p] else 0.0)
              == PeriodRevenue(royalties, p)
  {
    TallyAt(royalties, p);
  }

  /** The accumulation loop of `renderRevenueChart`. */
  method RevenueByMonth(royalties: seq<Entities.Royalty>) returns (table: map<string, real>)
    ensures table == Tally(royalties)
  {
    table := map[];
    var k := 0;
    while k < |royalties|
      invariant 0 <= k <= |royalties|
      invariant table == Tally(royalties[..k])
    {
      var r := royalties[k];
      assert royalties[..k + 1][..k] == royalties[..k];
      ghost var before := table;
      if r.period !in table || table[r.period] == 0.0 {
        table := table[r.period := 0.0];
      }
      assert table == ZeroIfMissing(before, r.period);
      table := table[r.period := table[r.period] + r.amount];
      k := k + 1;
    }
    assert royalties[..k] == royalties;
  }

  /** The data of `renderRevenueChart`: the twelve month keys, oldest first,
      and for each the revenue of that exact period, 0 when there is none. */
  method RevenueSeries(royalties: seq<Entities.Royalty>, year: nat, month: int)
    returns (keys: seq<string>, data: seq<real>)
    requires 1 <= month <= 12
    ensures |keys| == 12 && |data| == 12
    ensures forall j :: 0 <= j < 12 ==> keys[j] == MonthKey(SeriesMonth(year, month, j))
    ensures forall j :: 0 <= j < 12 ==> data[j] == PeriodRevenue(royalties, keys[j])
  {
    keys := SeriesKeys(year, month);
    var revenueByMonth := RevenueByMonth(royalties);
    data := seq(12, j requires 0 <= j < 12 =>
      if keys[j] in revenueByMonth && revenueByMonth[keys[j]] != 0.0 then revenueByMonth[keys[j]] else 0.0);
    forall j | 0 <= j < 12 ensures data[j] == PeriodRevenue(royalties, keys[j]) {
      TallyLookup(royalties, keys[j]);
    }
  }

  // ---------------------------------------------------------------------
  // Top tracks

  datatype TrackStat = TrackStat(title: string, streams: int)

  /** `{ title: track.title, streams: track.streams || 0 }`. */
  function StatOf(t: Entities.Track): TrackStat {
    TrackStat(t.title, Entities.TrackStreams(t))
  }

  function Stats(tracks: seq<Entities.Track>): (r: seq<TrackStat>)
    ensures |r| == |tracks|
    ensures forall i :: 0 <= i < |tracks| ==> r[i] == StatOf(tracks[i])
  {
    seq(|tracks|, i requires 0 <= i < |tracks| => StatOf(tracks[i]))
  }

  /** The nested loop of `renderTopTracksChart` that collects one entry per
      track, release by release. */
  method CollectTrackStats(releases: seq<Entities.Release>) returns (stats: seq<TrackStat>)
    ensures stats == Stats(Entities.AllTracks(releases))
  {
    stats := [];
    var i := 0;
    while i < |releases|
      invariant 0 <= i <= |releases|
      invariant stats == Stats(Entities.AllTracks(releases[..i]))
    {
      var release := releases[i];
      assert releases[..i + 1][..i] == releases[..i];
      if release.tracks.Some? {
        var tracks := release.tracks.value;
        var j := 0;
        while j < |tracks|
          invariant 0 <= j <= |tracks|
          invariant stats == Stats(Entities.AllTracks(releases[..i]) + tracks[..j])
        {
          assert (Entities.AllTracks(releases[..i]) + tracks[..j + 1]) ==
                 (Entities.AllTracks(releases[..i]) + tracks[..j]) + [tracks[j]];
          stats := stats + [StatOf(tracks[j])];
          j := j + 1;
        }
        assert tracks[..j] == tracks;
      }
      i := i + 1;
    }
    assert releases[..i] == releases;
  }

  predicate NonIncreasing(s: seq<TrackStat>) {
    forall i, j :: 0 <= i < j < |s| ==> s[i].streams >= s[j].streams
  }

  /** The entries of `a` before `hi` are in non-increasing order. */
  predicate SortedPrefix(a: array<TrackStat>, hi: int)
    reads a
    requires 0 <= hi <= a.Length
  {
    forall k, l :: 0 <= k < l < hi ==> a[k].streams >= a[l].streams
  }

  /** `sort((a, b) => b.streams - a.streams)`: in place, most streams first.
      Equal entries are never swapped. */
  method SortByStreams(a: array<TrackStat>)
    modifies a
    ensures NonIncreasing(a[..])
    ensures multiset(a[..]) == multiset(old(a[..]))
  {
    var i := 0;
    while i < a.Length
      invariant 0 <= i <= a.Length
      invariant SortedPrefix(a, i)
      invariant multiset(a[..]) == multiset(old(a[..]))
    {
      InsertBackward(a, i);
      i := i + 1;
    }
  }

  /** Moves `a[i]` down past every entry with fewer streams. */
  method InsertBackward(a: array<TrackStat>, i: int)
    requires 0 <= i < a.Length && SortedPrefix(a, i)
    modifies a
    ensures SortedPrefix(a, i + 1)
    ensures multiset(a[..]) == multiset(old(a[..]))
  {
    var j := i;
    while j > 0 && a[j - 1].streams < a[j].streams
      invariant 0 <= j <= i
      invariant multiset(a[..]) == multiset(old(a[..]))
      invariant forall k, l :: 0 <= k < l <= i && k != j && l != j ==> a[k].streams >= a[l].streams
      invariant forall k, l :: 0 <= k < j < l <= i ==> a[k].streams >= a[l].streams
      invariant forall l :: j < l <= i ==> a[j].streams >= a[l].streams
    {
      Swap(a, j - 1, j);
      j := j - 1;
    }
  }

  /** Exchanges two entries; the entries as a whole stay the same. */
  method Swap(a: array<TrackStat>, i: int, j: int)
    requires 0 <= i < a.Length && 0 <= j < a.Length
    modifies a
    ensures a[i] == old(a[j]) && a[j] == old(a[i])
    ensures forall k :: 0 <= k < a.Length && k != i && k != j ==> a[k] == old(a[k])
    ensures multiset(a[..]) == multiset(old(a[..]))
  {
    a[i], a[j] := a[j], a[i];
  }

  function Min(a: int, b: int): int {
    if a <= b then a else b
  }

  /** The entries a chart shows, label by label. */
  function Entries(labels: seq<string>, data: seq<int>): (r: seq<TrackStat>)
    requires |labels| == |data|
    ensures |r| == |labels|
  {
    seq(|labels|, i requires 0 <= i < |labels| => TrackStat(labels[i], data[i]))
  }

  /** The first `n` entries of a sorted arrangement of `stats` are among
      `stats`, stay sorted, and what they leave out has no more streams than
      any of them. */
  lemma TopOfSorted(sorted: seq<TrackStat>, stats: seq<TrackStat>, n: nat)
    requires NonIncreasing(sorted) && multiset(sorted) == multiset(stats) && n <= |sorted|
    ensures NonIncreasing(sorted[..n])
    ensures multiset(sorted[..n]) <= multiset(stats)
    ensures forall x, i :: (x in multiset(stats) - multiset(sorted[..n]) && 0 <= i < n) ==> x.streams <= sorted[i].streams
  {
    TakeDropMultiset(sorted, n);
    LeftOutBelow(sorted, n);
  }

  /** The first `n` entries and the rest split the multiset of a sequence. */
  lemma TakeDropMultiset(s: seq<TrackStat>, n: nat)
    requires n <= |s|
    ensures multiset(s[..n]) <= multiset(s)
    ensures multiset(s) - multiset(s[..n]) == multiset(s[n..])
  {
    assert s == s[..n] + s[n..];
  }

  /** In a sorted sequence, every entry after the first `n` has no more
      streams than any of them. */
  lemma LeftOutBelow(sorted: seq<TrackStat>, n: nat)
    requires NonIncreasing(sorted) && n <= |sorted|
    ensures forall x, i :: (x in multiset(sorted[n..]) && 0 <= i < n) ==> x.streams <= sorted[i].streams
  {
    forall x, i | x in multiset(sorted[n..]) && 0 <= i < n
      ensures x.streams <= sorted[i].streams
    {
      var rest := sorted[n..];
      assert x in rest;
      var k :| 0 <= k < |rest| && rest[k] == x;
      assert x.streams == sorted[n + k].streams;
      assert i < n + k;
    }
  }

  /** The top-tracks data of `renderTopTracksChart`: at most five entries, most
      streams first, taken from the tracks of the releases, and no track left
      out has more streams than one shown. */
  method TopTracks(releases: seq<Entities.Release>) returns (labels: seq<string>, data: seq<int>)
    ensures |labels| == |data| == Min(5, |Entities.AllTracks(releases)|)
    ensures forall i, j :: 0 <= i < j < |data| ==> data[i] >= data[j]
    ensures multiset(Entries(labels, data)) <= multiset(Stats(Entities.AllTracks(releases)))
    ensures forall x, i ::
              (x in multiset(Stats(Entities.AllTracks(releases))) - multiset(Entries(labels, data)) && 0 <= i < |data|)
              ==> x.streams <= data[i]
  {
    var stats, sorted := SortedTrackStats(releases);
    var n := Min(5, |sorted|);
    var top := sorted[..n];
    labels := seq(n, i requires 0 <= i < n => top[i].title);
    data := seq(n, i requires 0 <= i < n => top[i].streams);
    TopOfSorted(sorted, stats, n);
    assert Entries(labels, data) == top;
  }

  /** The entries of `renderTopTracksChart` before `slice(0, 5)`: one per
      track, sorted by streams, most first. */
  method SortedTrackStats(releases: seq<Entities.Release>) returns (stats: seq<TrackStat>, sorted: seq<TrackStat>)
    ensures stats == Stats(Entities.AllTracks(releases))
    ensures |sorted| == |stats| && NonIncreasing(sorted) && multiset(sorted) == multiset(stats)
  {
    stats := CollectTrackStats(releases);
    var a := new TrackStat[|stats|](i requires 0 <= i < |stats| => stats[i]);
    assert a[..] == stats;
    SortByStreams(a);
    sorted := a[..];
  }

  /** Every entry of the top-tracks data is a track of one of the releases. */
  lemma TopTrackOrigin(releases: seq<Entities.Release>, labels: seq<string>, data: seq<int>, i: nat)
    returns (r: nat, t: Entities.Track)
    requires |labels| == |data| && i < |labels|
    requires multiset(Entries(labels, data)) <= multiset(Stats(Entities.AllTracks(releases)))
    ensures r < |releases| && t in Entities.TracksOf(releases[r])
    ensures StatOf(t) == TrackStat(labels[i], data[i])
  {
    var x := Entries(labels, data)[i];
    assert x in multiset(Entries(labels, data));
    var all := Entities.AllTracks(releases);
    assert x in multiset(Stats(all));
    var k :| 0 <= k < |Stats(all)| && Stats(all)[k] == x;
    Entities.AllTracksOrigin(releases, k);
    r :| 0 <= r < |releases| && all[k] in Entities.TracksOf(releases[r]);
    t := all[k];
  }

  // ---------------------------------------------------------------------
  // Revenue by release

  function ForTrack(trackId: int): Entities.Royalty -> bool {
    (r: Entities.Royalty) => r.trackId == trackId
  }

  /** `royalties.filter(r => r.trackId === id).reduce((s, r) => s + r.amount, 0)`. */
  function TrackRevenue(royalties: seq<Entities.Royalty>, trackId: int): real {
    SumReal(Filter(royalties, ForTrack(trackId)), RoyaltyAmount)
  }

  function TrackRevenueIn(royalties: seq<Entities.Royalty>): Entities.Track -> real {
    (t: Entities.Track) => TrackRevenue(royalties, t.id)
  }

  /** The `total` the loop of `renderRevenueByReleaseChart` reaches for one release. */
  function ReleaseRevenue(release: Entities.Release, royalties: seq<Entities.Royalty>): real {
    SumReal(Entities.TracksOf(release), TrackRevenueIn(royalties))
  }

  /** `revenueByRelease`: each release with a positive total writes it under
      its id; a later release with the same id overwrites it. */
  function RevenueTable(releases: seq<Entities.Release>, royalties: seq<Entities.Royalty>): map<int, real> {
    if releases == [] then map[]
    else
      var table := RevenueTable(releases[..|releases| - 1], royalties);
      var last := releases[|releases| - 1];
      var total := ReleaseRevenue(last, royalties);
      if total > 0.0 then table[last.id := total] else table
  }

  datatype Slice = Slice(title: string, value: real)

  /** The second loop: one slice per release whose id has a truthy entry. */
  function Slices(releases: seq<Entities.Release>, table: map<int, real>): seq<Slice> {
    if releases == [] then []
    else
      var last := releases[|releases| - 1];
      Slices(releases[..|releases| - 1], table) +
        (if last.id in table && table[last.id] != 0.0 then [Slice(last.title, table[last.id])] else [])
  }

  function SlicesOf(labels: seq<string>, data: seq<real>): (r: seq<Slice>)
    requires |labels| == |data|
    ensures |r| == |labels|
  {
    seq(|labels|, i requires 0 <= i < |labels| => Slice(labels[i], data[i]))
  }

  /** The releases with a positive revenue, in order, each with its revenue. */
  function PositiveSlices(releases: seq<Entities.Release>, royalties: seq<Entities.Royalty>): seq<Slice> {
    if releases == [] then []
    else
      var last := releases[|releases| - 1];
      var total := ReleaseRevenue(last, royalties);
      PositiveSlices(releases[..|releases| - 1], royalties) +
        (if total > 0.0 then [Slice(last.title, total)] else [])
  }

  /** The data of `renderRevenueByReleaseChart`. */
  method RevenueByRelease(releases: seq<Entities.Release>, royalties: seq<Entities.Royalty>)
    returns (labels: seq<string>, data: seq<real>)
    ensures |labels| == |data|
    ensures SlicesOf(labels, data) == Slices(releases, RevenueTable(releases, royalties))
  {
    var revenueByRelease: map<int, real> := map[];
    var i := 0;
    while i < |releases|
      invariant 0 <= i <= |releases|
      invariant revenueByRelease == RevenueTable(releases[..i], royalties)
    {
      var release := releases[i];
      assert releases[..i + 1][..i] == releases[..i];
      var total := ReleaseTotal(release, royalties);
      if total > 0.0 {
        revenueByRelease := revenueByRelease[release.id := total];
      }
      i := i + 1;
    }
    assert releases[..i] == releases;
    labels, data := SliceRows(releases, revenueByRelease);
  }

  /** The track loop of `renderRevenueByReleaseChart`: the `total` of one release. */
  method ReleaseTotal(release: Entities.Release, royalties: seq<Entities.Royalty>) returns (total: real)
    ensures total == ReleaseRevenue(release, royalties)
  {
    total := 0.0;
    if release.tracks.Some? {
      var tracks := release.tracks.value;
      var j := 0;
      while j < |tracks|
        invariant 0 <= j <= |tracks|
        invariant total == SumReal(tracks[..j], TrackRevenueIn(royalties))
      {
        assert tracks[..j + 1][..j] == tracks[..j];
        total := total + TrackRevenue(royalties, tracks[j].id);
        j := j + 1;
      }
      assert tracks[..j] == tracks;
    }
  }

  /** The label loop of `renderRevenueByReleaseChart`: one slice per release
      whose id has a truthy entry in `table`. */
  method SliceRows(releases: seq<Entities.Release>, table: map<int, real>)
    returns (labels: seq<string>, data: seq<real>)
    ensures |labels| == |data|
    ensures SlicesOf(labels, data) == Slices(releases, table)
  {
    labels := [];
    data := [];
    var k := 0;
    while k < |releases|
      invariant 0 <= k <= |releases| && |labels| == |data|
      invariant SlicesOf(labels, data) == Slices(releases[..k], table)
    {
      var release := releases[k];
      assert releases[..k + 1][..k] == releases[..k];
      if release.id in table && table[release.id] != 0.0 {
        labels := labels + [release.title];
        data := data + [table[release.id]];
      }
      k := k + 1;
    }
    assert releases[..k] == releases;
  }

  predicate DistinctIds(releases: seq<Entities.Release>) {
    forall i, j :: 0 <= i < j < |releases| ==> releases[i].id != releases[j].id
  }

  /** With distinct ids, the table holds exactly the releases with a positive
      revenue, each under its own id with its own revenue. */
  lemma {:induction false} RevenueTableEntries(releases: seq<Entities.Release>, royalties: seq<Entities.Royalty>, i: nat)
    requires DistinctIds(releases) && i < |releases|
    ensures var table, r := RevenueTable(releases, royalties), releases[i];
            (r.id in table <==> ReleaseRevenue(r, royalties) > 0.0) &&
            (r.id in table ==> table[r.id] == ReleaseRevenue(r, royalties))
    decreases |releases|
  {
    var front := releases[..|releases| - 1];
    if i < |releases| - 1 {
      RevenueTableEntries(front, royalties, i);
    } else {
      RevenueTableMissing(front, royalties, releases[i].id);
    }
  }

  /** An id that no release carries has no entry. */
  lemma {:induction false} RevenueTableMissing(releases: seq<Entities.Release>, royalties: seq<Entities.Royalty>, id: int)
    requires forall i :: 0 <= i < |releases| ==> releases[i].id != id
    ensures id !in RevenueTable(releases, royalties)
    decreases |releases|
  {
    if releases != [] {
      RevenueTableMissing(releases[..|releases| - 1], royalties, id);
    }
  }

  /** With distinct ids the chart shows, in release order, every release with
      a positive revenue and that revenue, and no other release. */
  lemma RevenueByReleaseDistinct(releases: seq<Entities.Release>, royalties: seq<Entities.Royalty>)
    requires DistinctIds(releases)
    ensures Slices(releases, RevenueTable(releases, royalties)) == PositiveSlices(releases, royalties)
  {
    var table := RevenueTable(releases, royalties);
    forall i | 0 <= i < |releases|
      ensures (releases[i].id in table && table[releases[i].id] != 0.0) <==> ReleaseRevenue(releases[i], royalties) > 0.0
      ensures releases[i].id in table ==> table[releases[i].id] == ReleaseRevenue(releases[i], royalties)
    {
      RevenueTableEntries(releases, royalties, i);
    }
    SlicesAgree(releases, royalties, table);
  }

  lemma {:induction false} SlicesAgree(releases: seq<Entities.Release>, royalties: seq<Entities.Royalty>, table: map<int, real>)
    requires forall i :: 0 <= i < |releases| ==>
               ((releases[i].id in table && table[releases[i].id] != 0.0) <==> ReleaseRevenue(releases[i], royalties) > 0.0)
    requires forall i :: 0 <= i < |releases| && releases[i].id in table ==>
               table[releases[i].id] == ReleaseRevenue(releases[i], royalties)
    ensures Slices(releases, table) == PositiveSlices(releases, royalties)
    decreases |releases|
  {
    if releases != [] {
      SlicesAgree(releases[..|releases| - 1], royalties, table);
    }
  }

  // ---------------------------------------------------------------------
  // The component's figures

  class DashboardComponent {
    var totalReleases: nat
    var monthlyRevenue: real
    var totalStreams: int

    constructor ()
      ensures totalReleases == 0 && monthlyRevenue == 0.0 && totalStreams == 0
    {
      totalReleases := 0;
      monthlyRevenue := 0.0;
      totalStreams := 0;
    }

    /** `setTotalReleases`. */
    method SetTotalReleases(releases: seq<Entities.Release>)
      modifies this
      ensures totalReleases == |releases|
      ensures monthlyRevenue == old(monthlyRevenue) && totalStreams == old(totalStreams)
    {
      totalReleases := |releases|;
    }

    /** `setTotalStreams`. */
    method SetTotalStreams(releases: seq<Entities.Release>)
      modifies this
      ensures totalStreams == TotalStreams(releases)
      ensures totalReleases == old(totalReleases) && monthlyRevenue == old(monthlyRevenue)
    {
      totalStreams := TotalStreams(releases);
    }

    /** `setMonthlyRevenue` with the clock reading the month `month` (1..12) of `year`. */
    method SetMonthlyRevenue(royalties: seq<Entities.Royalty>, year: int, month: int)
      modifies this
      ensures monthlyRevenue == MonthlyRevenue(royalties, year, month)
      ensures totalReleases == old(totalReleases) && totalStreams == old(totalStreams)
    {
      monthlyRevenue := MonthlyRevenue(royalties, year, month);
    }
  }
}
