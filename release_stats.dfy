/** `ReleaseStatsService.calculateStats`: two status counts and a stream total. */
module ReleaseStats {
  import opened Common
  import Entities

  datatype Stats = Stats(totalStreams: int, approvedReleases: nat, pendingReleases: nat)

  predicate IsApproved(r: Entities.Release) {
    r.status == "APPROVED"
  }

  predicate IsPending(r: Entities.Release) {
    r.status == "PENDING"
  }

  /** The counts are `filter(...).length` with exact, case-sensitive status
      comparison; the total is `reduce` over `streams ?? 0`. No release is
      counted twice. */
  function CalculateStats(releases: seq<Entities.Release>): (s: Stats)
    ensures s.approvedReleases + s.pendingReleases <= |releases|
  {
    FilterDisjoint(releases, IsApproved, IsPending);
    Stats(Sum(releases, Entities.ReleaseStreams), |Filter(releases, IsApproved)|, |Filter(releases, IsPending)|)
  }

  /** The positions of the releases whose status is exactly `status`. */
  function WithStatus(releases: seq<Entities.Release>, status: string): set<int> {
    set i | 0 <= i < |releases| && releases[i].status == status
  }

  /** Each count is the number of releases carrying exactly that status. */
  lemma StatusCounts(releases: seq<Entities.Release>)
    ensures CalculateStats(releases).approvedReleases == |WithStatus(releases, "APPROVED")|
    ensures CalculateStats(releases).pendingReleases == |WithStatus(releases, "PENDING")|
  {
    FilterLengthIsCount(releases, IsApproved);
    FilterLengthIsCount(releases, IsPending);
    assert Positions(releases, IsApproved) == WithStatus(releases, "APPROVED");
    assert Positions(releases, IsPending) == WithStatus(releases, "PENDING");
  }

  lemma CalculateStatsEmpty()
    ensures CalculateStats([]) == Stats(0, 0, 0)
  {
  }

  /** The stats of a concatenation are the field-wise sums. */
  lemma CalculateStatsConcat(a: seq<Entities.Release>, b: seq<Entities.Release>)
    ensures var sa, sb, s := CalculateStats(a), CalculateStats(b), CalculateStats(a + b);
            s == Stats(sa.totalStreams + sb.totalStreams,
                       sa.approvedReleases + sb.approvedReleases,
                       sa.pendingReleases + sb.pendingReleases)
  {
    FilterConcat(a, b, IsApproved);
    FilterConcat(a, b, IsPending);
    SumConcat(a, b, Entities.ReleaseStreams);
  }

  /** Reordering the releases does not change the stats. */
  lemma CalculateStatsPermutation(a: seq<Entities.Release>, b: seq<Entities.Release>)
    requires multiset(a) == multiset(b)
    ensures CalculateStats(a) == CalculateStats(b)
  {
    FilterPermutation(a, b, IsApproved);
    FilterPermutation(a, b, IsPending);
    assert |Filter(a, IsApproved)| == |multiset(Filter(a, IsApproved))|;
    assert |Filter(a, IsPending)| == |multiset(Filter(a, IsPending))|;
    SumPermutation(a, b, Entities.ReleaseStreams);
  }
}
