/** `AdminService`: which users the admin page lists and the totals it shows
    for each artist. The HTTP requests are not part of this model: the user
    list, and each artist's user record and releases, are inputs. */
module AdminService {
  import opened Common
  import Entities

  const ArtistRole: string := "artist"

  predicate IsArtist(u: Entities.User) {
    u.role == ArtistRole
  }

  /** `users.filter(user => user.role === 'artist')`. */
  function ArtistUsers(users: seq<Entities.User>): (artists: seq<Entities.User>)
    ensures |artists| <= |users|
    ensures forall i :: 0 <= i < |artists| ==> artists[i].role == ArtistRole
  {
    Filter(users, IsArtist)
  }

  /** Every artist is kept, as often as it occurs, and nobody else. */
  lemma ArtistUsersExact(users: seq<Entities.User>, u: Entities.User)
    ensures multiset(ArtistUsers(users))[u] == if u.role == ArtistRole then multiset(users)[u] else 0
  {
    FilterCount(users, IsArtist, u);
  }

  /** The artists keep their original order. */
  lemma ArtistUsersOrder(a: seq<Entities.User>, b: seq<Entities.User>)
    ensures ArtistUsers(a + b) == ArtistUsers(a) + ArtistUsers(b)
  {
    FilterConcat(a, b, IsArtist);
  }

  /** With no artist among the users the list is empty. */
  lemma ArtistUsersNone(users: seq<Entities.User>)
    requires forall i :: 0 <= i < |users| ==> users[i].role != ArtistRole
    ensures ArtistUsers(users) == []
  {
    FilterNone(users, IsArtist);
  }

  /** `release.tracks?.length || 0`. */
  function TrackCount(r: Entities.Release): int {
    |Entities.TracksOf(r)|
  }

  /** `releases.reduce((sum, release) => sum + (release.tracks?.length || 0), 0)`. */
  function TotalTracks(releases: seq<Entities.Release>): int {
    Sum(releases, TrackCount)
  }

  /** The track total counts every track of every release once. */
  lemma {:induction false} TotalTracksCountsAll(releases: seq<Entities.Release>)
    ensures TotalTracks(releases) == |Entities.AllTracks(releases)|
    decreases |releases|
  {
    if releases != [] {
      TotalTracksCountsAll(releases[..|releases| - 1]);
    }
  }

  /** `releases.reduce((sum, release) => sum + (release.streams || 0), 0)`. */
  function TotalStreams(releases: seq<Entities.Release>): int {
    Sum(releases, Entities.ReleaseStreams)
  }

  /** The stream total does not depend on the order of the releases. */
  lemma TotalStreamsOrderFree(a: seq<Entities.Release>, b: seq<Entities.Release>)
    requires multiset(a) == multiset(b)
    ensures TotalStreams(a) == TotalStreams(b)
  {
    SumPermutation(a, b, Entities.ReleaseStreams);
  }

  /** With no negative stream count the total is a sum of non-negative terms
      bounded below by each release's own count. */
  lemma {:induction false} TotalStreamsBounds(releases: seq<Entities.Release>, i: nat)
    requires forall k :: 0 <= k < |releases| ==> Entities.ReleaseStreams(releases[k]) >= 0
    requires i < |releases|
    ensures TotalStreams(releases) >= Entities.ReleaseStreams(releases[i]) >= 0
    decreases |releases|
  {
    var front := releases[..|releases| - 1];
    TotalStreamsNonNegative(front);
    if i < |front| {
      TotalStreamsBounds(front, i);
    }
  }

  lemma {:induction false} TotalStreamsNonNegative(releases: seq<Entities.Release>)
    requires forall k :: 0 <= k < |releases| ==> Entities.ReleaseStreams(releases[k]) >= 0
    ensures TotalStreams(releases) >= 0
    decreases |releases|
  {
    if releases != [] {
      TotalStreamsNonNegative(releases[..|releases| - 1]);
    }
  }

  /** The `map` of `getArtistWithData`: the user's fields, the releases as
      fetched, and the two totals. */
  function ArtistWithData(user: Entities.User, releases: seq<Entities.Release>): (a: Entities.ArtistWithData)
    ensures a.id == user.id && a.name == user.name && a.email == user.email && a.role == user.role
    ensures a.releases == releases
    ensures a.totalTracks == |Entities.AllTracks(releases)|
    ensures a.totalStreams == TotalStreams(releases)
  {
    TotalTracksCountsAll(releases);
    Entities.ArtistWithData(user.id, user.name, user.email, user.role, releases,
                            TotalTracks(releases), TotalStreams(releases))
  }

  /** `getAllArtistsWithData`: one entry per artist, in the order of the user
      list, built from that artist's user record and releases. */
  function AllArtistsWithData(users: seq<Entities.User>, userOf: int -> Entities.User,
                              releasesOf: int -> seq<Entities.Release>): (r: seq<Entities.ArtistWithData>)
    ensures |r| == |ArtistUsers(users)|
    ensures forall i :: 0 <= i < |r| ==>
              r[i] == ArtistWithData(userOf(ArtistUsers(users)[i].id), releasesOf(ArtistUsers(users)[i].id))
  {
    var artists := ArtistUsers(users);
    if |artists| == 0 then []
    else seq(|artists|, i requires 0 <= i < |artists| => ArtistWithData(userOf(artists[i].id), releasesOf(artists[i].id)))
  }

  /** Without artists there is nothing to fetch and the list is empty. */
  lemma AllArtistsNone(users: seq<Entities.User>, userOf: int -> Entities.User,
                       releasesOf: int -> seq<Entities.Release>)
    requires forall i :: 0 <= i < |users| ==> users[i].role != ArtistRole
    ensures AllArtistsWithData(users, userOf, releasesOf) == []
  {
    ArtistUsersNone(users);
  }
}
