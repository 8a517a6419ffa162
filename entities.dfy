/** The records the core reads. They follow what the code accesses rather than
    the declared interfaces: a release may carry `tracks` and is compared with
    upper-case statuses, and a royalty carries `trackId`, `amount` and `period`. */
module Entities {
  import opened Common

  datatype Track = Track(id: int, title: string, streams: Option<int>)

  datatype Release = Release(
    id: int,
    title: string,
    status: string,
    streams: Option<int>,
    tracks: Option<seq<Track>>)

  /** A royalty line; `period` is text of the form "YYYY-MM". */
  datatype Royalty = Royalty(trackId: int, amount: real, period: string)

  datatype User = User(id: int, name: string, email: string, role: string)

  datatype ArtistWithData = ArtistWithData(
    id: int,
    name: string,
    email: string,
    role: string,
    releases: seq<Release>,
    totalTracks: int,
    totalStreams: int)

  /** `release.streams ?? 0`. */
  function ReleaseStreams(r: Release): int {
    OrZero(r.streams)
  }

  /** `track.streams || 0`. */
  function TrackStreams(t: Track): int {
    OrZero(t.streams)
  }

  /** `release.tracks ?? []`. */
  function TracksOf(r: Release): seq<Track> {
    if r.tracks.Some? then r.tracks.value else []
  }

  /** The tracks of all releases, release by release, in order. */
  function AllTracks(releases: seq<Release>): seq<Track> {
    if releases == [] then []
    else AllTracks(releases[..|releases| - 1]) + TracksOf(releases[|releases| - 1])
  }

  /** Every track listed by `AllTracks` belongs to one of the releases. */
  lemma {:induction false} AllTracksOrigin(releases: seq<Release>, k: nat)
    requires k < |AllTracks(releases)|
    ensures exists i :: 0 <= i < |releases| && AllTracks(releases)[k] in TracksOf(releases[i])
    decreases |releases|
  {
    var front := releases[..|releases| - 1];
    var last := releases[|releases| - 1];
    if k < |AllTracks(front)| {
      AllTracksOrigin(front, k);
      var i :| 0 <= i < |front| && AllTracks(front)[k] in TracksOf(front[i]);
      assert releases[i] == front[i];
    } else {
      assert AllTracks(releases)[k] == TracksOf(last)[k - |AllTracks(front)|];
    }
  }

  /** Conversely, every track of every release is listed. */
  lemma {:induction false} AllTracksComplete(releases: seq<Release>, i: nat, t: Track)
    requires i < |releases| && t in TracksOf(releases[i])
    ensures t in AllTracks(releases)
    decreases |releases|
  {
    if i < |releases| - 1 {
      AllTracksComplete(releases[..|releases| - 1], i, t);
    }
  }
}
