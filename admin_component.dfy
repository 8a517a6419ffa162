/** `AdminComponent`: the artist list of the admin page, its expansion toggle,
    and the three confirmed deletions with their request and response halves.
    `window.confirm` is the boolean `confirmed`; each delete request's outcome
    is the boolean `succeeded` of the matching response handler. */
module Admin {
  import opened Common
  import Entities

  const LoadArtistsError: string := "Failed to load artists data"
  const DeleteArtistError: string := "Failed to delete artist"
  const DeleteReleaseError: string := "Failed to delete release"
  const DeleteTrackError: string := "Failed to delete track"

  /** The texts `confirm` shows. */
  function ArtistPrompt(name: string): string {
    "Are you sure you want to delete artist \"" + name +
    "\"? This will permanently delete all their releases and tracks."
  }

  function ReleasePrompt(title: string): string {
    "Are you sure you want to delete release \"" + title + "\"? This will also delete all associated tracks."
  }

  function TrackPrompt(title: string): string {
    "Are you sure you want to delete track \"" + title + "\"?"
  }

  // ---------------------------------------------------------------------
  // The list updates of the three delete handlers

  function OtherArtist(id: int): Entities.ArtistWithData -> bool {
    (a: Entities.ArtistWithData) => a.id != id
  }

  function OtherRelease(id: int): Entities.Release -> bool {
    (r: Entities.Release) => r.id != id
  }

  function OtherTrack(id: int): Entities.Track -> bool {
    (t: Entities.Track) => t.id != id
  }

  /** `artists.filter(artist => artist.id !== artistId)`. */
  function WithoutArtist(artists: seq<Entities.ArtistWithData>, artistId: int): (r: seq<Entities.ArtistWithData>)
    ensures |r| <= |artists|
    ensures forall i :: 0 <= i < |r| ==> r[i].id != artistId
  {
    Filter(artists, OtherArtist(artistId))
  }

  /** Exactly the artists with that id go; every other one stays, as often as it occurred. */
  lemma WithoutArtistExact(artists: seq<Entities.ArtistWithData>, artistId: int, a: Entities.ArtistWithData)
    ensures multiset(WithoutArtist(artists, artistId))[a] == if a.id != artistId then multiset(artists)[a] else 0
  {
    FilterCount(artists, OtherArtist(artistId), a);
  }

  /** The artists that stay keep their order. */
  lemma WithoutArtistOrder(front: seq<Entities.ArtistWithData>, back: seq<Entities.ArtistWithData>, artistId: int)
    ensures WithoutArtist(front + back, artistId) == WithoutArtist(front, artistId) + WithoutArtist(back, artistId)
  {
    FilterConcat(front, back, OtherArtist(artistId));
  }

  /** Deleting an id that no listed artist carries leaves the list as it is. */
  lemma WithoutArtistAbsent(artists: seq<Entities.ArtistWithData>, artistId: int)
    requires forall i :: 0 <= i < |artists| ==> artists[i].id != artistId
    ensures WithoutArtist(artists, artistId) == artists
  {
    FilterAll(artists, OtherArtist(artistId));
  }

  /** The `map` of the release-delete handler: the artist with `artistId` loses
      its releases with `releaseId`; its totals are copied, not recomputed. */
  function WithoutRelease(artists: seq<Entities.ArtistWithData>, artistId: int, releaseId: int)
    : (r: seq<Entities.ArtistWithData>)
    ensures |r| == |artists|
    ensures forall i :: 0 <= i < |artists| && artists[i].id != artistId ==> r[i] == artists[i]
    ensures forall i :: 0 <= i < |artists| && artists[i].id == artistId ==>
              r[i] == artists[i].(releases := r[i].releases) && |r[i].releases| <= |artists[i].releases|
  {
    seq(|artists|, i requires 0 <= i < |artists| =>
      if artists[i].id == artistId
      then artists[i].(releases := Filter(artists[i].releases, OtherRelease(releaseId)))
      else artists[i])
  }

  /** In the matching artist, a release stays exactly when it was there and has another id. */
  lemma WithoutReleaseExact(artists: seq<Entities.ArtistWithData>, artistId: int, releaseId: int,
                            i: nat, rel: Entities.Release)
    requires i < |artists| && artists[i].id == artistId
    ensures rel in WithoutRelease(artists, artistId, releaseId)[i].releases <==>
              rel in artists[i].releases && rel.id != releaseId
  {
    FilterMember(artists[i].releases, OtherRelease(releaseId), rel);
  }

  /** `release.id === releaseId && release.tracks`: a release of that id with
      a track list (an empty list counts) loses the tracks with `trackId`. */
  function WithoutTrackIn(release: Entities.Release, releaseId: int, trackId: int): (r: Entities.Release)
    ensures release.id != releaseId || release.tracks.None? ==> r == release
    ensures release.id == releaseId && release.tracks.Some? ==>
              r == release.(tracks := r.tracks) && r.tracks.Some? &&
              (forall t :: t in r.tracks.value <==> t in release.tracks.value && t.id != trackId)
  {
    if release.id == releaseId && release.tracks.Some? then
      var kept := Filter(release.tracks.value, OtherTrack(trackId));
      assert forall t :: t in kept <==> t in release.tracks.value && t.id != trackId by {
        forall t ensures t in kept <==> t in release.tracks.value && t.id != trackId {
          FilterMember(release.tracks.value, OtherTrack(trackId), t);
        }
      }
      release.(tracks := Some(kept))
    else release
  }

  /** The `map` of the track-delete handler: only the releases of the artist
      with `artistId` are looked at. */
  function WithoutTrack(artists: seq<Entities.ArtistWithData>, artistId: int, releaseId: int, trackId: int)
    : (r: seq<Entities.ArtistWithData>)
    ensures |r| == |artists|
    ensures forall i :: 0 <= i < |artists| && artists[i].id != artistId ==> r[i] == artists[i]
    ensures forall i :: 0 <= i < |artists| && artists[i].id == artistId ==>
              r[i] == artists[i].(releases := r[i].releases) &&
              |r[i].releases| == |artists[i].releases| &&
              forall k :: 0 <= k < |artists[i].releases| ==>
                r[i].releases[k] == WithoutTrackIn(artists[i].releases[k], releaseId, trackId)
  {
    seq(|artists|, i requires 0 <= i < |artists| =>
      if artists[i].id == artistId
      then artists[i].(releases := seq(|artists[i].releases|, k requires 0 <= k < |artists[i].releases| =>
                                         WithoutTrackIn(artists[i].releases[k], releaseId, trackId)))
      else artists[i])
  }

  /** A track delete touches one release at most: every release of another id,
      or of another artist, is unchanged. */
  lemma WithoutTrackElsewhere(artists: seq<Entities.ArtistWithData>, artistId: int, releaseId: int,
                              trackId: int, i: nat, k: nat)
    requires i < |artists| && k < |artists[i].releases|
    requires artists[i].id != artistId || artists[i].releases[k].id != releaseId
    ensures WithoutTrack(artists, artistId, releaseId, trackId)[i].releases[k] == artists[i].releases[k]
  {
  }

  // ---------------------------------------------------------------------
  // The component

  datatype AdminState = AdminState(
    artists: seq<Entities.ArtistWithData>,
    loading: bool,
    error: Option<string>,
    expandedArtistId: Option<int>,
    deletingArtistId: Option<int>,
    deletingReleaseId: Option<int>,
    deletingTrackId: Option<int>)

  class AdminComponent {
    var artists: seq<Entities.ArtistWithData>
    var loading: bool
    var error: Option<string>
    var expandedArtistId: Option<int>
    var deletingArtistId: Option<int>
    var deletingReleaseId: Option<int>
    var deletingTrackId: Option<int>

    function View(): AdminState
      reads this
    {
      AdminState(artists, loading, error, expandedArtistId, deletingArtistId, deletingReleaseId, deletingTrackId)
    }

    constructor ()
      ensures View() == AdminState([], false, None, None, None, None, None)
    {
      artists := [];
      loading := false;
      error := None;
      expandedArtistId := None;
      deletingArtistId := None;
      deletingReleaseId := None;
      deletingTrackId := None;
    }

    /** `loadAllArtists`, up to the point where it subscribes; `ngOnInit` and
        `refreshData` do nothing else. */
    method LoadAllArtists()
      modifies this
      ensures View() == old(View()).(loading := true, error := None)
    {
      loading := true;
      error := None;
    }

    /** The subscription of `loadAllArtists`: the list is replaced, or kept
        with an error message. */
    method OnArtistsLoaded(response: Response<seq<Entities.ArtistWithData>>)
      modifies this
      ensures response.Next? ==> View() == old(View()).(artists := response.value, loading := false)
      ensures response.Failed? ==> View() == old(View()).(error := Some(LoadArtistsError), loading := false)
    {
      match response
      case Next(list) =>
        artists := list;
        loading := false;
      case Failed =>
        error := Some(LoadArtistsError);
        loading := false;
    }

    /** `refreshData`. */
    method RefreshData()
      modifies this
      ensures View() == old(View()).(loading := true, error := None)
    {
      LoadAllArtists();
    }

    /** `toggleArtistExpansion`: a second toggle of the same artist collapses it. */
    method ToggleArtistExpansion(artistId: int)
      modifies this
      ensures old(expandedArtistId) == Some(artistId) ==> expandedArtistId == None
      ensures old(expandedArtistId) != Some(artistId) ==> expandedArtistId == Some(artistId)
      ensures View() == old(View()).(expandedArtistId := expandedArtistId)
    {
      expandedArtistId := if expandedArtistId == Some(artistId) then None else Some(artistId);
    }

    /** `onDeleteArtist`, up to the request: the prompt shown and the id whose
        deletion is requested, if confirmed. A declined prompt changes nothing. */
    method OnDeleteArtist(artistId: int, artistName: string, confirmed: bool)
      returns (prompt: string, request: Option<int>)
      modifies this
      ensures prompt == ArtistPrompt(artistName)
      ensures request == (if confirmed then Some(artistId) else None)
      ensures confirmed ==> View() == old(View()).(deletingArtistId := Some(artistId), error := None)
      ensures !confirmed ==> View() == old(View())
    {
      prompt := ArtistPrompt(artistName);
      request := None;
      if confirmed {
        deletingArtistId := Some(artistId);
        error := None;
        request := Some(artistId);
      }
    }

    /** The response to the artist delete. */
    method OnArtistDeleted(artistId: int, succeeded: bool)
      modifies this
      ensures succeeded ==>
        View() == old(View()).(artists := WithoutArtist(old(artists), artistId),
                               deletingArtistId := None, expandedArtistId := None)
      ensures !succeeded ==>
        View() == old(View()).(error := Some(DeleteArtistError), deletingArtistId := None)
    {
      if succeeded {
        artists := WithoutArtist(artists, artistId);
        deletingArtistId := None;
        expandedArtistId := None;
      } else {
        error := Some(DeleteArtistError);
        deletingArtistId := None;
      }
    }

    /** `onDeleteRelease`, up to the request. */
    method OnDeleteRelease(releaseId: int, releaseTitle: string, artistId: int, confirmed: bool)
      returns (prompt: string, request: Option<int>)
      modifies this
      ensures prompt == ReleasePrompt(releaseTitle)
      ensures request == (if confirmed then Some(releaseId) else None)
      ensures confirmed ==> View() == old(View()).(deletingReleaseId := Some(releaseId), error := None)
      ensures !confirmed ==> View() == old(View())
    {
      prompt := ReleasePrompt(releaseTitle);
      request := None;
      if confirmed {
        deletingReleaseId := Some(releaseId);
        error := None;
        request := Some(releaseId);
      }
    }

    /** The response to the release delete. */
    method OnReleaseDeleted(releaseId: int, artistId: int, succeeded: bool)
      modifies this
      ensures succeeded ==>
        View() == old(View()).(artists := WithoutRelease(old(artists), artistId, releaseId),
                               deletingReleaseId := None)
      ensures !succeeded ==>
        View() == old(View()).(error := Some(DeleteReleaseError), deletingReleaseId := None)
    {
      if succeeded {
        artists := WithoutRelease(artists, artistId, releaseId);
        deletingReleaseId := None;
      } else {
        error := Some(DeleteReleaseError);
        deletingReleaseId := None;
      }
    }

    /** `onDeleteTrack`, up to the request. */
    method OnDeleteTrack(trackId: int, trackTitle: string, artistId: int, releaseId: int, confirmed: bool)
      returns (prompt: string, request: Option<int>)
      modifies this
      ensures prompt == TrackPrompt(trackTitle)
      ensures request == (if confirmed then Some(trackId) else None)
      ensures confirmed ==> View() == old(View()).(deletingTrackId := Some(trackId), error := None)
      ensures !confirmed ==> View() == old(View())
    {
      prompt := TrackPrompt(trackTitle);
      request := None;
      if confirmed {
        deletingTrackId := Some(trackId);
        error := None;
        request := Some(trackId);
      }
    }

    /** The response to the track delete. */
    method OnTrackDeleted(trackId: int, artistId: int, releaseId: int, succeeded: bool)
      modifies this
      ensures succeeded ==>
        View() == old(View()).(artists := WithoutTrack(old(artists), artistId, releaseId, trackId),
                               deletingTrackId := None)
      ensures !succeeded ==>
        View() == old(View()).(error := Some(DeleteTrackError), deletingTrackId := None)
    {
      if succeeded {
        artists := WithoutTrack(artists, artistId, releaseId, trackId);
        deletingTrackId := None;
      } else {
        error := Some(DeleteTrackError);
        deletingTrackId := None;
      }
    }
  }
}
