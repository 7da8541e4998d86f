/**
 * `get_playlist_id_by_name`: the identifiers of all of the user's
 * playlists whose name matches, and the first of them. The playlist list
 * itself comes from the service and is given here as a parameter.
 */
module PlaylistLookup {
  import opened Wrappers

  /** One of the user's playlists, reduced to the fields the lookup reads. */
  datatype Playlist = Playlist(id: string, name: string)

  /** `[p["id"] for p in playlists if p["name"] == name]` */
  function MatchingIds(playlists: seq<Playlist>, name: string): (r: seq<string>)
    ensures |r| <= |playlists|
    ensures r == [] <==> forall i :: 0 <= i < |playlists| ==> playlists[i].name != name
    ensures r != [] ==>
              exists i :: 0 <= i < |playlists| && playlists[i].name == name && playlists[i].id == r[0] &&
                          forall k :: 0 <= k < i ==> playlists[k].name != name
  {
    if playlists == [] then []
    else if playlists[0].name == name then [playlists[0].id] + MatchingIds(playlists[1..], name)
    else
      MatchingIds(playlists[1..], name)
  }

  /**
   * `get_playlist_id_by_name`: the identifier of the first playlist named
   * `name`, or None where indexing the empty match list raises IndexError.
   */
  function PlaylistIdByName(playlists: seq<Playlist>, name: string): (r: Option<string>)
    ensures r.None? <==> forall i :: 0 <= i < |playlists| ==> playlists[i].name != name
    ensures r.Some? ==>
              exists i :: 0 <= i < |playlists| && playlists[i].name == name && playlists[i].id == r.value &&
                          forall k :: 0 <= k < i ==> playlists[k].name != name
  {
    var matches := MatchingIds(playlists, name);
    if matches == [] then None else Some(matches[0])
  }
}
