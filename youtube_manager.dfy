/** src/youtube/manager.rs: named playlists with a cursor that wraps around in both directions. */
module YouTubeManager {
  import opened Wrappers

  datatype Video = Video(id: string, title: string, duration: string, thumbnailUrl: string)

  datatype Playlist = Playlist(name: string, videos: seq<Video>, currentIndex: nat)

  /** The cursor after `next_video`: one on, wrapping past the last video to the first. */
  function NextIndex(i: nat, len: nat): (j: nat)
    requires len > 0
    ensures j < len
    ensures i + 1 < len ==> j == i + 1
    ensures i + 1 == len ==> j == 0
  {
    (i + 1) % len
  }

  /** The cursor after `previous_video`: one back, wrapping from the first video to the last. */
  function PrevIndex(i: nat, len: nat): (j: nat)
    requires len > 0
    ensures i < len ==> j < len
    ensures i > 0 ==> j + 1 == i
    ensures i == 0 ==> j == len - 1
  {
    if i > 0 then i - 1 else len - 1
  }

  /** Stepping back undoes stepping forward. */
  lemma PrevUndoesNext(i: nat, len: nat)
    requires i < len
    ensures PrevIndex(NextIndex(i, len), len) == i
  {
  }

  /** Stepping forward undoes stepping back. */
  lemma NextUndoesPrev(i: nat, len: nat)
    requires i < len
    ensures NextIndex(PrevIndex(i, len), len) == i
  {
  }

  /** Up to `len` steps forward move the cursor `k` places around the circle; after exactly
    * `len` of them it is back where it started. */
  lemma {:induction false} StepsAround(i: nat, len: nat, k: nat)
    requires i < len && k <= len
    ensures Advance(i, len, k) == if i + k < len then i + k else i + k - len
    ensures k == len ==> Advance(i, len, k) == i
    decreases k
  {
    if k > 0 {
      StepsAround(i, len, k - 1);
    }
  }

  /** The cursor after `k` calls of `next_video`. */
  function Advance(i: nat, len: nat, k: nat): (j: nat)
    requires i < len
    ensures j < len
    decreases k
  {
    if k == 0 then i else NextIndex(Advance(i, len, k - 1), len)
  }

  /** `videos.get(i)`. */
  function VideoAt(videos: seq<Video>, i: nat): (r: Option<Video>)
    ensures r.Some? <==> i < |videos|
    ensures r.Some? ==> r.value == videos[i]
  {
    if i < |videos| then Some(videos[i]) else None
  }

  class YouTubeManager {
    var playlists: map<string, Playlist>
    var currentPlaylist: Option<string>

    /** Every cursor points at a video of its playlist, or is 0 on an empty one. */
    predicate Valid()
      reads this
    {
      forall n :: n in playlists ==>
        playlists[n].currentIndex < |playlists[n].videos| || playlists[n].currentIndex == 0
    }

    /** `new`, without the HTTP client and the API key. */
    constructor ()
      ensures Valid() && playlists == map[] && currentPlaylist == None
    {
      playlists := map[];
      currentPlaylist := None;
    }

    /** `create_playlist`: a playlist at its first video, replacing any of the same name. */
    method CreatePlaylist(name: string, videos: seq<Video>)
      requires Valid()
      modifies this`playlists
      ensures Valid()
      ensures playlists == old(playlists)[name := Playlist(name, videos, 0)]
    {
      playlists := playlists[name := Playlist(name, videos, 0)];
    }

    /** `next_video`. With no current playlist nothing happens. The source divides by the
      * playlist's length, so an empty current playlist is excluded. */
    method NextVideo() returns (r: Option<Video>)
      requires Valid()
      requires currentPlaylist.Some? && currentPlaylist.value in playlists ==>
                 |playlists[currentPlaylist.value].videos| > 0
      modifies this`playlists
      ensures Valid()
      ensures (currentPlaylist.None? || currentPlaylist.value !in old(playlists)) ==>
                r == None && playlists == old(playlists)
      ensures currentPlaylist.Some? && currentPlaylist.value in old(playlists) ==>
                var p := old(playlists)[currentPlaylist.value];
                var j := NextIndex(p.currentIndex, |p.videos|);
                playlists == old(playlists)[currentPlaylist.value := p.(currentIndex := j)]
                && r == Some(p.videos[j])
    {
      if currentPlaylist.Some? && currentPlaylist.value in playlists {
        var p := playlists[currentPlaylist.value];
        var j := (p.currentIndex + 1) % |p.videos|;
        playlists := playlists[currentPlaylist.value := p.(currentIndex := j)];
        return VideoAt(p.videos, j);
      }
      r := None;
    }

    /** `previous_video`. The source subtracts one from the length, so an empty current
      * playlist is excluded here too. */
    method PreviousVideo() returns (r: Option<Video>)
      requires Valid()
      requires currentPlaylist.Some? && currentPlaylist.value in playlists ==>
                 |playlists[currentPlaylist.value].videos| > 0
      modifies this`playlists
      ensures Valid()
      ensures (currentPlaylist.None? || currentPlaylist.value !in old(playlists)) ==>
                r == None && playlists == old(playlists)
      ensures currentPlaylist.Some? && currentPlaylist.value in old(playlists) ==>
                var p := old(playlists)[currentPlaylist.value];
                var j := PrevIndex(p.currentIndex, |p.videos|);
                playlists == old(playlists)[currentPlaylist.value := p.(currentIndex := j)]
                && r == Some(p.videos[j])
    {
      if currentPlaylist.Some? && currentPlaylist.value in playlists {
        var p := playlists[currentPlaylist.value];
        var j := if p.currentIndex > 0 then p.currentIndex - 1 else |p.videos| - 1;
        playlists := playlists[currentPlaylist.value := p.(currentIndex := j)];
        return VideoAt(p.videos, j);
      }
      r := None;
    }
  }

  /** No method sets the current playlist, so navigation never yields a video, even right after
    * a playlist is created. */
  method NavigationNeverPlays(name: string, videos: seq<Video>) returns (next: Option<Video>, prev: Option<Video>)
    ensures next == None && prev == None
  {
    var m := new YouTubeManager();
    m.CreatePlaylist(name, videos);
    next := m.NextVideo();
    prev := m.PreviousVideo();
  }
}
