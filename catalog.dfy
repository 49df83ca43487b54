/**
 * The playlist-tracks payload of the music catalog and the transform both
 * server files apply to it: keep the items whose track is present and has a
 * truthy `preview_url`, in order, and project each to `{name, artist, preview_url}`.
 */
module Catalog {
  import opened Common
  import opened Text

  datatype Artist = Artist(name: string)

  /** A track object of the catalog; `previewUrl` may be null. */
  datatype CatalogTrack = CatalogTrack(name: string, artists: seq<Artist>, previewUrl: Option<string>)

  /** One entry of `items`; its `track` may be null. */
  datatype Item = Item(track: Option<CatalogTrack>)

  /** What the server sends to the client for one playable track. */
  datatype Track = Track(name: string, artist: string, previewUrl: string)

  /** What the catalog's playlist-tracks endpoint answered: a transport failure, or a status with its raw text and the `items` its JSON body holds (None when absent). */
  datatype CatalogReply =
    | CatalogUnreachable(reason: string)
    | CatalogResponse(status: nat, text: string, items: Option<seq<Item>>)

  const ARTIST_SEPARATOR: string := ", "

  /** `!!track.preview_url` */
  predicate HasPreview(t: CatalogTrack) {
    Truthy(t.previewUrl)
  }

  /** An item that survives both filters. */
  predicate Playable(item: Item) {
    item.track.Some? && HasPreview(item.track.value)
  }

  /** `track.artists.map(a => a.name)` */
  function ArtistNames(artists: seq<Artist>): (r: seq<string>)
    ensures |r| == |artists|
    ensures forall i :: 0 <= i < |artists| ==> r[i] == artists[i].name
  {
    if artists == [] then [] else [artists[0].name] + ArtistNames(artists[1..])
  }

  /** The final `map`: name and preview copied, artist names joined by ", " in order. */
  function Project(t: CatalogTrack): (r: Track)
    requires HasPreview(t)
    ensures r.name == t.name && r.previewUrl == t.previewUrl.value && r.previewUrl != ""
    ensures t.artists != [] ==> r.artist == Join(ArtistNames(t.artists), ARTIST_SEPARATOR)
    ensures t.artists == [] ==> r.artist == ""
    ensures |t.artists| == 1 ==> r.artist == t.artists[0].name
  {
    Track(t.name, Join(ArtistNames(t.artists), ARTIST_SEPARATOR), t.previewUrl.value)
  }

  function ProjectAll(ts: seq<CatalogTrack>): (r: seq<Track>)
    requires forall t :: t in ts ==> HasPreview(t)
    ensures |r| == |ts|
    ensures forall i :: 0 <= i < |ts| ==> r[i] == Project(ts[i])
  {
    if ts == [] then [] else [Project(ts[0])] + ProjectAll(ts[1..])
  }

  // ---- api/tracks.js: map to track, drop null, drop no-preview, project ----

  /** `.map(item => !item.track ? null : item.track).filter(track => track !== null)` */
  function PresentTracks(items: seq<Item>): (r: seq<CatalogTrack>)
    ensures |r| <= |items|
    ensures forall t :: t in r ==> Item(Some(t)) in items
  {
    if items == [] then []
    else
      var rest := PresentTracks(items[1..]);
      assert forall t :: t in rest ==> Item(Some(t)) in items by {
        assert forall it :: it in items[1..] ==> it in items;
      }
      match items[0].track
      case Some(t) => [t] + rest
      case None => rest
  }

  /** `.filter(track => !!track.preview_url)` */
  function WithPreview(ts: seq<CatalogTrack>): (r: seq<CatalogTrack>)
    ensures |r| <= |ts|
    ensures forall t :: t in r ==> t in ts && HasPreview(t)
  {
    if ts == [] then []
    else
      var rest := WithPreview(ts[1..]);
      assert forall t :: t in rest ==> t in ts by {
        assert forall t :: t in ts[1..] ==> t in ts;
      }
      if HasPreview(ts[0]) then [ts[0]] + rest else rest
  }

  /** The transform of api/tracks.js. */
  function TransformStrict(items: seq<Item>): (r: seq<Track>)
    ensures |r| <= |items|
    ensures forall t :: t in r ==> t.previewUrl != ""
  {
    ProjectAll(WithPreview(PresentTracks(items)))
  }

  // ---- api/index.js: map to track, one combined filter, project ----

  /** `.map(item => item.track).filter(track => track && track.preview_url)` */
  function PlayableTracks(items: seq<Item>): (r: seq<CatalogTrack>)
    ensures |r| <= |items|
    ensures forall t :: t in r ==> HasPreview(t) && Item(Some(t)) in items
  {
    if items == [] then []
    else
      var rest := PlayableTracks(items[1..]);
      assert forall t :: t in rest ==> Item(Some(t)) in items by {
        assert forall it :: it in items[1..] ==> it in items;
      }
      if Playable(items[0]) then [items[0].track.value] + rest else rest
  }

  /** The transform of api/index.js. */
  function TransformLoose(items: seq<Item>): (r: seq<Track>)
    ensures |r| <= |items|
    ensures forall t :: t in r ==> t.previewUrl != ""
  {
    ProjectAll(PlayableTracks(items))
  }

  // ---- properties ----

  /** The two filter steps of api/tracks.js keep exactly what the one filter of api/index.js keeps. */
  lemma {:induction false} FiltersAgree(items: seq<Item>)
    ensures WithPreview(PresentTracks(items)) == PlayableTracks(items)
    decreases |items|
  {
    if items != [] {
      FiltersAgree(items[1..]);
      var rest := PresentTracks(items[1..]);
      if items[0].track.Some? {
        var t := items[0].track.value;
        assert PresentTracks(items) == [t] + rest;
        assert ([t] + rest)[1..] == rest;
      }
    }
  }

  /** Both server files send the same tracks for the same payload. */
  lemma TransformsAgree(items: seq<Item>)
    ensures TransformStrict(items) == TransformLoose(items)
  {
    FiltersAgree(items);
  }

  /** Projection distributes over concatenation. */
  lemma {:induction false} ProjectAllAppend(a: seq<CatalogTrack>, b: seq<CatalogTrack>)
    requires forall t :: t in a ==> HasPreview(t)
    requires forall t :: t in b ==> HasPreview(t)
    ensures ProjectAll(a + b) == ProjectAll(a) + ProjectAll(b)
  {
    var ab := a + b;
    assert forall t :: t in ab ==> HasPreview(t);
    assert |ProjectAll(ab)| == |ProjectAll(a) + ProjectAll(b)|;
    forall i | 0 <= i < |ab|
      ensures ProjectAll(ab)[i] == (ProjectAll(a) + ProjectAll(b))[i]
    {
      if i >= |a| {
        assert ab[i] == b[i - |a|];
      }
    }
  }

  /** The combined filter distributes over concatenation. */
  lemma {:induction false} PlayableTracksAppend(a: seq<Item>, b: seq<Item>)
    ensures PlayableTracks(a + b) == PlayableTracks(a) + PlayableTracks(b)
    decreases |a|
  {
    if a == [] {
      assert a + b == b;
    } else {
      assert (a + b)[1..] == a[1..] + b;
      PlayableTracksAppend(a[1..], b);
    }
  }

  /**
   * The output for a concatenated payload is the output for each part, in
   * order: with TransformSingle this pins the transform down to "the playable
   * items, in order, projected".
   */
  lemma TransformAppend(a: seq<Item>, b: seq<Item>)
    ensures TransformStrict(a + b) == TransformStrict(a) + TransformStrict(b)
  {
    TransformsAgree(a + b);
    TransformsAgree(a);
    TransformsAgree(b);
    PlayableTracksAppend(a, b);
    ProjectAllAppend(PlayableTracks(a), PlayableTracks(b));
  }

  /** One item gives one projected track when it is playable, and nothing otherwise. */
  lemma TransformSingle(item: Item)
    ensures Playable(item) ==> TransformStrict([item]) == [Project(item.track.value)]
    ensures !Playable(item) ==> TransformStrict([item]) == []
  {
    TransformsAgree([item]);
    assert [item][1..] == [];
  }

  /** The output has as many tracks as the payload has playable items. */
  function CountPlayable(items: seq<Item>): nat {
    if items == [] then 0 else (if Playable(items[0]) then 1 else 0) + CountPlayable(items[1..])
  }

  lemma {:induction false} TransformLength(items: seq<Item>)
    ensures |TransformStrict(items)| == CountPlayable(items)
    decreases |items|
  {
    TransformsAgree(items);
    if items != [] {
      TransformLength(items[1..]);
      TransformsAgree(items[1..]);
    }
  }

  /** Two items, one with a preview and one whose preview is null: one track comes out. */
  lemma OneOfTwoPlayableExample(withPreview: CatalogTrack, without: CatalogTrack)
    requires withPreview.previewUrl == Some("https://p.example/1")
    requires without.previewUrl == None
    ensures TransformStrict([Item(Some(withPreview)), Item(Some(without))]) == [Project(withPreview)]
  {
    var a, b := Item(Some(withPreview)), Item(Some(without));
    assert [a, b] == [a] + [b];
    TransformAppend([a], [b]);
    TransformSingle(a);
    TransformSingle(b);
  }
}
