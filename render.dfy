/**
 * The selection and resolution rules of the room renderer (js/render.js),
 * lifted out of the DOM calls around them: what each render pass shows, in
 * which order, and which catalogue entry each piece of state resolves to.
 */
module Render {
  import opened Wrappers
  import opened JsString
  import opened Params

  // ─── Profile board ──────────────────────────────────────────────────────────

  datatype ProfileText = ProfileText(name: string, genre: string, bio: string)

  /** JavaScript's `value || placeholder` on a string: the empty string is falsy. */
  function OrPlaceholder(value: string, placeholder: string): string {
    if value == "" then placeholder else value
  }

  /** The texts the profile board shows: each field, or its placeholder when the field is empty. */
  function ProfileBoard(p: Profile): (t: ProfileText)
    ensures t.name != "" && t.genre != "" && t.bio != ""
    ensures t.name == (if p.name == "" then "Name" else p.name)
    ensures t.genre == (if p.genre == "" then "Favourite genre" else p.genre)
    ensures t.bio == (if p.bio == "" then "Bio" else p.bio)
  {
    ProfileText(OrPlaceholder(p.name, "Name"), OrPlaceholder(p.genre, "Favourite genre"), OrPlaceholder(p.bio, "Bio"))
  }

  /** A fresh room shows the three placeholders. */
  lemma DefaultProfileShowsPlaceholders()
    ensures ProfileBoard(GetInitialState().profile) == ProfileText("Name", "Favourite genre", "Bio")
  {
  }

  /** The wizard's sidebar labels: the draft name, or "New Playlist" when it is empty. */
  function WizardLabel(name: string): (text: string)
    ensures text != ""
    ensures name != "" ==> text == name
    ensures name == "" ==> text == "New Playlist"
  {
    OrPlaceholder(name, "New Playlist")
  }

  // ─── Frame ──────────────────────────────────────────────────────────────────

  /** `FRAME_IMAGES[frame]`: `None` (undefined) when the index has no entry. */
  function FrameEntry(frame: int): (e: Option<string>)
    ensures e.Some? <==> 0 <= frame < |FRAME_IMAGES|
    ensures e.Some? ==> e.value == FRAME_IMAGES[frame]
  {
    if 0 <= frame < |FRAME_IMAGES| then Some(FRAME_IMAGES[frame]) else None
  }

  /**
   * `FRAME_IMAGES[frame] || FRAME_IMAGES[0]`: an index with a file resolves to
   * that file, any other index to the first frame.
   */
  function FrameFile(frame: int): (file: string)
    ensures file in FRAME_IMAGES
    ensures 0 <= frame < |FRAME_IMAGES| ==> file == FRAME_IMAGES[frame]
    ensures !(0 <= frame < |FRAME_IMAGES|) ==> file == FRAME_IMAGES[0]
  {
    var entry := FrameEntry(frame);
    if entry.Some? && entry.value != "" then entry.value else FRAME_IMAGES[0]
  }

  /** The image source of the profile frame. */
  function FrameSource(frame: int): (src: string)
    ensures exists i :: 0 <= i < |FRAME_IMAGES| && src == "./photos/frames/" + FRAME_IMAGES[i]
  {
    "./photos/frames/" + FrameFile(frame)
  }

  // ─── Shelf ──────────────────────────────────────────────────────────────────

  /** One node of the shelf: a playlist spine tagged with its index, or the add button. */
  datatype ShelfItem =
    | Spine(playlistId: string, name: string, color: Color, index: nat, title: string)
    | AddButton

  /** The spine renderShelf builds for the playlist at `index`. */
  function SpineOf(pl: Playlist, index: nat): ShelfItem {
    Spine(pl.id, pl.name, pl.color, index, "Open " + pl.name)
  }

  /**
   * What renderShelf puts on the shelf: the items before the last are the
   * playlists' spines, in playlist order, each tagged with its playlist's
   * index and titled after it; the last item is the add button.
   */
  function ShelfItems(playlists: seq<Playlist>): (items: seq<ShelfItem>)
    ensures |items| == |playlists| + 1
    ensures forall k :: 0 <= k < |items| ==> (items[k].Spine? <==> k < |playlists|)
    ensures forall k :: 0 <= k < |playlists| ==>
              && items[k].index == k
              && items[k].playlistId == playlists[k].id
              && items[k].name == playlists[k].name
              && items[k].color == playlists[k].color
              && items[k].title == "Open " + playlists[k].name
  {
    seq(|playlists|, k requires 0 <= k < |playlists| => SpineOf(playlists[k], k)) + [AddButton]
  }

  /** renderShelf, node by node. */
  method RenderShelf(playlists: seq<Playlist>) returns (items: seq<ShelfItem>)
    ensures items == ShelfItems(playlists)
  {
    items := [];
    var i := 0;
    while i < |playlists|
      invariant 0 <= i <= |playlists|
      invariant items == ShelfItems(playlists)[..i]
    {
      var pl := playlists[i];
      items := items + [Spine(pl.id, pl.name, pl.color, i, "Open " + pl.name)];
      i := i + 1;
    }
    items := items + [AddButton];
  }

  // ─── Stickers ───────────────────────────────────────────────────────────────

  /** A rendered sticker: the catalogue emoji at the sticker's position, tagged with its index in `placedStickers`. */
  datatype StickerView = StickerView(emoji: string, title: string, x: real, y: real, index: nat)

  /** The view of a placed sticker drawn from its catalogue entry. */
  function ViewOf(def: StickerDef, sticker: PlacedSticker, index: nat): StickerView {
    StickerView(def.emoji, def.caption + " (drag to move)", sticker.x, sticker.y, index)
  }

  /** `v` shows the placed sticker at `v.index`, drawn from the entry of `catalogue` that its id finds. */
  predicate Shows(catalogue: seq<StickerDef>, placed: seq<PlacedSticker>, v: StickerView) {
    v.index < |placed|
    && var def := FindStickerIn(catalogue, placed[v.index].id);
    && def.Some?
    && v == ViewOf(def.value, placed[v.index], v.index)
  }

  /** Some view carries index `i`. */
  predicate Listed(views: seq<StickerView>, i: int) {
    exists k :: 0 <= k < |views| && views[k].index == i
  }

  /** Appending a view lists exactly its index besides those listed before. */
  lemma ListedAppend(views: seq<StickerView>, v: StickerView)
    ensures forall j :: Listed(views + [v], j) <==> Listed(views, j) || v.index == j
  {
    forall j ensures Listed(views + [v], j) <==> Listed(views, j) || v.index == j {
      if Listed(views, j) {
        var k :| 0 <= k < |views| && views[k].index == j;
        assert (views + [v])[k] == views[k];
      }
      if Listed(views + [v], j) && v.index != j {
        var k :| 0 <= k < |views + [v]| && (views + [v])[k].index == j;
        assert k < |views| && views[k] == (views + [v])[k];
      }
      if v.index == j {
        assert (views + [v])[|views|] == v;
      }
    }
  }

  /**
   * renderStickers: every placed sticker whose id is in the sticker catalogue
   * is shown, in order, carrying its own index; a sticker with an unknown id
   * is skipped. An absent list renders as an empty one.
   */
  method RenderStickers(placedStickers: Option<seq<PlacedSticker>>) returns (views: seq<StickerView>)
    ensures var placed := placedStickers.GetOr([]);
      && (forall k :: 0 <= k < |views| ==> Shows(PROFILE_STICKERS, placed, views[k]))
      && (forall k, l :: 0 <= k < l < |views| ==> views[k].index < views[l].index)
      && (forall i :: 0 <= i < |placed| ==> (FindSticker(placed[i].id).Some? <==> Listed(views, i)))
  {
    views := ResolveStickers(PROFILE_STICKERS, placedStickers.GetOr([]));
  }

  /** The loop of renderStickers, over a given catalogue. */
  method ResolveStickers(catalogue: seq<StickerDef>, placed: seq<PlacedSticker>) returns (views: seq<StickerView>)
    ensures forall k :: 0 <= k < |views| ==> Shows(catalogue, placed, views[k])
    ensures forall k, l :: 0 <= k < l < |views| ==> views[k].index < views[l].index
    ensures forall i :: 0 <= i < |placed| ==> (FindStickerIn(catalogue, placed[i].id).Some? <==> Listed(views, i))
  {
    views := [];
    var i := 0;
    while i < |placed|
      invariant 0 <= i <= |placed|
      invariant forall k :: 0 <= k < |views| ==> Shows(catalogue, placed, views[k]) && views[k].index < i
      invariant forall k, l :: 0 <= k < l < |views| ==> views[k].index < views[l].index
      invariant forall j :: 0 <= j < i ==> (FindStickerIn(catalogue, placed[j].id).Some? <==> Listed(views, j))
    {
      var def := FindStickerIn(catalogue, placed[i].id);
      if def.Some? {
        var v := ViewOf(def.value, placed[i], i);
        assert Shows(catalogue, placed, v);
        ListedAppend(views, v);
        views := views + [v];
      } else {
        assert !Listed(views, i);
      }
      i := i + 1;
    }
  }

  // ─── Colour swatch grids ────────────────────────────────────────────────────

  /** A swatch of a colour grid: its colour, whether it is marked selected, and the data key it carries. */
  datatype Swatch = Swatch(color: Color, selected: bool, dataKey: string)

  /** The data attribute a swatch carries, which the click handlers look up. */
  function SwatchDataKey(dataAttr: string): (key: string)
    ensures dataAttr == "playlist-swatch" ==> key == "playlistColor"
    ensures dataAttr != "playlist-swatch" ==> key == "bgColor"
  {
    if dataAttr == "playlist-swatch" then "playlistColor" else "bgColor"
  }

  /** _renderSwatchGrid: one swatch per colour, in order; exactly those equal to `selected` are marked. */
  method RenderSwatchGrid(colors: seq<Color>, selected: Color, dataAttr: string) returns (grid: seq<Swatch>)
    ensures |grid| == |colors|
    ensures forall i :: 0 <= i < |colors| ==>
              grid[i].color == colors[i] && (grid[i].selected <==> colors[i] == selected)
              && grid[i].dataKey == SwatchDataKey(dataAttr)
  {
    grid := [];
    var i := 0;
    while i < |colors|
      invariant 0 <= i <= |colors|
      invariant |grid| == i
      invariant forall k :: 0 <= k < i ==>
                  grid[k].color == colors[k] && (grid[k].selected <==> colors[k] == selected)
                  && grid[k].dataKey == SwatchDataKey(dataAttr)
    {
      var color := colors[i];
      grid := grid + [Swatch(color, color == selected, SwatchDataKey(dataAttr))];
      i := i + 1;
    }
  }

  /** On a palette without repeats, at most one swatch is marked, and one is marked exactly when `selected` is on the palette. */
  lemma SingleSelection(colors: seq<Color>, selected: Color, grid: seq<Swatch>)
    requires DistinctColors(colors)
    requires |grid| == |colors|
    requires forall i :: 0 <= i < |colors| ==> grid[i].color == colors[i] && (grid[i].selected <==> colors[i] == selected)
    ensures forall i, j :: 0 <= i < j < |grid| && grid[i].selected ==> !grid[j].selected
    ensures (exists i :: 0 <= i < |grid| && grid[i].selected) <==> selected in colors
  {
    if selected in colors {
      var i :| 0 <= i < |colors| && colors[i] == selected;
      assert grid[i].selected;
    }
  }

  /** renderPlaylistColorGrid: the playlist palette, with exactly the swatch of the selected colour marked, if it is there. */
  method RenderPlaylistColorGrid(selected: Color) returns (grid: seq<Swatch>)
    ensures |grid| == |SWATCH_COLORS|
    ensures forall i :: 0 <= i < |grid| ==>
              grid[i].color == SWATCH_COLORS[i] && grid[i].dataKey == "playlistColor"
              && (grid[i].selected <==> SWATCH_COLORS[i] == selected)
    ensures forall i, j :: 0 <= i < j < |grid| && grid[i].selected ==> !grid[j].selected
    ensures (exists i :: 0 <= i < |grid| && grid[i].selected) <==> selected in SWATCH_COLORS
  {
    grid := RenderSwatchGrid(SWATCH_COLORS, selected, "playlist-swatch");
    PalettesDistinct();
    SingleSelection(SWATCH_COLORS, selected, grid);
  }

  /** renderBgColorGrid: the background palette, with exactly the swatch of the selected colour marked, if it is there. */
  method RenderBgColorGrid(selected: Color) returns (grid: seq<Swatch>)
    ensures |grid| == |BG_COLORS|
    ensures forall i :: 0 <= i < |grid| ==>
              grid[i].color == BG_COLORS[i] && grid[i].dataKey == "bgColor"
              && (grid[i].selected <==> BG_COLORS[i] == selected)
    ensures forall i, j :: 0 <= i < j < |grid| && grid[i].selected ==> !grid[j].selected
    ensures (exists i :: 0 <= i < |grid| && grid[i].selected) <==> selected in BG_COLORS
  {
    grid := RenderSwatchGrid(BG_COLORS, selected, "bg-swatch");
    PalettesDistinct();
    SingleSelection(BG_COLORS, selected, grid);
  }

  // ─── Song search ────────────────────────────────────────────────────────────

  /**
   * The search key: the query trimmed, then lower-cased. It is empty exactly
   * for a blank query and holds no capital letter.
   */
  function SearchKey(query: string): (key: string)
    ensures key == "" <==> AllWhitespace(query)
    ensures |key| == |Trim(query)|
    ensures forall i :: 0 <= i < |key| ==> !IsUpper(key[i])
  {
    TrimEmptyIff(query);
    ToLowerSpec(Trim(query));
    ToLower(Trim(query))
  }

  /** A song matches a key when its lower-cased name or artist contains it; every song matches the empty key. */
  function SongMatches(key: string, song: Song): (m: bool)
    ensures m <==> Occurs(ToLower(song.name), key) || Occurs(ToLower(song.artist), key)
    ensures key == "" ==> m
  {
    IncludesEmpty(ToLower(song.name));
    Includes(ToLower(song.name), key) || Includes(ToLower(song.artist), key)
  }

  /** Array.prototype.filter with SongMatches. */
  function FilterSongs(key: string, library: seq<Song>): (r: seq<Song>)
    ensures |r| <= |library|
    ensures forall s :: s in r ==> s in library && SongMatches(key, s)
  {
    if library == [] then []
    else (if SongMatches(key, library[0]) then [library[0]] else []) + FilterSongs(key, library[1..])
  }

  /** The songs renderSongSearch lists for a query: all of them for a blank query, the matching ones otherwise. */
  function SongSearch(query: string, library: seq<Song>): (r: seq<Song>)
    ensures |r| <= |library|
    ensures forall s :: s in r ==> s in library && SongMatches(SearchKey(query), s)
    ensures AllWhitespace(query) ==> r == library
  {
    var key := SearchKey(query);
    if key != "" then FilterSongs(key, library) else library
  }

  /** `r` is `s` with some elements left out and the rest in their original order. */
  predicate IsSubsequence(r: seq<Song>, s: seq<Song>)
    decreases |s|
  {
    if r == [] then true
    else if s == [] then false
    else if r[0] == s[0] then IsSubsequence(r[1..], s[1..])
    else IsSubsequence(r, s[1..])
  }

  lemma {:induction false} FilterKeepsOrder(key: string, library: seq<Song>)
    ensures IsSubsequence(FilterSongs(key, library), library)
    ensures forall s :: s in FilterSongs(key, library) ==> SongMatches(key, s)
  {
    if library != [] {
      FilterKeepsOrder(key, library[1..]);
      var rest := FilterSongs(key, library[1..]);
      if SongMatches(key, library[0]) {
        assert FilterSongs(key, library) == [library[0]] + rest;
        assert ([library[0]] + rest)[1..] == rest;
      } else {
        assert FilterSongs(key, library) == rest;
        if rest != [] {
          assert rest[0] in rest;
          assert rest[0] != library[0];
        }
      }
    }
  }

  lemma {:induction false} FilterCounts(key: string, library: seq<Song>, s: Song)
    ensures multiset(FilterSongs(key, library))[s] == if SongMatches(key, s) then multiset(library)[s] else 0
  {
    if library != [] {
      FilterCounts(key, library[1..], s);
      assert library == [library[0]] + library[1..];
    }
  }

  /** Filtering with the empty key keeps every song: every string includes "". */
  lemma {:induction false} FilterEmptyKey(library: seq<Song>)
    ensures FilterSongs("", library) == library
  {
    if library != [] {
      IncludesEmpty(ToLower(library[0].name));
      FilterEmptyKey(library[1..]);
      assert [library[0]] + library[1..] == library;
    }
  }

  /** A query that is empty or all whitespace lists the whole library unchanged. */
  lemma SearchBlankQuery(query: string, library: seq<Song>)
    requires AllWhitespace(query)
    ensures SongSearch(query, library) == library
  {
    TrimEmptyIff(query);
  }

  /** Any other query lists exactly the songs that match its key. */
  lemma SearchNonBlankQuery(query: string, library: seq<Song>)
    requires !AllWhitespace(query)
    ensures SearchKey(query) != ""
    ensures SongSearch(query, library) == FilterSongs(SearchKey(query), library)
  {
    TrimEmptyIff(query);
  }

  /**
   * The search result is the library with the non-matching songs left out:
   * the rest keep their order and their number of copies, so the result is
   * never longer than the library.
   */
  lemma SearchIsFilter(query: string, library: seq<Song>)
    ensures IsSubsequence(SongSearch(query, library), library)
    ensures |SongSearch(query, library)| <= |library|
    ensures forall s :: multiset(SongSearch(query, library))[s]
                        == if SongMatches(SearchKey(query), s) then multiset(library)[s] else 0
  {
    var key := SearchKey(query);
    if key == "" {
      FilterEmptyKey(library);
    }
    FilterKeepsOrder(key, library);
    forall s ensures multiset(FilterSongs(key, library))[s] == if SongMatches(key, s) then multiset(library)[s] else 0 {
      FilterCounts(key, library, s);
    }
  }

  /** A song is listed exactly when it is in the library and its name or artist contains the key. */
  lemma SearchMembership(query: string, library: seq<Song>, s: Song)
    ensures s in SongSearch(query, library) <==> s in library && SongMatches(SearchKey(query), s)
  {
    SearchIsFilter(query, library);
    assert s in SongSearch(query, library) <==> multiset(SongSearch(query, library))[s] > 0;
    assert s in library <==> multiset(library)[s] > 0;
  }
}
