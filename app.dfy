/**
 * The event handlers of the room decorator (js/app.js) that edit the room
 * state in place or resolve an index before handing it to a state setter.
 * The setters themselves live in a module this model does not include, so a
 * resolving handler is modelled by what it would hand over (`None`: the setter
 * is not called and nothing changes).
 */
module App {
  import opened Wrappers
  import opened JsString
  import opened Params
  import opened Render

  // ─── Bounds-checked lookups ─────────────────────────────────────────────────

  /** `RADIO_PRESETS[idx]`: the five colours a preset chip hands to setRadioColors. */
  function RadioPresetColors(idx: int): (r: Option<RadioColors>)
    ensures r.Some? <==> 0 <= idx < |RADIO_PRESETS|
    ensures r.Some? ==> r.value == RADIO_PRESETS[idx].Colors()
  {
    if 0 <= idx < |RADIO_PRESETS| then Some(RADIO_PRESETS[idx].Colors()) else None
  }

  /** `SHELF_PRESETS[idx]`: the four colours a shelf preset chip hands to the shelf setters. */
  function ShelfPresetColors(idx: int): (r: Option<ShelfColors>)
    ensures r.Some? <==> 0 <= idx < |SHELF_PRESETS|
    ensures r.Some? ==> r.value == SHELF_PRESETS[idx].Colors()
  {
    if 0 <= idx < |SHELF_PRESETS| then Some(SHELF_PRESETS[idx].Colors()) else None
  }

  /** The first preset chip of each row puts back the colours of a fresh room. */
  lemma FirstPresetsRestoreDefaults()
    ensures RadioPresetColors(0) == Some(GetInitialState().radioColors)
    ensures ShelfPresetColors(0) == Some(ShelfColors(GetInitialState().shelfColor, GetInitialState().shelfInterior,
                                                     GetInitialState().shelfOutline, GetInitialState().shelfPlank))
  {
    DefaultRadioIsClassicRed();
    DefaultShelfIsOak();
  }

  /** What a click on a song of the playlist viewer hands to playSong. */
  datatype PlayRequest = PlayRequest(song: Song, playlistIndex: nat, songIndex: nat)

  /** Play from the viewer only when both the playlist index and the song index resolve. */
  function ViewerPlay(playlists: seq<Playlist>, pi: int, si: int): (r: Option<PlayRequest>)
    ensures r.Some? <==> 0 <= pi < |playlists| && 0 <= si < |playlists[pi].songs|
    ensures r.Some? ==> r.value == PlayRequest(playlists[pi].songs[si], pi, si)
  {
    if 0 <= pi < |playlists| && 0 <= si < |playlists[pi].songs| then
      Some(PlayRequest(playlists[pi].songs[si], pi, si))
    else None
  }

  /** The playlist a spine click opens in the viewer; no viewer for an index without a playlist. */
  function ViewerPlaylist(playlists: seq<Playlist>, pi: int): (r: Option<Playlist>)
    ensures r.Some? <==> 0 <= pi < |playlists|
    ensures r.Some? ==> r.value == playlists[pi]
  {
    if 0 <= pi < |playlists| then Some(playlists[pi]) else None
  }

  /**
   * A spine on the shelf opens the playlist it was drawn for, and every song
   * of that playlist can be played from the viewer with the spine's index.
   */
  lemma SpineOpensItsPlaylist(playlists: seq<Playlist>, k: int)
    requires 0 <= k < |ShelfItems(playlists)| && ShelfItems(playlists)[k].Spine?
    ensures var spine := ShelfItems(playlists)[k];
      && ViewerPlaylist(playlists, spine.index) == Some(playlists[k])
      && playlists[spine.index].id == spine.playlistId
      && forall si :: 0 <= si < |playlists[k].songs| ==>
           ViewerPlay(playlists, spine.index, si) == Some(PlayRequest(playlists[k].songs[si], k, si))
  {
  }

  function SongId(s: Song): string {
    s.id
  }

  /** `SONG_LIBRARY.find(s => s.id === songId)`: the first library song with that id. */
  function LibrarySong(library: seq<Song>, songId: string): (r: Option<Song>)
    ensures r.None? <==> forall i :: 0 <= i < |library| ==> library[i].id != songId
    ensures r.Some? ==> exists i :: 0 <= i < |library| && library[i] == r.value && r.value.id == songId
                                    && forall j :: 0 <= j < i ==> library[j].id != songId
  {
    FindById(library, SongId, songId)
  }

  // ─── Wizard names ───────────────────────────────────────────────────────────

  /**
   * `nameInput?.value.trim() || "New Playlist"`: the trimmed input, or
   * "New Playlist" when there is no input or it trims to nothing.
   */
  function WizardName(input: Option<string>): (name: string)
    ensures name != ""
    ensures input.Some? && !AllWhitespace(input.value) ==> name == Trim(input.value)
    ensures input.None? || AllWhitespace(input.value) ==> name == "New Playlist"
    ensures !IsWhitespace(name[0]) && !IsWhitespace(name[|name| - 1])
  {
    match input
    case None => "New Playlist"
    case Some(v) =>
      TrimEmptyIff(v);
      var typed := Trim(v);
      if typed != "" then typed else "New Playlist"
  }

  // ─── Placed stickers ────────────────────────────────────────────────────────

  /** The first index Array.prototype.splice acts on: a negative index counts from the end. */
  function SpliceStart(len: nat, index: int): (k: nat)
    ensures k <= len
    ensures 0 <= index <= len ==> k == index
    ensures -(len as int) <= index < 0 ==> k == len + index
    ensures index > len ==> k == len
    ensures index < -(len as int) ==> k == 0
  {
    if index < 0 then (if len + index < 0 then 0 else len + index)
    else if index > len then len else index
  }

  /** `splice(index, 1)`: removes the entry at index (normalised as splice does), if there is one. */
  function SpliceOne(s: seq<PlacedSticker>, index: int): (r: seq<PlacedSticker>)
    ensures 0 <= index < |s| ==>
              |r| == |s| - 1
              && (forall k :: 0 <= k < index ==> r[k] == s[k])
              && (forall k :: index <= k < |r| ==> r[k] == s[k + 1])
    ensures index >= |s| ==> r == s
    ensures -|s| <= index < 0 ==> r == s[..|s| + index] + s[|s| + index + 1..]
    ensures s != [] && index < -|s| ==> r == s[1..]
    ensures |r| == if s == [] || index >= |s| then |s| else |s| - 1
  {
    var k := SpliceStart(|s|, index);
    if k < |s| then s[..k] + s[k + 1..] else s
  }

  /** `Math.max(0, v)`. */
  function Max0(v: real): (m: real)
    ensures m >= 0.0 && m >= v
    ensures m == 0.0 || m == v
  {
    if v > 0.0 then v else 0.0
  }

  /**
   * The drop update: the entry at `index` moves to `(max(0, x), max(0, y))`
   * and keeps its id; every other entry, and an out-of-range index, leave the
   * list as it was.
   */
  function MoveSticker(s: seq<PlacedSticker>, index: int, x: real, y: real): (r: seq<PlacedSticker>)
    ensures |r| == |s|
    ensures forall k :: 0 <= k < |s| && k != index ==> r[k] == s[k]
    ensures 0 <= index < |s| ==> r[index] == PlacedSticker(s[index].id, Max0(x), Max0(y))
    ensures 0 <= index < |s| ==> r[index].x >= 0.0 && r[index].y >= 0.0
    ensures !(0 <= index < |s|) ==> r == s
  {
    if 0 <= index < |s| then s[index := PlacedSticker(s[index].id, Max0(x), Max0(y))] else s
  }

  /** Every sticker lies at non-negative coordinates. */
  predicate OnCanvas(s: seq<PlacedSticker>) {
    forall k :: 0 <= k < |s| ==> s[k].x >= 0.0 && s[k].y >= 0.0
  }

  /** Removing and moving stickers keep every sticker on the canvas. */
  lemma EditsKeepOnCanvas(s: seq<PlacedSticker>, index: int, x: real, y: real)
    ensures OnCanvas(s) ==> OnCanvas(SpliceOne(s, index))
    ensures OnCanvas(s) ==> OnCanvas(MoveSticker(s, index, x, y))
  {
    var k := SpliceStart(|s|, index);
    if k < |s| {
      var r := SpliceOne(s, index);
      assert forall j :: 0 <= j < |r| ==> r[j] == (if j < k then s[j] else s[j + 1]);
    }
  }

  /** A playlist being built in the wizard. */
  datatype Draft = Draft(name: string, color: Color, songs: seq<Song>)

  /** The part of the room state the handlers edit in place. */
  class Room {
    var placedStickers: Option<seq<PlacedSticker>>
    var draft: Option<Draft>

    constructor (placedStickers: Option<seq<PlacedSticker>>, draft: Option<Draft>)
      ensures this.placedStickers == placedStickers && this.draft == draft
    {
      this.placedStickers := placedStickers;
      this.draft := draft;
    }

    /** The stickers as the handlers see them: an absent list is an empty one. */
    function Stickers(): (s: seq<PlacedSticker>)
      reads this
      ensures placedStickers.None? ==> s == []
      ensures placedStickers.Some? ==> s == placedStickers.value
    {
      placedStickers.GetOr([])
    }

    /** At boot, an absent sticker list becomes an empty one; a present one is kept. */
    method InitPlacedStickers()
      modifies this`placedStickers
      ensures placedStickers == Some(old(Stickers()))
    {
      if placedStickers.None? {
        placedStickers := Some([]);
      }
    }

    /**
     * A sticker card click: the list is created if absent, then exactly one
     * entry is appended, at a random spot in the upper part of the room.
     * `rx` and `ry` are the two Math.random() draws.
     */
    method AddSticker(stickerId: string, rx: real, ry: real)
      requires 0.0 <= rx < 1.0 && 0.0 <= ry < 1.0
      modifies this`placedStickers
      ensures placedStickers == Some(old(Stickers()) + [PlacedSticker(stickerId, 150.0 + rx * 400.0, 50.0 + ry * 200.0)])
      ensures 150.0 <= Stickers()[|Stickers()| - 1].x < 550.0 && 50.0 <= Stickers()[|Stickers()| - 1].y < 250.0
      ensures old(OnCanvas(Stickers())) ==> OnCanvas(Stickers())
    {
      if placedStickers.None? {
        placedStickers := Some([]);
      }
      var x := 150.0 + rx * 400.0;
      var y := 50.0 + ry * 200.0;
      placedStickers := Some(placedStickers.value + [PlacedSticker(stickerId, x, y)]);
    }

    /** A double click on a sticker: splice(index, 1) on a present list; an absent list stays absent. */
    method RemoveStickerAt(index: int)
      modifies this`placedStickers
      ensures old(placedStickers).None? ==> placedStickers == None
      ensures old(placedStickers).Some? ==> placedStickers == Some(SpliceOne(old(placedStickers).value, index))
      ensures old(OnCanvas(Stickers())) ==> OnCanvas(Stickers())
    {
      if placedStickers.Some? {
        EditsKeepOnCanvas(placedStickers.value, index, 0.0, 0.0);
        placedStickers := Some(SpliceOne(placedStickers.value, index));
      }
    }

    /** The end of a drag: only an existing entry moves, clamped to non-negative coordinates. */
    method DropStickerAt(index: int, x: real, y: real)
      modifies this`placedStickers
      ensures old(placedStickers).None? ==> placedStickers == None
      ensures old(placedStickers).Some? ==> placedStickers == Some(MoveSticker(old(placedStickers).value, index, x, y))
      ensures old(OnCanvas(Stickers())) ==> OnCanvas(Stickers())
    {
      if placedStickers.Some? && 0 <= index < |placedStickers.value| {
        var s := placedStickers.value;
        EditsKeepOnCanvas(s, index, x, y);
        placedStickers := Some(s[index := PlacedSticker(s[index].id, Max0(x), Max0(y))]);
      }
    }

    /** The wizard's "next" on the name step: the draft, if any, takes the resolved name. */
    method NameNext(input: Option<string>) returns (name: string)
      modifies this`draft
      ensures name == WizardName(input)
      ensures old(draft).None? ==> draft == None
      ensures old(draft).Some? ==> draft == Some(old(draft).value.(name := name))
    {
      name := WizardName(input);
      if draft.Some? {
        draft := Some(draft.value.(name := name));
      }
    }

    /** A keystroke in the name field: the draft, if any, takes the typed name. */
    method TypeDraftName(value: string) returns (name: string)
      modifies this`draft
      ensures name == WizardLabel(value)
      ensures old(draft).None? ==> draft == None
      ensures old(draft).Some? ==> draft == Some(old(draft).value.(name := name))
    {
      name := WizardLabel(value);
      if draft.Some? {
        draft := Some(draft.value.(name := name));
      }
    }

    /** A colour swatch click in the wizard: the draft, if any, takes the colour. */
    method PickDraftColor(color: Color)
      modifies this`draft
      ensures old(draft).None? ==> draft == None
      ensures old(draft).Some? ==> draft == Some(old(draft).value.(color := color))
    {
      if draft.Some? {
        draft := Some(draft.value.(color := color));
      }
    }
  }

  /** The module-level drag variables: the sticker being dragged (by its index) and the pointer's offset in it. */
  class StickerDrag {
    var dragging: Option<int>
    var offsetX: real
    var offsetY: real

    constructor ()
      ensures dragging == None && offsetX == 0.0 && offsetY == 0.0
    {
      dragging := None;
      offsetX := 0.0;
      offsetY := 0.0;
    }

    /**
     * pointerdown: on a sticker (`target` is the index it carries) the drag
     * starts and records where in the sticker the pointer is; elsewhere nothing changes.
     */
    method PointerDown(target: Option<int>, clientX: real, clientY: real, rectLeft: real, rectTop: real)
      modifies this
      ensures target.None? ==> dragging == old(dragging) && offsetX == old(offsetX) && offsetY == old(offsetY)
      ensures target.Some? ==> dragging == target && offsetX == clientX - rectLeft && offsetY == clientY - rectTop
    {
      if target.Some? {
        dragging := target;
        offsetX := clientX - rectLeft;
        offsetY := clientY - rectTop;
      }
    }

    /**
     * pointerup: with a drag under way, the dragged sticker is dropped where the
     * pointer is, less the offset, and the drag ends; without one nothing changes.
     */
    method PointerUp(room: Room, clientX: real, clientY: real, canvasLeft: real, canvasTop: real)
      modifies this, room`placedStickers
      ensures old(dragging).None? ==> dragging == None && room.placedStickers == old(room.placedStickers)
      ensures old(dragging).Some? ==> dragging == None
      ensures old(dragging).Some? && old(room.placedStickers).Some? ==>
                room.placedStickers == Some(MoveSticker(old(room.placedStickers).value, old(dragging).value,
                                                        clientX - canvasLeft - old(offsetX),
                                                        clientY - canvasTop - old(offsetY)))
      ensures old(room.placedStickers).None? ==> room.placedStickers == None
      ensures offsetX == old(offsetX) && offsetY == old(offsetY)
    {
      if dragging.Some? {
        var x := clientX - canvasLeft - offsetX;
        var y := clientY - canvasTop - offsetY;
        room.DropStickerAt(dragging.value, x, y);
        dragging := None;
      }
    }
  }
}
