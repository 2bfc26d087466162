/**
 * The fixed catalogues, the default room state and the page whitelist of the
 * room decorator (js/params.js).
 */
module Params {
  import opened Wrappers
  import opened Json

  type Color = string

  // ─── Catalogue entries ──────────────────────────────────────────────────────

  datatype RadioColors = RadioColors(body: Color, speaker: Color, handle: Color, buttons: Color, detail: Color)

  datatype RadioPreset = RadioPreset(name: string, body: Color, speaker: Color, handle: Color, buttons: Color, detail: Color)
  {
    /** The five colour slots a preset sets on the radio. */
    function Colors(): RadioColors {
      RadioColors(body, speaker, handle, buttons, detail)
    }
  }

  datatype ShelfColors = ShelfColors(wood: Color, interior: Color, outline: Color, plank: Color)

  datatype ShelfPreset = ShelfPreset(name: string, wood: Color, interior: Color, outline: Color, plank: Color)
  {
    /** The four shelf colours a preset sets. */
    function Colors(): ShelfColors {
      ShelfColors(wood, interior, outline, plank)
    }
  }

  /** A shelf object of the catalogue; the field `svg` holds an emoji, as in the source. */
  datatype ShelfObject = ShelfObject(id: string, svg: string, caption: string, size: string)

  datatype StickerDef = StickerDef(id: string, emoji: string, caption: string)

  // ─── Room state ─────────────────────────────────────────────────────────────

  datatype Song = Song(id: string, name: string, artist: string, color: Color)

  datatype Playlist = Playlist(id: string, name: string, color: Color, songs: seq<Song>)

  datatype Profile = Profile(name: string, genre: string, bio: string, photo: Option<string>, frame: int)

  /** A sticker placed on the room, at a pixel position. */
  datatype PlacedSticker = PlacedSticker(id: string, x: real, y: real)

  datatype RoomState = RoomState(
    page: string,
    bgColor: Color,
    bgImage: Option<string>,
    playlists: seq<Playlist>,
    activePlaylist: Option<string>,
    profile: Profile,
    radioColors: RadioColors,
    shelfColor: Color,
    shelfInterior: Color,
    shelfOutline: Color,
    shelfPlank: Color,
    profileStickers: seq<string>,
    placedStickers: seq<PlacedSticker>,
    posterImage: Option<string>,
    shelfObjects: seq<string>)

  // ─── Catalogues ─────────────────────────────────────────────────────────────

  const SWATCH_COLORS: seq<Color> := [
    "#f4a0a0", "#8b2020", "#4caf50", "#b2f0e8", "#c0524e",
    "#7c5cad", "#f4c842", "#f4872a", "#4a90d9", "#aaaaaa",
    "#d4a0d4", "#3a7a3a", "#f08080", "#5c5c8a", "#e8d5a3",
    "#2e8b8b", "#a0c4f4", "#c4a0f4"]

  const BG_COLORS: seq<Color> := [
    "#c8e8ed", "#f4a0a0", "#b2e8b2", "#f4e8a0", "#c8b2f0",
    "#f4c8a0", "#a0c8f4", "#f4a0d4", "#aaaaaa", "#d4c8b2",
    "#8b2020", "#4caf50", "#2e6b9e", "#7c5cad", "#c0524e",
    "#b5813b", "#3a7a3a", "#f08080"]

  const FRAME_IMAGES: seq<string> := [
    "Group 27.png",
    "image-removebg-preview (1) 1.png",
    "image-removebg-preview (2) 1.png",
    "image-removebg-preview 1.png",
    "image_2026-02-12_132945066-removebg-preview 1.png",
    "image_2026-02-12_133121176-removebg-preview 1.png"]

  const RADIO_PRESETS: seq<RadioPreset> := [
    RadioPreset("Classic Red", "#e74c3c", "#2c3e50", "#7f8c8d", "#f39c12", "#ecf0f1"),
    RadioPreset("Ocean Blue", "#2980b9", "#1a252f", "#95a5a6", "#e67e22", "#ecf0f1"),
    RadioPreset("Purple Haze", "#8e44ad", "#2c2c54", "#a0a0a0", "#e74c3c", "#f5f5f5"),
    RadioPreset("Mint Fresh", "#1abc9c", "#2d3436", "#b2bec3", "#fdcb6e", "#ffffff"),
    RadioPreset("Sunset", "#e67e22", "#34495e", "#bdc3c7", "#c0392b", "#fef9ef"),
    RadioPreset("Midnight", "#2c3e50", "#1a1a2e", "#636e72", "#00cec9", "#dfe6e9"),
    RadioPreset("Bubblegum", "#fd79a8", "#6c5ce7", "#b2bec3", "#fdcb6e", "#ffffff"),
    RadioPreset("Forest", "#27ae60", "#2d3436", "#6c5ce7", "#f39c12", "#dfe6e9")]

  const SHELF_PRESETS: seq<ShelfPreset> := [
    ShelfPreset("Oak", "#b5813b", "#c9a96e", "#8a5e22", "#8a5e22"),
    ShelfPreset("Walnut", "#5c3d2e", "#7a5a47", "#3e2a1e", "#4a3428"),
    ShelfPreset("White", "#e8e0d4", "#f5f0e8", "#c8bfb0", "#d5cdc0"),
    ShelfPreset("Cherry", "#8b3a3a", "#a85555", "#6b2222", "#7a3030"),
    ShelfPreset("Ebony", "#2c2c2c", "#3d3d3d", "#1a1a1a", "#252525"),
    ShelfPreset("Pine", "#d4a85c", "#e5c888", "#b08430", "#c09540"),
    ShelfPreset("Bamboo", "#c8b560", "#ddd08a", "#a8953a", "#b8a550"),
    ShelfPreset("Rose", "#9e6b6b", "#b88888", "#7a4e4e", "#8a5e5e")]

  const SHELF_OBJECTS: seq<ShelfObject> := [
    ShelfObject("plant", "🪴", "Plant", "3.5rem"),
    ShelfObject("lamp", "🛋️", "Lamp", "3.5rem"),
    ShelfObject("books", "📚", "Books", "3rem"),
    ShelfObject("coffee", "☕", "Coffee", "3rem"),
    ShelfObject("globe", "🌍", "Globe", "3rem"),
    ShelfObject("teddy", "🧸", "Teddy", "3.5rem"),
    ShelfObject("candle", "🕯️", "Candle", "3rem"),
    ShelfObject("clock", "🕰️", "Clock", "3rem"),
    ShelfObject("camera", "📷", "Camera", "3rem"),
    ShelfObject("trophy", "🏆", "Trophy", "3rem"),
    ShelfObject("vinyl", "💿", "Vinyl", "3rem"),
    ShelfObject("headphones", "🎧", "Headphones", "3rem")]

  const PROFILE_STICKERS: seq<StickerDef> := [
    StickerDef("star", "⭐", "Star"),
    StickerDef("heart", "❤️", "Heart"),
    StickerDef("fire", "🔥", "Fire"),
    StickerDef("rainbow", "🌈", "Rainbow"),
    StickerDef("music", "🎵", "Music"),
    StickerDef("butterfly", "🦋", "Butterfly"),
    StickerDef("sparkles", "✨", "Sparkles"),
    StickerDef("flower", "🌸", "Flower"),
    StickerDef("lightning", "⚡", "Lightning"),
    StickerDef("peace", "✌️", "Peace"),
    StickerDef("smiley", "😎", "Cool"),
    StickerDef("alien", "👽", "Alien")]

  // ─── Defaults ───────────────────────────────────────────────────────────────

  const DEFAULT_RADIO_COLORS: RadioColors := RadioColors("#e74c3c", "#2c3e50", "#7f8c8d", "#f39c12", "#ecf0f1")

  const DEFAULT_PLAYLIST: Playlist := Playlist("default", "Playlist #1", "#f4a0a0", [])

  const DEFAULT_STATE: RoomState := RoomState(
    page := "room",
    bgColor := "#c8e8ed",
    bgImage := None,
    playlists := [DEFAULT_PLAYLIST],
    activePlaylist := None,
    profile := Profile("", "", "", None, 0),
    radioColors := DEFAULT_RADIO_COLORS,
    shelfColor := "#b5813b",
    shelfInterior := "#c9a96e",
    shelfOutline := "#8a5e22",
    shelfPlank := "#8a5e22",
    profileStickers := [],
    placedStickers := [],
    posterImage := None,
    shelfObjects := [])

  const PAGES: seq<string> := [
    "room", "playlist-name", "playlist-color", "playlist-songs",
    "bg-picker", "radio-picker", "frame-picker", "shelf-picker"]

  // ─── Page whitelist ─────────────────────────────────────────────────────────

  /** A known page is kept as it is; anything else falls back to the room. */
  function SanitizePage(page: string): (r: string)
    ensures r in PAGES
    ensures page in PAGES ==> r == page
    ensures page !in PAGES ==> r == "room"
  {
    if page in PAGES then page else "room"
  }

  /** Sanitising a page twice gives what sanitising it once gives. */
  lemma SanitizePageIdempotent(page: string)
    ensures SanitizePage(SanitizePage(page)) == SanitizePage(page)
  {
  }

  // ─── Catalogue lookups ──────────────────────────────────────────────────────

  /** Ids are pairwise distinct, so a lookup by id can find at most one entry. */
  ghost predicate DistinctStickerIds(defs: seq<StickerDef>) {
    forall i, j :: 0 <= i < j < |defs| ==> defs[i].id != defs[j].id
  }

  ghost predicate DistinctShelfObjectIds(objs: seq<ShelfObject>) {
    forall i, j :: 0 <= i < j < |objs| ==> objs[i].id != objs[j].id
  }

  ghost predicate DistinctColors(colors: seq<Color>) {
    forall i, j :: 0 <= i < j < |colors| ==> colors[i] != colors[j]
  }

  /** Array.prototype.find by id: the first element of `xs` whose id (as `idOf` reads it) is `id`, if any. */
  function FindById<T>(xs: seq<T>, idOf: T -> string, id: string): (r: Option<T>)
    ensures r.None? <==> forall i :: 0 <= i < |xs| ==> idOf(xs[i]) != id
    ensures r.Some? ==> exists i :: 0 <= i < |xs| && xs[i] == r.value && idOf(r.value) == id
                                    && forall j :: 0 <= j < i ==> idOf(xs[j]) != id
  {
    if xs == [] then None
    else if idOf(xs[0]) == id then Some(xs[0])
    else
      var r := FindById(xs[1..], idOf, id);
      assert r.Some? ==> exists i :: 0 <= i < |xs[1..]| && xs[1..][i] == r.value && idOf(r.value) == id
                                     && forall j :: 0 <= j < i ==> idOf(xs[1..][j]) != id;
      r
  }

  function StickerId(d: StickerDef): string {
    d.id
  }

  /** `defs.find(s => s.id === id)`. */
  function FindStickerIn(defs: seq<StickerDef>, id: string): (r: Option<StickerDef>)
    ensures r.None? <==> forall i :: 0 <= i < |defs| ==> defs[i].id != id
    ensures r.Some? ==> exists i :: 0 <= i < |defs| && defs[i] == r.value && r.value.id == id
                                    && forall j :: 0 <= j < i ==> defs[j].id != id
  {
    FindById(defs, StickerId, id)
  }

  /** The catalogue sticker with the given id. */
  function FindSticker(id: string): (r: Option<StickerDef>)
    ensures r.Some? <==> exists i :: 0 <= i < |PROFILE_STICKERS| && PROFILE_STICKERS[i].id == id
    ensures r.Some? ==> r.value in PROFILE_STICKERS && r.value.id == id
  {
    FindStickerIn(PROFILE_STICKERS, id)
  }

  /** With distinct ids, looking up the id of any entry finds that very entry. */
  lemma FindStickerInDistinct(defs: seq<StickerDef>, i: int)
    requires DistinctStickerIds(defs)
    requires 0 <= i < |defs|
    ensures FindStickerIn(defs, defs[i].id) == Some(defs[i])
  {
    var r := FindStickerIn(defs, defs[i].id);
    var k :| 0 <= k < |defs| && defs[k] == r.value && r.value.id == defs[i].id
              && forall j :: 0 <= j < k ==> defs[j].id != defs[i].id;
    assert k == i;
  }

  // ─── Consistency of the catalogues and the defaults ─────────────────────────

  lemma StickerIdsDistinct()
    ensures DistinctStickerIds(PROFILE_STICKERS)
  {
  }

  lemma ShelfObjectIdsDistinct()
    ensures DistinctShelfObjectIds(SHELF_OBJECTS)
  {
  }

  /** Every catalogue sticker is found by its own id. */
  lemma FindStickerCatalogue(i: int)
    requires 0 <= i < |PROFILE_STICKERS|
    ensures FindSticker(PROFILE_STICKERS[i].id) == Some(PROFILE_STICKERS[i])
  {
    StickerIdsDistinct();
    FindStickerInDistinct(PROFILE_STICKERS, i);
  }

  lemma PalettesDistinct()
    ensures DistinctColors(SWATCH_COLORS)
    ensures DistinctColors(BG_COLORS)
  {
  }

  /** The default room has one playlist, the default one, and it has no songs. */
  lemma DefaultPlaylistSingle()
    ensures |DEFAULT_STATE.playlists| == 1
    ensures DEFAULT_STATE.playlists[0] == DEFAULT_PLAYLIST
    ensures DEFAULT_STATE.playlists[0].songs == []
  {
  }

  /** The default frame is an index into the frame catalogue. */
  lemma DefaultFrameInRange()
    ensures 0 <= DEFAULT_STATE.profile.frame < |FRAME_IMAGES|
  {
  }

  /** The default radio colours are those of the "Classic Red" preset. */
  lemma DefaultRadioIsClassicRed()
    ensures RADIO_PRESETS[0].name == "Classic Red"
    ensures RADIO_PRESETS[0].Colors() == DEFAULT_RADIO_COLORS == DEFAULT_STATE.radioColors
  {
  }

  /** The default shelf colours are those of the "Oak" preset. */
  lemma DefaultShelfIsOak()
    ensures SHELF_PRESETS[0].name == "Oak"
    ensures SHELF_PRESETS[0].Colors()
         == ShelfColors(DEFAULT_STATE.shelfColor, DEFAULT_STATE.shelfInterior,
                        DEFAULT_STATE.shelfOutline, DEFAULT_STATE.shelfPlank)
  {
  }

  /** The default page is a known page, and the default colours are on their palettes. */
  lemma DefaultsOnPalettes()
    ensures DEFAULT_STATE.page in PAGES
    ensures DEFAULT_STATE.bgColor in BG_COLORS
    ensures DEFAULT_PLAYLIST.color in SWATCH_COLORS
  {
  }

  // ─── getInitialState: a JSON round trip of the default state ───────────────

  function SongJ(s: Song): Json {
    JObject(map["id" := JString(s.id), "name" := JString(s.name),
                "artist" := JString(s.artist), "color" := JString(s.color)])
  }

  function SongOf(j: Json): Option<Song> {
    var id :- StringMember(j, "id");
    var name :- StringMember(j, "name");
    var artist :- StringMember(j, "artist");
    var color :- StringMember(j, "color");
    Some(Song(id, name, artist, color))
  }

  function PlaylistJ(p: Playlist): Json {
    JObject(map["id" := JString(p.id), "name" := JString(p.name),
                "color" := JString(p.color), "songs" := JArray(ArrayJ(p.songs, SongJ))])
  }

  function PlaylistOf(j: Json): Option<Playlist> {
    var id :- StringMember(j, "id");
    var name :- StringMember(j, "name");
    var color :- StringMember(j, "color");
    var songs :- Member(j, "songs");
    if !songs.JArray? then None
    else
      var ss :- ArrayOf(songs.items, SongOf);
      Some(Playlist(id, name, color, ss))
  }

  function ProfileJ(p: Profile): Json {
    JObject(map["name" := JString(p.name), "genre" := JString(p.genre), "bio" := JString(p.bio),
                "photo" := NullJ(p.photo), "frame" := JNumber(p.frame as real)])
  }

  function ProfileOf(j: Json): Option<Profile> {
    var name :- StringMember(j, "name");
    var genre :- StringMember(j, "genre");
    var bio :- StringMember(j, "bio");
    var photo :- NullableMember(j, "photo");
    var frame :- IntMember(j, "frame");
    Some(Profile(name, genre, bio, photo, frame))
  }

  function RadioColorsJ(c: RadioColors): Json {
    JObject(map["body" := JString(c.body), "speaker" := JString(c.speaker), "handle" := JString(c.handle),
                "buttons" := JString(c.buttons), "detail" := JString(c.detail)])
  }

  function RadioColorsOf(j: Json): Option<RadioColors> {
    var body :- StringMember(j, "body");
    var speaker :- StringMember(j, "speaker");
    var handle :- StringMember(j, "handle");
    var buttons :- StringMember(j, "buttons");
    var detail :- StringMember(j, "detail");
    Some(RadioColors(body, speaker, handle, buttons, detail))
  }

  function StickerJ(p: PlacedSticker): Json {
    JObject(map["id" := JString(p.id), "x" := JNumber(p.x), "y" := JNumber(p.y)])
  }

  function StickerOf(j: Json): Option<PlacedSticker> {
    var id :- StringMember(j, "id");
    var x :- RealMember(j, "x");
    var y :- RealMember(j, "y");
    Some(PlacedSticker(id, x, y))
  }

  /**
   * The members a room state's JSON object carries, one per field of the state.
   * js/params.js has no such grouping: the split into three sets, and the
   * readers and lemmas that follow it, keep each proof within the solver's budget.
   */
  const HEAD_KEYS: set<string> := {"page", "bgColor", "bgImage", "playlists", "activePlaylist"}
  const LOOK_KEYS: set<string> := {"profile", "radioColors", "shelfColor", "shelfInterior", "shelfOutline", "shelfPlank"}
  const DECOR_KEYS: set<string> := {"profileStickers", "placedStickers", "posterImage", "shelfObjects"}

  /** The JSON tree JSON.stringify writes for a room state: an object with one member per field. */
  function RoomJson(s: RoomState): Json {
    JObject(map[
      "page" := JString(s.page),
      "bgColor" := JString(s.bgColor),
      "bgImage" := NullJ(s.bgImage),
      "playlists" := JArray(ArrayJ(s.playlists, PlaylistJ)),
      "activePlaylist" := NullJ(s.activePlaylist),
      "profile" := ProfileJ(s.profile),
      "radioColors" := RadioColorsJ(s.radioColors),
      "shelfColor" := JString(s.shelfColor),
      "shelfInterior" := JString(s.shelfInterior),
      "shelfOutline" := JString(s.shelfOutline),
      "shelfPlank" := JString(s.shelfPlank),
      "profileStickers" := JArray(ArrayJ(s.profileStickers, StringJ)),
      "placedStickers" := JArray(ArrayJ(s.placedStickers, StickerJ)),
      "posterImage" := NullJ(s.posterImage),
      "shelfObjects" := JArray(ArrayJ(s.shelfObjects, StringJ))])
  }

  /** Page, background and playlists, read back from a room's JSON tree. */
  function RoomHeadOf(j: Json): (r: Option<(string, Color, Option<string>, seq<Playlist>, Option<string>)>)
    ensures r.Some? ==> j.JObject? && HEAD_KEYS <= j.members.Keys
    ensures r.Some? ==> StringMember(j, "page") == Some(r.value.0) && StringMember(j, "bgColor") == Some(r.value.1)
  {
    var page :- StringMember(j, "page");
    var bgColor :- StringMember(j, "bgColor");
    var bgImage :- NullableMember(j, "bgImage");
    var playlists :- Member(j, "playlists");
    var pls :- if playlists.JArray? then ArrayOf(playlists.items, PlaylistOf) else None;
    var activePlaylist :- NullableMember(j, "activePlaylist");
    Some((page, bgColor, bgImage, pls, activePlaylist))
  }

  /** Profile, radio and shelf colours, read back from a room's JSON tree. */
  function RoomLookOf(j: Json): (r: Option<(Profile, RadioColors, ShelfColors)>)
    ensures r.Some? ==> j.JObject? && LOOK_KEYS <= j.members.Keys
  {
    var profile :- Member(j, "profile");
    var prof :- ProfileOf(profile);
    var radio :- Member(j, "radioColors");
    var radioColors :- RadioColorsOf(radio);
    var shelfColor :- StringMember(j, "shelfColor");
    var shelfInterior :- StringMember(j, "shelfInterior");
    var shelfOutline :- StringMember(j, "shelfOutline");
    var shelfPlank :- StringMember(j, "shelfPlank");
    Some((prof, radioColors, ShelfColors(shelfColor, shelfInterior, shelfOutline, shelfPlank)))
  }

  /** Stickers, poster and shelf objects, read back from a room's JSON tree. */
  function RoomDecorOf(j: Json): (r: Option<(seq<string>, seq<PlacedSticker>, Option<string>, seq<string>)>)
    ensures r.Some? ==> j.JObject? && DECOR_KEYS <= j.members.Keys
  {
    var profileStickers :- StringListMember(j, "profileStickers");
    var placed :- Member(j, "placedStickers");
    var placedStickers :- if placed.JArray? then ArrayOf(placed.items, StickerOf) else None;
    var posterImage :- NullableMember(j, "posterImage");
    var shelfObjects :- StringListMember(j, "shelfObjects");
    Some((profileStickers, placedStickers, posterImage, shelfObjects))
  }

  /** The room state JSON.parse rebuilds from a JSON tree, `None` when a field is missing or mistyped. */
  function RoomOf(j: Json): (r: Option<RoomState>)
    ensures r.Some? ==> j.JObject? && HEAD_KEYS + LOOK_KEYS + DECOR_KEYS <= j.members.Keys
    ensures r.Some? ==> StringMember(j, "page") == Some(r.value.page) && StringMember(j, "bgColor") == Some(r.value.bgColor)
  {
    var head :- RoomHeadOf(j);
    var look :- RoomLookOf(j);
    var decor :- RoomDecorOf(j);
    Some(RoomState(head.0, head.1, head.2, head.3, head.4, look.0, look.1,
                   look.2.wood, look.2.interior, look.2.outline, look.2.plank,
                   decor.0, decor.1, decor.2, decor.3))
  }

  lemma PlaylistRoundTrip(p: Playlist)
    ensures PlaylistOf(PlaylistJ(p)) == Some(p)
  {
    ArrayRoundTrip(p.songs, SongJ, SongOf);
  }

  lemma ProfileRoundTrip(p: Profile)
    ensures ProfileOf(ProfileJ(p)) == Some(p)
  {
    var j := ProfileJ(p);
    StringMemberOf(j, "name", p.name);
    StringMemberOf(j, "genre", p.genre);
    StringMemberOf(j, "bio", p.bio);
    NullableMemberOf(j, "photo", p.photo);
  }

  lemma RadioColorsRoundTrip(c: RadioColors)
    ensures RadioColorsOf(RadioColorsJ(c)) == Some(c)
  {
  }

  /** The object written for a room state carries exactly one member per field. */
  lemma RoomJsonMembers(s: RoomState)
    ensures RoomJson(s).JObject? && RoomJson(s).members.Keys == HEAD_KEYS + LOOK_KEYS + DECOR_KEYS
  {
  }

  /** Every room state survives a JSON round trip field for field. */
  lemma RoomRoundTrip(s: RoomState)
    ensures RoomOf(RoomJson(s)) == Some(s)
  {
    RoomHeadRoundTrip(s);
    RoomLookRoundTrip(s);
    RoomDecorRoundTrip(s);
  }

  lemma RoomHeadRoundTrip(s: RoomState)
    ensures RoomHeadOf(RoomJson(s)) == Some((s.page, s.bgColor, s.bgImage, s.playlists, s.activePlaylist))
  {
    var j := RoomJson(s);
    RoomJsonPageMembers(s);
    RoomJsonPlaylistMembers(s);
    StringMemberOf(j, "page", s.page);
    StringMemberOf(j, "bgColor", s.bgColor);
    NullableMemberOf(j, "bgImage", s.bgImage);
    forall i | 0 <= i < |s.playlists| ensures PlaylistOf(PlaylistJ(s.playlists[i])) == Some(s.playlists[i]) {
      PlaylistRoundTrip(s.playlists[i]);
    }
    ArrayRoundTrip(s.playlists, PlaylistJ, PlaylistOf);
    NullableMemberOf(j, "activePlaylist", s.activePlaylist);
  }

  lemma RoomLookRoundTrip(s: RoomState)
    ensures RoomLookOf(RoomJson(s))
         == Some((s.profile, s.radioColors, ShelfColors(s.shelfColor, s.shelfInterior, s.shelfOutline, s.shelfPlank)))
  {
    var j := RoomJson(s);
    RoomJsonProfileRadioMembers(s);
    RoomJsonShelfColorMembers(s);
    ProfileRoundTrip(s.profile);
    RadioColorsRoundTrip(s.radioColors);
    StringMemberOf(j, "shelfColor", s.shelfColor);
    StringMemberOf(j, "shelfInterior", s.shelfInterior);
    StringMemberOf(j, "shelfOutline", s.shelfOutline);
    StringMemberOf(j, "shelfPlank", s.shelfPlank);
  }

  lemma RoomDecorRoundTrip(s: RoomState)
    ensures RoomDecorOf(RoomJson(s)) == Some((s.profileStickers, s.placedStickers, s.posterImage, s.shelfObjects))
  {
    var j := RoomJson(s);
    RoomJsonDecorMembers(s);
    StringListMemberOf(j, "profileStickers", s.profileStickers);
    ArrayRoundTrip(s.placedStickers, StickerJ, StickerOf);
    NullableMemberOf(j, "posterImage", s.posterImage);
    StringListMemberOf(j, "shelfObjects", s.shelfObjects);
  }

  /** What `RoomJson` writes for the page, background colour and background image members. */
  lemma RoomJsonPageMembers(s: RoomState)
    ensures var j := RoomJson(s);
      && Member(j, "page") == Some(JString(s.page))
      && Member(j, "bgColor") == Some(JString(s.bgColor))
      && Member(j, "bgImage") == Some(NullJ(s.bgImage))
  {
  }

  /** What `RoomJson` writes for the playlists and active playlist members. */
  lemma RoomJsonPlaylistMembers(s: RoomState)
    ensures var j := RoomJson(s);
      && Member(j, "playlists") == Some(JArray(ArrayJ(s.playlists, PlaylistJ)))
      && Member(j, "activePlaylist") == Some(NullJ(s.activePlaylist))
  {
  }

  /** What `RoomJson` writes for the profile and radio colour members. */
  lemma RoomJsonProfileRadioMembers(s: RoomState)
    ensures var j := RoomJson(s);
      && Member(j, "profile") == Some(ProfileJ(s.profile))
      && Member(j, "radioColors") == Some(RadioColorsJ(s.radioColors))
  {
  }

  /** What `RoomJson` writes for the four shelf colour members. */
  lemma RoomJsonShelfColorMembers(s: RoomState)
    ensures var j := RoomJson(s);
      && Member(j, "shelfColor") == Some(JString(s.shelfColor))
      && Member(j, "shelfInterior") == Some(JString(s.shelfInterior))
      && Member(j, "shelfOutline") == Some(JString(s.shelfOutline))
      && Member(j, "shelfPlank") == Some(JString(s.shelfPlank))
  {
  }

  /** What `RoomJson` writes for the sticker, poster and shelf object members. */
  lemma RoomJsonDecorMembers(s: RoomState)
    ensures var j := RoomJson(s);
      && Member(j, "profileStickers") == Some(JArray(ArrayJ(s.profileStickers, StringJ)))
      && Member(j, "placedStickers") == Some(JArray(ArrayJ(s.placedStickers, StickerJ)))
      && Member(j, "posterImage") == Some(NullJ(s.posterImage))
      && Member(j, "shelfObjects") == Some(JArray(ArrayJ(s.shelfObjects, StringJ)))
  {
  }

  /** A fresh default state: the default state copied through JSON, equal to it in every field. */
  function GetInitialState(): (s: RoomState)
    ensures s == DEFAULT_STATE
    ensures |s.playlists| == 1 && s.playlists[0] == DEFAULT_PLAYLIST
    ensures s.placedStickers == [] && s.shelfObjects == [] && s.page in PAGES
  {
    RoomRoundTrip(DEFAULT_STATE);
    RoomOf(RoomJson(DEFAULT_STATE)).value
  }
}
