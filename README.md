# Room decorator: catalogues, render rules and sticker edits

This project is a Dafny model of the rule-bearing core of a browser "room
decorator". In the app, a user decorates a virtual room: a background colour,
a shelf of playlists, a radio, a profile board with a frame, and stickers
dragged around the room. The model covers three source files:

- `js/params.js`: the fixed catalogues (palettes, frames, radio and shelf
  presets, shelf objects, stickers) and the default room state with its
  JSON deep copy `getInitialState`. It also covers the page whitelist
  `sanitizePage`. These become constants, datatypes (`RoomState`, `Playlist`,
  `Song`, ...) and pure functions in module `Params`.
- `js/render.js`: the selection rules inside the renderer, lifted out of the
  DOM calls in module `Render`. These are the song search filter
  (trim, lower-case, substring match, library order), the frame fallback, the
  profile placeholders, sticker resolution against the catalogue, swatch
  selection and shelf spine order. The `forEach` passes that build nodes one
  by one are methods with loops. They return the sequence of nodes built.
- `js/app.js`: the event handlers that edit the room state in place, in
  module `App`. The class `App.Room` holds `placedStickers` and the wizard draft.
  Its methods add, remove (JavaScript `splice`) and drop
  stickers and name or colour the draft. Field-level `modifies` clauses say
  what else stays unchanged. The class `App.StickerDrag` holds the
  module-level drag variables. The bounds-checked lookups that feed preset,
  viewer and song setters are pure functions. They return `None` when the
  handler does nothing.

Supporting modules model the JavaScript built-ins the core relies on.
`JsString` covers `trim`, `toLowerCase` and `includes`. `Json` covers the
value tree that `JSON.stringify`/`JSON.parse` carry. `Wrappers` holds
`Option` (for `undefined`/`null`).

The catalogue field `label` is called `caption` here, because `label` is a
Dafny keyword.

The room state's `shelfObjects` is an ordered array, and the model keeps it
as a sequence. Nothing in js/params.js, js/render.js or js/app.js keeps the
playlist list non-empty, so the model does not assume it.

## Model

| member | source | states |
|---|---|---|
| `JsString.SkipLeading` | js/render.js:307 | the scan stops at the first non-whitespace character at or after its start, or at the end, and skips only whitespace |
| `JsString.SkipTrailing` | js/render.js:307 | the scan stops just past the last non-whitespace character before its end, and skips only whitespace |
| `JsString.Trim` | js/render.js:307 | the trimmed string is the slice of the input between a whitespace prefix and a whitespace suffix, and has no whitespace at either end |
| `JsString.TrimEmptyIff` | js/render.js:307-308 | the query trims to the empty string exactly when it is empty or all whitespace (both directions) |
| `JsString.TrimKeepsTrimmed` | js/render.js:307 | trimming leaves a string without edge whitespace unchanged |
| `JsString.IsWhitespace` | js/render.js:307 | the code points `trim` strips: the ECMAScript WhiteSpace and LineTerminator set (tab to carriage return, space, U+00A0, U+1680, U+2000-U+200A, U+2028, U+2029, U+202F, U+205F, U+3000, U+FEFF) |
| `JsString.LowerChar` | js/render.js:311-312 | a capital is mapped to its small letter 32 code points up, which is no longer a capital; any other character is unchanged |
| `JsString.ToLower` | js/render.js:307 | lower-casing keeps the length and maps every code point through the case mapping |
| `JsString.ToLowerSpec` | js/render.js:311-312 | after lower-casing no capital remains, other characters are untouched, and lower-casing again changes nothing |
| `JsString.Includes` | js/render.js:311-312 | `includes` is true exactly when the needle occurs at some position of the haystack |
| `JsString.IncludesEmpty` | js/render.js:308-314 | every string includes the empty string, so the empty-query branch agrees with filtering |
| `Params.SanitizePage` | js/params.js:129-131 | the result is always a known page; a known page is returned unchanged and any other input gives "room" |
| `Params.SanitizePageIdempotent` | js/params.js:124-131 | sanitising an already sanitised page changes nothing |
| `Params.FindById` | js/render.js:135 | `find` by id returns None exactly when no element has the id, else the first element with that id |
| `Params.FindStickerIn` | js/render.js:135 | a sticker lookup by id returns None exactly when no entry has the id, else the first entry with that id |
| `Params.FindSticker` | js/render.js:135 | a sticker id resolves exactly when some catalogue sticker has it, and then to a catalogue entry with that id |
| `Params.FindStickerInDistinct` | js/params.js:68-81 | in a catalogue with distinct ids, looking up an entry's id finds that very entry |
| `Params.FindStickerCatalogue` | js/params.js:68-81 | every catalogue sticker is found by its own id, so sticker lookup is unambiguous |
| `Params.StickerIdsDistinct` | js/params.js:68-81 | the sticker ids are pairwise distinct |
| `Params.ShelfObjectIdsDistinct` | js/params.js:52-65 | the shelf-object ids are pairwise distinct |
| `Params.PalettesDistinct` | js/params.js:2-15 | neither the playlist palette nor the background palette repeats a colour |
| `Params.DefaultPlaylistSingle` | js/params.js:91-102 | the default state has exactly one playlist, equal to the default playlist, with no songs |
| `Params.DefaultFrameInRange` | js/params.js:104 | the default frame index 0 is an index into the frame catalogue |
| `Params.DefaultRadioIsClassicRed` | js/params.js:83-89 | the default radio colours are the five slots of the first preset, "Classic Red" (line 29) |
| `Params.DefaultShelfIsOak` | js/params.js:107-110 | the default shelf wood, interior, outline and plank colours are those of the "Oak" preset (line 41) |
| `Params.DefaultsOnPalettes` | js/params.js:98-100 | the default page is a known page and the default background and playlist colours are on their palettes |
| `Params.ProfileRoundTrip` | js/params.js:119-122 | a profile, with its nullable photo and integer frame, survives a JSON round trip |
| `Params.RadioColorsRoundTrip` | js/params.js:119-122 | the five radio colour slots survive a JSON round trip |
| `Params.PlaylistRoundTrip` | js/params.js:119-122 | a playlist with its songs survives a JSON round trip |
| `Json.ArrayJ` | js/params.js:121 | JSON.stringify writes an array as one item per element, in order, each written by the element encoder |
| `Json.ArrayOf` | js/params.js:121 | the typed reader of a parsed array: it reads the array back only when every item reads, and then item by item, in order and with the same length |
| `Json.ArrayRoundTrip` | js/params.js:121 | an array whose elements each read back survives the round trip whole and in order |
| `Params.RoomJson` | js/params.js:121 | the tree JSON.stringify writes for a room state; its meaning is stated by `Params.RoomJsonMembers` and `Params.RoomRoundTrip` |
| `Params.RoomJsonMembers` | js/params.js:98-117 | the object written for a room state has exactly one member per field of the state, under the field's name |
| `Params.SongJ` | js/params.js:121 | JSON.stringify writes a song as an object with string members id, name, artist and color |
| `Params.SongOf` | js/params.js:121 | the model's typed reader of the parsed tree: it rebuilds a song from those four string members, so it succeeds on every tree `SongJ` writes; on other trees, which JSON.parse would accept as they are, it gives None |
| `Params.PlaylistJ` | js/params.js:121 | a playlist is written as an object with its id, name and color and the array of its songs |
| `Params.PlaylistOf` | js/params.js:121 | the model's typed reader of the parsed tree: it rebuilds a playlist from those members and its songs element by element, so it succeeds on every tree `PlaylistJ` writes; on other trees, which JSON.parse would accept as they are, it gives None |
| `Params.ProfileJ` | js/params.js:121 | a profile is written with its name, genre and bio strings, its photo as a string or null, and its frame number |
| `Params.ProfileOf` | js/params.js:121 | a profile is rebuilt from those members; a null photo reads back as no photo |
| `Params.RadioColorsJ` | js/params.js:121 | the five radio colours are written as string members |
| `Params.RadioColorsOf` | js/params.js:121 | the five radio colours are read back from their string members |
| `Params.StickerJ` | js/params.js:121 | a placed sticker is written as its id and its x and y numbers |
| `Params.StickerOf` | js/params.js:121 | a placed sticker is rebuilt from its id string and its x and y numbers |
| `Params.RoomHeadOf` | js/params.js:121 | page, background colour, background image, playlists and active playlist are read only from an object holding all five members, and page and background colour are the strings it holds |
| `Params.RoomLookOf` | js/params.js:121 | profile, radio colours and the four shelf colours are read only from an object holding all six members |
| `Params.RoomDecorOf` | js/params.js:121 | profile stickers, placed stickers, poster image and shelf objects are read only from an object holding all four members |
| `Params.RoomOf` | js/params.js:121 | a room state is rebuilt only from an object holding a member for every field, and its page and background colour are the ones the object holds |
| `Params.RoomRoundTrip` | js/params.js:119-122 | every room state survives a JSON round trip field for field |
| `Params.GetInitialState` | js/params.js:119-122 | the JSON copy of the default state equals the default state: one default playlist, no stickers, a known page |
| `Render.ProfileBoard` | js/render.js:35-37 | each profile text shown is the field when non-empty and "Name", "Favourite genre" or "Bio" otherwise, so none is blank |
| `Render.DefaultProfileShowsPlaceholders` | js/render.js:35-37 | a fresh room's profile board shows the three placeholders |
| `Render.WizardLabel` | js/render.js:164 | the wizard labels, and the name a keystroke gives the draft, are the name, or "New Playlist" when it is empty |
| `Render.FrameEntry` | js/render.js:42 | `FRAME_IMAGES[frame]`: defined exactly for an index inside the frame catalogue, and then the catalogue's entry at that index |
| `Render.FrameFile` | js/render.js:42 | an in-range frame index resolves to its own file and any other index to the first frame; the result is always a catalogue file |
| `Render.FrameSource` | js/render.js:41-44 | the frame image source is always the frames folder followed by a catalogue file |
| `Render.ShelfItems` | js/render.js:91-106 | the items before the last are the playlists' spines in playlist order, each with its playlist's index, id, name, colour and "Open <name>" title; the last item is the add button |
| `Render.RenderShelf` | js/render.js:86-107 | the loop builds exactly the shelf items, one spine per playlist and then the add button |
| `Render.ResolveStickers` | js/render.js:134-145 | each view shows the sticker at its index through the catalogue entry of its id, indices strictly increase, and a sticker is shown exactly when its id resolves |
| `Render.RenderStickers` | js/render.js:129-146 | the same for the sticker catalogue, with an absent sticker list rendered as an empty one |
| `Render.ListedAppend` | js/render.js:142 | appending a view adds exactly its index to the indices shown |
| `Render.SwatchDataKey` | js/render.js:192 | playlist swatches carry the "playlistColor" key and every other grid the "bgColor" key |
| `Render.RenderSwatchGrid` | js/render.js:184-195 | one swatch per palette colour, in order, marked selected exactly when equal to the selected colour |
| `Render.SingleSelection` | js/render.js:188-193 | on a palette without repeats at most one swatch is marked, and one is marked exactly when the selected colour is on the palette |
| `Render.RenderPlaylistColorGrid` | js/render.js:176-178 | one swatch per playlist palette colour, marked exactly when it equals the selected colour; so at most one is marked, and one is marked exactly when the colour is on the palette |
| `Render.RenderBgColorGrid` | js/render.js:180-182 | one swatch per background palette colour, marked exactly when it equals the selected colour; so at most one is marked, and one is marked exactly when the colour is on the palette |
| `Render.SearchKey` | js/render.js:307 | the key is empty exactly when the query is blank, is as long as the trimmed query, and holds no capital letter |
| `Render.SongMatches` | js/render.js:311-312 | a song matches exactly when the key occurs in its lower-cased name or in its lower-cased artist; every song matches the empty key |
| `Render.FilterSongs` | js/render.js:309-313 | the filtered list is never longer than the library, and every song in it is a library song that matches |
| `Render.SongSearch` | js/render.js:307-314 | the listed songs are library songs that match the key, no more of them than the library holds, and a blank query lists the library unchanged |
| `Render.FilterKeepsOrder` | js/render.js:308-313 | the filtered list is a subsequence of the library in library order, and every song in it matches |
| `Render.FilterCounts` | js/render.js:309-313 | a matching song keeps all its copies and a non-matching song has none |
| `Render.FilterEmptyKey` | js/render.js:307-314 | filtering with the empty key keeps the whole library |
| `Render.SearchBlankQuery` | js/render.js:307-314 | an empty or all-whitespace query yields the whole library unchanged |
| `Render.SearchNonBlankQuery` | js/render.js:307-313 | any other query has a non-empty key and yields exactly the filtered library |
| `Render.SearchIsFilter` | js/render.js:307-318 | the result is a subsequence of the library, no longer than it, holding every copy of each matching song and nothing else |
| `Render.SearchMembership` | js/render.js:307-313 | a song is listed exactly when it is in the library and its lower-cased name or artist contains the trimmed, lower-cased query |
| `App.RadioPresetColors` | js/app.js:432-448 | a preset index resolves exactly when it is in range, to that preset's five colours; otherwise nothing is set |
| `App.ShelfPresetColors` | js/app.js:565-577 | a shelf preset index resolves exactly when it is in range, to that preset's four colours; otherwise nothing is set |
| `App.FirstPresetsRestoreDefaults` | js/app.js:434-443 | the first radio preset and the first shelf preset give back the colours of a fresh room |
| `App.ViewerPlay` | js/app.js:359-369 | a viewer song is played exactly when both the playlist index and the song index resolve, with that song and those indices |
| `App.ViewerPlaylist` | js/app.js:188-190 | the viewer opens exactly when the playlist index resolves, on that playlist |
| `App.SpineOpensItsPlaylist` | js/app.js:459-463 | every spine on the shelf opens the playlist it was drawn for (same index and id), and each of that playlist's songs can be played from the viewer |
| `App.LibrarySong` | js/app.js:490-498 | a song id resolves to the first library song with that id, or to nothing when no song has it |
| `App.WizardName` | js/app.js:466-469 | the draft name is the trimmed input, or "New Playlist" when there is no input or it trims to nothing; never blank or edge-padded |
| `App.SpliceStart` | js/app.js:602 | splice's start is the index when in range, counts from the end when negative, is the length past the end and 0 before the start |
| `App.SpliceOne` | js/app.js:600-602 | an in-range index removes exactly that entry, with later entries shifted down by one; a negative index counts from the end; an index before the start removes the first entry; an index past the end changes nothing |
| `App.Max0` | js/app.js:311-312 | `Math.max(0, v)` is non-negative, at least `v`, and either 0 or `v` |
| `App.MoveSticker` | js/app.js:304-313 | only the entry at a valid index changes: it keeps its id and moves to the clamped coordinates; an index without an entry changes nothing |
| `App.EditsKeepOnCanvas` | js/app.js:304-313 | removing or moving stickers keeps every sticker at non-negative coordinates |
| `App.Room.Stickers` | js/render.js:134 | the sticker list the handlers see: the list when present, the empty list when absent |
| `App.Room.InitPlacedStickers` | js/app.js:719-720 | an absent sticker list becomes an empty one and a present one is kept |
| `App.Room.AddSticker` | js/app.js:580-591 | the list is created if absent and exactly one `{id, x, y}` entry is appended, within the upper part of the room, earlier entries unchanged |
| `App.Room.RemoveStickerAt` | js/app.js:598-605 | a present list loses the entry splice removes; an absent list stays absent |
| `App.Room.DropStickerAt` | js/app.js:309-313 | only an existing entry moves, to non-negative coordinates; otherwise the list is unchanged |
| `App.Room.NameNext` | js/app.js:466-473 | the draft, if any, takes the resolved wizard name, and nothing else in the room changes; the move to the colour page goes through the router's `goTo` and `setPage`, which are not part of this model |
| `App.Room.TypeDraftName` | js/app.js:609-614 | the draft, if any, takes the typed value, or "New Playlist" when it is empty, and nothing else changes |
| `App.Room.PickDraftColor` | js/app.js:475-483 | the draft, if any, takes the clicked colour and nothing else changes |
| `App.StickerDrag.constructor` | js/app.js:272-274 | no drag is under way and both offsets start at 0 |
| `App.StickerDrag.PointerDown` | js/app.js:280-290 | on a sticker the drag starts with the pointer's offset inside it; elsewhere nothing changes |
| `App.StickerDrag.PointerUp` | js/app.js:302-315 | with a drag under way, the dragged sticker is dropped at the pointer less the offset and the drag ends; without one nothing changes |

## Constants

The catalogues and defaults of js/params.js are Dafny constants with the
source's values, in the source's order. The lemmas in the table above state
the facts the rest of the model relies on.

| constant | source | holds |
|---|---|---|
| `Params.SWATCH_COLORS` | js/params.js:2-7 | the playlist colour palette |
| `Params.BG_COLORS` | js/params.js:10-15 | the background colour palette |
| `Params.FRAME_IMAGES` | js/params.js:18-25 | the profile frame image files, indexed by `profile.frame` |
| `Params.RADIO_PRESETS` | js/params.js:28-37 | the named radio colour presets, Classic Red first |
| `Params.SHELF_PRESETS` | js/params.js:40-49 | the named shelf colour presets, Oak first |
| `Params.SHELF_OBJECTS` | js/params.js:52-65 | the shelf object catalogue: id, emoji (field `svg`), caption and size |
| `Params.PROFILE_STICKERS` | js/params.js:68-81 | the sticker catalogue: id, emoji and caption |
| `Params.DEFAULT_RADIO_COLORS` | js/params.js:83-89 | the radio colours of a new room |
| `Params.DEFAULT_PLAYLIST` | js/params.js:91-96 | the one empty playlist of a new room |
| `Params.DEFAULT_STATE` | js/params.js:98-117 | the room state a new room starts from |
| `Params.PAGES` | js/params.js:124-127 | the page names `sanitizePage` accepts |

## Left out

- The share-token codec (`encodeRoomToURL`, `decodeRoomFromURL`) and every setter and the player state. They live in js/router.js and js/state.js, which are not part of this model. Handlers that call a setter are modelled only up to the value they pass to it.
- Loading the song library, the cover-art and preview lookups and the fetch-covers.js script. These are network and file I/O.
- Audio playback: `startPlayback`, `stopPlayback`, and the audio branch of `updatePlaybackUI` with `currentlyPlayingSongId`. This is browser media I/O.
- DOM construction, styling, CSS custom properties, `scrollTo`, listeners, clipboard, timers and `FileReader` uploads (background, photo, poster). These are UI plumbing.
- The mascot display and picker. They use `MASCOT_GIFS`, which render.js imports but js/params.js does not define.
- Presentation-only passes: `renderPage`, the radio and shelf customiser chips, the frame and sticker pickers, the edit-playlist list, and the HTML of `openPlaylistViewer` and `_buildSongItem`.
- The pointer-move handler, which moves only the DOM node and changes no state. Pointer geometry comes in as real parameters.
- Indices parsed from data attributes are integers here. The `NaN` a malformed attribute would give is not modelled (`splice` treats it as 0; lookups treat it as out of range).
- Songs carry id, name, artist and colour. The optional cover and preview URLs are not modelled.
- JsString.LowerChar: lowers only U+0041-U+005A and U+00C0-U+00DE (U+00D7 aside). Every other capital comes back unchanged, where JavaScript lowers it: Latin Extended (U+0100, U+0141, ...), Greek, Cyrillic and the rest.
- JsString.ToLower: lowers only U+0041-U+005A and U+00C0-U+00DE (U+00D7 aside). Every other capital is left as it is: Latin Extended (U+0100, U+0141, ...), Greek, Cyrillic and the rest. Mappings that change a string's length are not modelled either.
- App.Room.AddSticker: sticker coordinates are exact reals, and the two `Math.random()` draws are parameters in `[0, 1)`. The contract's bounds `x < 550` and `y < 250` hold over the reals. In JavaScript's double arithmetic, `150 + Math.random() * 400` with `Math.random()` = 1 - 2^-53 rounds to exactly 550 (js/app.js:586). Floating-point rounding is not modelled.
- Render.FrameFile: the frame is an integer. A fractional frame, which JavaScript would also resolve to the first frame, is not modelled.
- Params.SongOf, Params.PlaylistOf, Params.ProfileOf, Params.RadioColorsOf, Params.StickerOf, Params.RoomOf: these are typed readers of the parsed tree. JSON.parse itself accepts any well-formed text and never checks that members are present. The model proves only that the readers give back what the writers wrote.
- Params.GetInitialState: the copy is stated as value equality with the default state. Dafny datatypes are values, so the aliasing fact (mutating the copy leaves the default untouched) holds trivially and is not stated on its own. JSON's treatment of `undefined` and non-finite numbers is not modelled; the default state holds neither.
