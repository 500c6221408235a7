# Search hub: recent searches and platform links

This project models the logic of the omni-search-hub page (`src/App.jsx`). It uses a fixed table to turn one query into a search URL for each of seven platforms. The platforms are WhatsApp, Instagram, Facebook, Twitter, Telegram, YouTube and Spotify. The page opens one of those URLs, or all of them, in new tabs. It also keeps the last five distinct queries in browser storage under the key `recentSearches`.

The model is split into modules:

- `RecentSearches` (`recent_searches.dfy`): the list operations as values.
  - `Without` is `filter((r) => r !== q)`.
  - `Saved` is `[q, ...filter].slice(0, 5)`.
  - Lemmas cover deduplication, the capacity bound, order, idempotence and the remove/save relation.
- `PlatformLinks` (`platform_links.dfy`):
  - the `links` table as `Template`/`Link` over a `Platform` datatype;
  - a parser `ParseLink` that reads a link back, used as the table's inverse;
  - round-trip, injectivity and device-dependence lemmas.
- `UriComponent` (`uri_component.dfy`): `encodeURIComponent`, following section 19.2.6.4 of ECMA-262.
  - Characters are Unicode scalar values.
  - Each is written as its UTF-8 octets, escaped as upper-case `%XY`.
  - `Decode` is `decodeURIComponent` and serves as its inverse.
- `Text` (`text.dfy`): `String.prototype.trim`, reduced to the blank-query test the handlers use.
- `App` (`app.dfy`): the component's state as a class `SearchHub`.
  - The fields are `query`, `recent`, the browser `storage` (a map from keys to stored lists) and `tabs` (the URLs `window.open` was asked to open, in order).
  - Methods model the load effect, `saveRecent`, `removeSearch`, `clearAllSearches`, `search` and `searchAll`.
  - `Synced()` states that the list shown is the list stored.
  - Three client methods chain a visit and a fresh reload.
- `Sequences` and `Wrappers` are small helpers: `NoDup`, `IsSubseq` and `Option`.

The device check `isMobile` is a constructor parameter, and `window.open` is modelled as appending to `tabs`.

Facts about the code that the model keeps:

- `search` opens the link first and then records the query (src/App.jsx:107-108).
- `searchAll` records the query first and then opens the links (src/App.jsx:114-118).
- The links open one per key of `links`, in the keys' insertion order (src/App.jsx:116).
- The load effect shows the stored list as it is, with no deduplication and no cut to five entries (src/App.jsx:38-41). Stored text that does not parse makes `JSON.parse` throw; the code does not catch it (src/App.jsx:38).

## Model

| member | source | states |
|---|---|---|
| Text.Trim | src/App.jsx:50 | the trimmed query is empty exactly when the query is blank (only ECMAScript whitespace and line terminators); otherwise neither end of the result is whitespace |
| UriComponent.Escape | src/App.jsx:76-97 | an escaped octet is `%` and two upper-case hexadecimal digits whose value is the octet |
| UriComponent.EscapeAll | src/App.jsx:76-97 | escaping n octets gives 3n characters, each `%` or unreserved |
| UriComponent.Utf8 | src/App.jsx:76-97 | a code point becomes 1 to 4 octets, and exactly one when it is ASCII |
| UriComponent.Encode | src/App.jsx:76-97 | the encoded query is never shorter than the query, holds only unreserved characters and `%`, and equals the query exactly when every character of it is unreserved |
| UriComponent.Utf8Decodes | src/App.jsx:76-97 | the UTF-8 octets of every code point decode back to that code point, and the first octet announces the sequence length |
| UriComponent.DecodeEncode | src/App.jsx:76-97 | decoding the encoded form of any string gives the string back |
| UriComponent.EncodeInjective | src/App.jsx:76-97 | different queries have different encodings |
| RecentSearches.Without | src/App.jsx:59 | no entry equal to q is left; every other entry keeps its multiplicity; the survivors keep their order |
| RecentSearches.Saved | src/App.jsx:52 | the new list starts with q, has at most 5 entries, and continues with the longest prefix of the other entries that fits |
| RecentSearches.WithoutNoDup | src/App.jsx:59 | filtering keeps a list free of duplicates |
| RecentSearches.WithoutAbsent | src/App.jsx:59 | removing a query that is not in the list leaves the list unchanged |
| RecentSearches.WithoutIdempotent | src/App.jsx:58-61 | removing the same query twice is the same as removing it once |
| RecentSearches.WithoutWellFormed | src/App.jsx:58-61 | removal keeps the list duplicate-free and within capacity |
| RecentSearches.SavedWellFormed | src/App.jsx:48-52 | saving into a duplicate-free list gives a duplicate-free list of at most 5 entries |
| RecentSearches.SavedKeepsOrder | src/App.jsx:52 | the entries after q keep their relative order from the old list |
| RecentSearches.SavedExisting | src/App.jsx:52 | saving a query already in a well-formed list moves it to the front, with the same length and the same entries |
| RecentSearches.SavedNew | src/App.jsx:52 | saving a new query puts it in front of the old list, dropping the oldest entry when the list is full |
| RecentSearches.SavedIdempotent | src/App.jsx:52 | saving the same query twice in a row is the same as saving it once |
| RecentSearches.RemoveUndoesSave | src/App.jsx:52-59 | removing a new query right after saving it into a list that is not full restores the list |
| PlatformLinks.Platforms | src/App.jsx:116 | the seven keys of `links` in their insertion order; `AllLinks` and `SearchAll` open the links in this order, and `AllLinksDistinct` shows that each key gives a different URL |
| PlatformLinks.Template | src/App.jsx:73-98 | the fixed text before the encoded query for each platform; `LinkDependsOnDevice` and `LinkScheme` show that only WhatsApp and Telegram use an app scheme, and then only on mobile |
| PlatformLinks.Link | src/App.jsx:73-98 | `links[platform](q)`: the template followed by `encodeURIComponent(q)`; `LinkRoundTrip` shows that every link reads back as its platform, form and query, and `LinkInjective` that distinct searches give distinct links |
| PlatformLinks.AllLinks | src/App.jsx:116-117 | searching all platforms gives one URL per platform, in table key order, and every platform's URL is among them |
| PlatformLinks.LinkRoundTrip | src/App.jsx:73-98 | every link reads back as its platform, the query searched for, and whether it is an app link (exactly on mobile for WhatsApp and Telegram) |
| PlatformLinks.LinkInjective | src/App.jsx:73-98 | two equal links come from the same platform and the same query |
| PlatformLinks.LinkDependsOnDevice | src/App.jsx:74-91 | the device changes the link exactly for WhatsApp and Telegram |
| PlatformLinks.LinkScheme | src/App.jsx:74-97 | a link is an `https://` URL exactly when it is not a mobile app link |
| PlatformLinks.AllLinksDistinct | src/App.jsx:116-117 | searching all platforms opens seven different URLs |
| PlatformLinks.AllLinksRoundTrip | src/App.jsx:116-117 | the i-th URL of a search on all platforms reads back as the i-th platform's search for the query |
| PlatformLinks.InstagramCats | src/App.jsx:79-80 | a search for `cats` on Instagram opens the `cats` tag page unchanged |
| App.Loaded | src/App.jsx:38-40 | with nothing stored the list loads as empty; otherwise it loads as the stored list |
| App.SearchHub.constructor | src/App.jsx:22-25 | the page starts with an empty query, an empty list and no tab opened |
| App.SearchHub.LoadRecent | src/App.jsx:37-42 | the shown list becomes the stored list (empty when none is stored), so list and storage agree; a well-formed stored list stays well-formed |
| App.SearchHub.SetQuery | src/App.jsx:174 | the query becomes the text typed (or the recent entry picked) |
| App.SearchHub.SaveRecent | src/App.jsx:49-55 | a blank query changes nothing; otherwise the list becomes `Saved(old list, q)` and is stored under `recentSearches`, q is in front, list and storage agree, and a well-formed list stays well-formed with the same length when q was already present |
| App.SearchHub.RemoveSearch | src/App.jsx:58-62 | the list loses every entry equal to q and the new list is stored; nothing else is stored |
| App.SearchHub.ClearAllSearches | src/App.jsx:65-68 | the list is empty and the storage key is deleted, the rest of storage unchanged |
| App.SearchHub.Search | src/App.jsx:105-109 | a blank query changes nothing; otherwise exactly the platform's link is opened and the query is saved as by `SaveRecent` |
| App.SearchHub.OpenLinks | src/App.jsx:116-118 | for each key in order, one tab with that key's link is opened, and nothing else is opened |
| App.SearchHub.SearchAll | src/App.jsx:112-119 | a blank query changes nothing; otherwise the query is saved once and the seven platform links are opened in table key order |
| App.SearchAllThenReload | src/App.jsx:37-42 | after searching all platforms for a non-blank q, the tabs opened are the seven distinct platform URLs, and a reload shows the saved list with q in front; a blank q opens nothing and keeps the stored list |
| App.RemoveThenReload | src/App.jsx:58-62 | after removing q, a reload shows the stored list without q, and removing q again changes nothing |
| App.ClearThenReload | src/App.jsx:65-68 | after clearing, a reload shows an empty list |

## Left out

- Rendering: the JSX, the dark/light and glass theme toggles, the icons and the styles are presentation only.
- `isMobile`: the `navigator.userAgent` regular expression at `src/App.jsx:32` is replaced by a boolean parameter fixed when the hub is built.
- `window.open`:
  - it is modelled as appending the URL to `tabs`;
  - the `_blank` target, popup blocking and the browser's handling of custom `whatsapp://` and `tg://` schemes are not modelled.
- JSON and `localStorage`:
  - storage holds decoded lists rather than JSON text;
  - `JSON.stringify`/`JSON.parse`, text that does not parse, stored values that are not arrays of strings, and write failures such as a full quota are not modelled;
  - the `|| "[]"` fallback is modelled only for a missing key, since a stored empty string cannot arise when every write is a JSON array.
- `encodeURIComponent` on a lone surrogate, which throws `URIError`: Dafny characters are Unicode scalar values, so no such input exists in the model.
- Platform keys: the string keys of the `links` object are the `Platform` datatype, so `links[platform]` with an unknown key cannot be written.
- React: the render cycle and batched state updates are not modelled. Each handler reads the state left by the previous one, which matches the code, since no handler reads `recent` after changing it.
- Text.Trim: the whitespace set is the fixed list of ECMAScript WhiteSpace and LineTerminator code points, including the Unicode `Zs` category as of Unicode 15. No Unicode database is consulted.
