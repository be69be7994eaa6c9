# Nekopoi scraper: endpoint and page, modelled in Dafny

This project models the two pieces of logic in the Nekopoi scraper web app.

- **The scrape endpoint** (`GET /api/scrape`). It reads four query parameters (`url`, `page`, `genre`, `type`), applies their defaults and routes the request to one of three scrapers or a 400. A scraper fetches one upstream page, walks the elements its CSS selectors matched and pushes JSON records: listing items, pager links, category tags, stream players, download links, episodes and related posts.
- **The browser page**. It has six state cells (`data`, `loading`, `page`, `selectedGenre`, `detailData`, `view`). The fetch handlers `fetchHome`, `fetchGenre` and `fetchDetail` update these cells. The Previous, Next and Back buttons choose the next page and which fetch to run. The page also chooses what is drawn.

Modules:

- `Js` (`js.dfy`): the JavaScript built-ins the code relies on. These are absent values, string truthiness, `trim`, `indexOf`/`includes`, `replace` with a one-character pattern, `parseInt` and `${n}` for a number.
- `Lists` (`lists.dfy`): the specifications of the `.each` loops. `Map` covers a loop that pushes one record per element. `FilterMap` covers a loop that pushes only when a test passes, with its properties: order, positions and membership.
- `Scrape` (`scrape.dfy`): the endpoint.
  - `Dispatch` is the decision chain.
  - `HomeUrl`/`GenreUrl` build the target URLs, and `Slug` derives a category's slug.
  - Each `.each` loop is a method with loop invariants. The listing-item loop (`CollectItems`) is proved against the per-card relation `ItemsOf`. Every other loop is proved against a `Map` or a `FilterMap`.
  - `ScrapeHome`, `ScrapeGenre`, `ScrapeDetail` and `Get` are proved against response predicates.
- `Page` (`page.dfy`): the page, as a class `HomePage` with the six cells as fields. Its handlers are methods that return the query they send.

Boundaries:

- **The selector engine.** An upstream page is given as the sequences of elements each selector matched, in document order. Each element carries the text and the optional attributes the engine reports (`ListingHtml`, `DetailHtml`).
- **The upstream site.** It is a parameter `Site`: a map from a URL to either the fetched page or the message of the exception the fetch threw. The site answers each URL the same way every time: two requests for the same URL, such as the first load and a genre button (both served the home page), both succeed with the same page or both fail.
- **The page's requests.** Each request's outcome is a parameter `Fetch`: the body of a 2xx response, or a rejection. `Page.Outcome` turns an endpoint `Response` into that outcome the way axios does. This lets `Page.GenreButtonShowsHome` run the page against `Scrape.Get` end to end.

Two behaviours of the endpoint are easy to miss:

- **A request with no parameters** is served the first home page, not a 400 (app/api/scrape/route.js:13-26). `type` defaults to `"home"`, and the home test runs first (`Scrape.NoParametersIsHome`). The 400 needs an explicit `type` other than `"home"` and neither `genre` nor `url` (`Scrape.Dispatch`).
- **An href without `/category/`** gives an undefined slug (`None`), not an empty string (app/api/scrape/route.js:74, `Scrape.Slug`).

## Model

| member | source | states |
|---|---|---|
| Js.Trim | app/api/scrape/route.js:42 | `trim`: no whitespace at either end; empty exactly when the input is all whitespace; never longer |
| Js.TrimCutsEnds | app/api/scrape/route.js:42 | `trim` returns a contiguous piece of the input, and only whitespace lies before and after that piece |
| Js.TrimIdempotent | app/api/scrape/route.js:42 | trimming a trimmed text changes nothing |
| Js.IndexFrom | app/api/scrape/route.js:74 | `indexOf` from a position: the result is an occurrence, no earlier occurrence exists, and `None` means none at all |
| Js.RemoveFirst | app/api/scrape/route.js:74 | `replace('/', '')`: unchanged without the character, exactly one character shorter with it |
| Js.RemoveFirstSplits | app/api/scrape/route.js:74 | only the first occurrence is removed; the later ones stay |
| Js.ParseInt | app/api/scrape/route.js:84 | `parseInt` is NaN exactly when the text does not start with a digit |
| Js.NatToDecimal | app/page.js:17 | `${n}` is a non-empty digit string with no leading zero (except for 0) |
| Js.ParseIntOfDecimal | app/api/scrape/route.js:84 | `parseInt` reads back the number the page wrote into `page` |
| Js.DecimalIsOne | app/api/scrape/route.js:31 | the page number written by the page equals `"1"` exactly when it is 1 |
| Lists.Map | app/api/scrape/route.js:202-213 | a push-for-every-element loop yields one record per element, the i-th from the i-th element |
| Lists.MapSnoc | app/api/scrape/route.js:202-213 | one more element processed appends its record at the end |
| Lists.FilterMap | app/api/scrape/route.js:167-186 | a filter-and-push loop never yields more records than elements |
| Lists.FilterMapAppend | app/api/scrape/route.js:190-199 | filtering a concatenation filters each part, in order |
| Lists.FilterMapSnoc | app/api/scrape/route.js:190-199 | one more element processed appends its record, if any, at the end |
| Lists.FilterMapPositions | app/api/scrape/route.js:190-199 | the records are exactly those of the contributing elements, at strictly increasing positions (document order) |
| Lists.FilterMapMember | app/api/scrape/route.js:190-199 | a record is in the result exactly when some element yields it |
| Scrape.Dispatch | app/api/scrape/route.js:7-26 | `page` defaults to "1" and `type` to "home" when absent or empty. Precedence: no url with type home → home listing (whatever the genre); else genre (even over url); else url → detail; 400 exactly when type is set and not "home" and there is neither genre nor url |
| Scrape.NoParametersIsHome | app/api/scrape/route.js:9-15 | no parameters, or all of them empty, gives the first home page, not the 400 |
| Scrape.HomeUrl | app/api/scrape/route.js:31 | the bare origin exactly when the page string is "1"; otherwise it extends the origin |
| Scrape.HomeUrlInjective | app/api/scrape/route.js:31 | different page strings give different home URLs |
| Scrape.PageComparedAsString | app/api/scrape/route.js:31 | "01" is compared as a string: it gives `/page/01`, though `parseInt` reads it as page 1 |
| Scrape.GenreUrl | app/api/scrape/route.js:95-97 | `/category/<genre>` exactly when the page string is "1"; otherwise it extends that URL |
| Scrape.GenreUrlInjective | app/api/scrape/route.js:95-97 | for genres without '/', different (genre, page) pairs give different URLs |
| Scrape.GenreUrlCollision | app/api/scrape/route.js:95-97 | a genre containing '/' can produce another pair's URL: ("a/page/2", "1") and ("a", "2") |
| Scrape.Slug | app/api/scrape/route.js:74 | undefined exactly when the href is absent or contains no `/category/` |
| Scrape.SlugAfterMarker | app/api/scrape/route.js:74 | with the first marker right after `pre` and no other after it, the slug is the rest of the href with its first '/' removed |
| Scrape.SlugBetweenMarkers | app/api/scrape/route.js:74 | with a second marker, the slug is the text between the first and the second marker with its first '/' removed (`split('/category/')[1]`) |
| Scrape.FirstMarkerAt | app/api/scrape/route.js:74 | when no marker starts inside `x`, the first marker of `x + "/category/" + y` is the one right after `x` |
| Scrape.SlugOfPath | app/api/scrape/route.js:74 | `pre/category/name/sub` gives `name` + `sub`: only the first '/' goes |
| Scrape.SlugOfMenuLink | app/api/scrape/route.js:74 | the menu link `…/category/action/` (the genre URL plus '/') gives `action` |
| Scrape.DownloadOf | app/api/scrape/route.js:191-198 | an anchor contributes exactly when its href is non-empty and its text has a non-space character; the record is (trimmed text, href) |
| Scrape.StreamsKStreamFirst | app/api/scrape/route.js:164-186 | no more streams than iframes plus anchors; after the first Mirror entry every entry is a Mirror |
| Scrape.StreamMembership | app/api/scrape/route.js:167-186 | KStream u is listed exactly when an iframe src is u and contains "http"; Mirror u exactly when an anchor href is the non-empty u |
| Scrape.TwoStreamSources | app/api/scrape/route.js:164-186 | one embed and one mirror give the KStream entry, then the Mirror entry |
| Scrape.DownloadsKept | app/api/scrape/route.js:189-199 | no more downloads than anchors; a download is listed exactly when some anchor yields it |
| Scrape.TrimEach | app/api/scrape/route.js:47-49 | one trimmed text per matched element, in order |
| Scrape.CollectItems | app/api/scrape/route.js:41-58 | one item per card, in order, with trimmed title, link, thumbnail, trimmed tags and the given type |
| Scrape.CollectPager | app/api/scrape/route.js:61-67 | one pager entry per anchor: trimmed text and href |
| Scrape.CollectGenreTags | app/api/scrape/route.js:70-76 | one tag per menu anchor: trimmed name and its slug |
| Scrape.CollectStreams | app/api/scrape/route.js:164-186 | the two loops build exactly `StreamsOf`: the KStream filter over the iframes, then the Mirror filter over the anchors |
| Scrape.CollectDownloads | app/api/scrape/route.js:189-199 | the loop builds exactly `DownloadsOf`, the download filter over the anchors |
| Scrape.CollectEpisodes | app/api/scrape/route.js:202-213 | one episode per row, no filtering, in order |
| Scrape.CollectRelated | app/api/scrape/route.js:216-227 | one related entry per card, no filtering, in order |
| Scrape.ScrapeHome | app/api/scrape/route.js:29-91 | fetch of the home URL. Failure: 500 with the message. Success: 200 with episode items, pager, menu tags, `parseInt(page)` and `total_items` = item count |
| Scrape.ScrapeGenre | app/api/scrape/route.js:93-139 | fetch of the genre URL. Failure: 500 with the message. Success: 200 with genre items, the echoed genre, `parseInt(page)` and the item count |
| Scrape.ScrapeDetail | app/api/scrape/route.js:141-245 | fetch of the url. Failure: 500 with the message. Success: 200 with trimmed title, thumbnail, trimmed genres, streams, downloads, episodes, related and `source_url` = url |
| Scrape.Get | app/api/scrape/route.js:6-27 | the response is the chosen scraper's, for the route `Dispatch` picks; 400 with "Parameter tidak valid" for an invalid request |
| Page.HomeRequestServed | app/page.js:17 | the home request reaches the home scraper. Page 1 fetches the bare origin, other pages a numbered page, and `current_page` echoes the number |
| Page.GenreRequestServedByHome | app/page.js:31 | the genre request has no `type`, so the endpoint serves the home listing of that page, not the category |
| Page.DetailRequestServed | app/page.js:46 | the detail request reaches the detail scraper with its url; an empty url gets the first home page |
| Page.CardGenres | app/page.js:105 | a card shows a prefix of the genres: three of them, or all when there are fewer |
| Page.HomePage.constructor | app/page.js:7-12 | page 1, view home, no genre, no data, no detail, loading |
| Page.HomePage.Shown | app/page.js:275-285 | spinner exactly while loading; otherwise the detail view exactly when `view` is 'detail'; in a valid state the detail view always has a detail record to draw |
| Page.HomePage.MenuAndPagerShown | app/page.js:65-117 | the menu and the pager are drawn only when nothing is loading and the view is not 'detail'; a category listing (which has no `genres` or `pagination`) never draws them |
| Page.HomePage.FetchHome | app/page.js:14-26 | sends the home query. Success: data set, view home, detail cleared. Failure: data, view and detail untouched. Always: page and genre untouched, loading false |
| Page.HomePage.FetchGenre | app/page.js:28-41 | sends the genre query. Success: data set, view genre, genre remembered, detail cleared. Failure: all untouched. Always: page untouched, loading false |
| Page.HomePage.FetchDetail | app/page.js:43-54 | sends the detail query. Success: detail set, view detail. Failure: untouched. Always: data, page and genre untouched, loading false |
| Page.HomePage.Mount | app/page.js:56-58 | mounting fetches home page 1 |
| Page.HomePage.Previous | app/page.js:120-126 | disabled on page 1: nothing is sent and no cell changes. Otherwise page − 1, then refetches home or the remembered genre for that page, per the view. The page moves even when the fetch fails; nothing is fetched in the detail view |
| Page.HomePage.Next | app/page.js:133-138 | page + 1. Refetches home or the remembered genre for that page, per the view. The page moves even when the fetch fails |
| Page.HomePage.Back | app/page.js:151-155 | acts only in the detail view with data present. Fetches the remembered genre when one is set, else home, for the current page; otherwise nothing changes |
| Page.BackAfterHomeReturnsToGenre | app/page.js:151-155 | genre, then the Home button, then a card: Back fetches the genre again, because `fetchHome` never clears it |
| Page.HomeButtonKeepsPage | app/page.js:70 | after Next twice, the Home button fetches page 1 and shows it, while the counter says 3 |
| Page.FailedNextMovesCounter | app/page.js:133-138 | a failed Next leaves page 1's listing on screen with the counter at 2 |
| Page.PreviousOnFirstPage | app/page.js:126 | right after the first load, Previous sends nothing, the counter stays 1 and the first listing stays on screen |
| Page.FailedMount | app/page.js:56-58 | a failed first load shows the empty listing view, without the spinner |
| Page.GenreButtonShowsHome | app/page.js:78 | against the endpoint, a genre button shows the home listing of page 1 (with menu and pager) under view 'genre'; it shows nothing when that page cannot be fetched |

## Left out

- **Network requests.** The upstream axios GETs, their User-Agent header, and network errors and timeouts are left out. The site is a parameter, and any exception is a `Failed(message)`.
- **The selector engine.** Cheerio's selector matching and its `.text()`/`.attr()` semantics are left out, such as text concatenated over several matches and the first match's attribute. Pages are given as the matched elements with their texts and attributes.
- Js.Trim: removes a fixed set of whitespace characters (space, tab, line feed, carriage return, vertical tab, form feed, no-break space, byte-order mark). It does not remove the other characters JavaScript's `trim` removes: the rest of the Unicode space separators (U+1680, U+2000–U+200A, U+202F, U+205F, U+3000) and the line terminators U+2028 and U+2029.
- Js.ParseInt: covers inputs that start with their digits; a sign, leading whitespace and the `0x` prefix are not modelled. Precision loss on very long numbers is not modelled either.
- **Serialisation.** `NextResponse.json` and the HTTP headers are left out. A response is its status and body as a datatype.
- **URL encoding.** `encodeURIComponent` on the page side and URL decoding on the endpoint side are taken to round-trip. A genre sent raw in the query string, which could split on `&` or `#`, is taken as it is.
- **Rendering.** JSX, the Tailwind classes, placeholder images, and how the detail record's parts are laid out are not modelled. Only the view choice, the genre prefix on cards, the menu/pager visibility and Previous being disabled on page 1 are. The Previous and Next handlers are modelled as callable in any state, though the app only draws them with the pager (app/page.js:117).
- **Concurrency.** Overlapping fetches from rapid clicks, React's batching of state updates and the order in which promises settle are not modelled. Each handler runs to completion before the next begins.
- **Undefined values from the page.** A card or related post whose `link` is undefined (so the page would request `url=undefined`) is not modelled, and neither is a menu tag whose `slug` is undefined. The handlers take strings.
- **Logging.** The `console.error` calls are left out.
