/** The scrape endpoint: `GET` reads the query parameters and picks one of
    three scrapers or a 400; each scraper fetches one upstream page and turns
    the elements the CSS selectors matched into JSON records.

    The selector engine is the boundary of the model: an upstream page is
    given as the sequences of elements each selector matched, in document
    order, with the text and the attributes the engine reports for them.
    The upstream site is a parameter mapping a URL to the page fetched from
    it or to the message of the exception the fetch threw. */
module Scrape {
  import opened Js
  import opened Lists

  // =====================================================================
  // Request

  /** The four query parameters; `None` when the parameter is absent. */
  datatype Query = Query(url: Option<string>, page: Option<string>, genre: Option<string>, kind: Option<string>)

  /** What `GET` does with a request. */
  datatype Route =
    | Home(page: string)
    | Genre(genre: string, page: string)
    | Detail(url: string)
    | Invalid

  const InvalidMessage := "Parameter tidak valid"

  /** The decision chain of `GET`: `page` defaults to "1" and `type` to
      "home" when absent or empty; the home listing is checked first, then a
      genre, then a detail URL. */
  function Dispatch(q: Query): (r: Route)
    // no url and type "home" (given or defaulted): home listing, whatever the genre
    ensures !Truthy(q.url) && OrDefault(q.kind, "home") == "home" ==> r == Home(OrDefault(q.page, "1"))
    // otherwise a genre wins, even over a url
    ensures (Truthy(q.url) || OrDefault(q.kind, "home") != "home") && Truthy(q.genre) ==>
              r == Genre(q.genre.value, OrDefault(q.page, "1"))
    // a url without a genre gives the detail page of that url
    ensures Truthy(q.url) && !Truthy(q.genre) ==> r == Detail(q.url.value)
    // the 400 needs an explicit type other than "home" and neither genre nor url
    ensures r == Invalid <==> Truthy(q.kind) && q.kind.value != "home" && !Truthy(q.genre) && !Truthy(q.url)
    // the page parameter is passed on as given unless absent or empty
    ensures (r.Home? || r.Genre?) ==> r.page == (if Truthy(q.page) then q.page.value else "1")
  {
    var page := OrDefault(q.page, "1");
    var kind := OrDefault(q.kind, "home");
    if !Truthy(q.url) && kind == "home" then Home(page)
    else if Truthy(q.genre) then Genre(q.genre.value, page)
    else if Truthy(q.url) then Detail(q.url.value)
    else Invalid
  }

  /** A request without any parameter is served the first page of the home
      listing: it does not reach the 400. */
  lemma NoParametersIsHome()
    ensures Dispatch(Query(None, None, None, None)) == Home("1")
    ensures Dispatch(Query(Some(""), Some(""), Some(""), Some(""))) == Home("1")
  {
  }

  // =====================================================================
  // Upstream URLs

  const Origin := "https://nekopoi.care"
  const Marker := "/category/"

  /** The page of the home listing: the bare origin for the string "1",
      otherwise a numbered page segment. */
  function HomeUrl(page: string): (r: string)
    ensures r == Origin <==> page == "1"
    ensures |Origin| <= |r| && r[..|Origin|] == Origin
  {
    if page == "1" then Origin else Origin + "/page/" + page
  }

  /** The page of a category listing: the category path for the string "1",
      otherwise the category path with a numbered page segment. */
  function GenreUrl(genre: string, page: string): (r: string)
    ensures r == Origin + Marker + genre <==> page == "1"
    ensures |Origin + Marker + genre| <= |r| && r[..|Origin + Marker + genre|] == Origin + Marker + genre
  {
    if page == "1" then Origin + Marker + genre
    else Origin + Marker + genre + "/page/" + page
  }

  /** Distinct page strings give distinct home URLs. */
  lemma HomeUrlInjective(p1: string, p2: string)
    requires HomeUrl(p1) == HomeUrl(p2)
    ensures p1 == p2
  {
    var n := |Origin + "/page/"|;
    if p1 != "1" && p2 != "1" {
      assert HomeUrl(p1)[n..] == p1;
      assert HomeUrl(p2)[n..] == p2;
    }
  }

  /** The page comparison is on the string: "01" is read as page 1 but is
      fetched as a numbered page. */
  lemma PageComparedAsString()
    ensures HomeUrl("01") == Origin + "/page/01"
    ensures ParseInt("01") == ParseInt("1") == Some(1)
  {
    assert LeadingDigits("01") == 2;
    assert "01"[..2] == "01";
  }

  /** For slugs without '/', distinct (genre, page) pairs give distinct
      category URLs. */
  lemma GenreUrlInjective(g1: string, p1: string, g2: string, p2: string)
    requires '/' !in g1 && '/' !in g2
    requires GenreUrl(g1, p1) == GenreUrl(g2, p2)
    ensures g1 == g2 && p1 == p2
  {
    var base := Origin + Marker;
    var t1 := PageSuffix(p1);
    var t2 := PageSuffix(p2);
    assert GenreUrl(g1, p1) == base + (g1 + t1);
    assert GenreUrl(g2, p2) == base + (g2 + t2);
    assert g1 + t1 == GenreUrl(g1, p1)[|base|..] == g2 + t2;
    SegmentUnique(g1, t1, g2, t2);
    if p1 != "1" && p2 != "1" {
      assert t1[6..] == p1;
      assert t2[6..] == p2;
    }
  }

  /** What follows the slug in a category URL. */
  function PageSuffix(page: string): (r: string)
    ensures r == [] || r[0] == '/'
    ensures r == [] <==> page == "1"
  {
    if page == "1" then "" else "/page/" + page
  }

  /** A slug without '/' runs up to the first '/' or the end, so it can be
      read back from what follows it. */
  lemma SegmentUnique(g1: string, t1: string, g2: string, t2: string)
    requires '/' !in g1 && '/' !in g2
    requires t1 == [] || t1[0] == '/'
    requires t2 == [] || t2[0] == '/'
    requires g1 + t1 == g2 + t2
    ensures g1 == g2 && t1 == t2
  {
    var v := g1 + t1;
    assert forall i :: 0 <= i < |g1| ==> v[i] == g1[i] != '/';
    assert forall i :: 0 <= i < |g2| ==> v[i] == g2[i] != '/';
    assert |v| == |g1| || v[|g1|] == '/';
    assert |v| == |g2| || v[|g2|] == '/';
    assert |g1| == |g2|;
    assert g1 == v[..|g1|] == g2;
    assert t1 == v[|g1|..] == t2;
  }

  /** Without that restriction two requests can fetch the same page. */
  lemma GenreUrlCollision()
    ensures GenreUrl("a/page/2", "1") == GenreUrl("a", "2")
  {
  }

  // =====================================================================
  // Genre slugs

  /** `href?.split('/category/')[1]?.replace('/', '')`: the text between the
      first and the second marker (or the end), without its first '/';
      undefined when the href is absent or has no marker. */
  function Slug(href: Option<string>): (r: Option<string>)
    ensures r.None? <==> href.None? || forall j :: !OccursAt(href.value, Marker, j)
  {
    match href
    case None => None
    case Some(h) =>
      match IndexOf(h, Marker)
      case None => None
      case Some(i) =>
        var rest := h[i + |Marker|..];
        var piece := match IndexOf(rest, Marker) case None => rest case Some(j) => rest[..j];
        Some(RemoveFirst(piece, '/'))
  }

  /** The slug of `pre + "/category/" + rest`, where the marker first occurs
      after `pre` and not again in `rest`, is `rest` without its first '/'. */
  lemma SlugAfterMarker(pre: string, rest: string)
    requires forall j :: 0 <= j < |pre| ==> !OccursAt(pre + Marker, Marker, j)
    requires forall j :: !OccursAt(rest, Marker, j)
    ensures Slug(Some(pre + Marker + rest)) == Some(RemoveFirst(rest, '/'))
  {
    FirstMarkerAt(pre, rest);
    assert (pre + Marker + rest)[|pre| + |Marker|..] == rest;
  }

  /** The slug is the text between the first and the second marker, without
      its first '/': `split('/category/')[1]` stops at the second marker. */
  lemma SlugBetweenMarkers(pre: string, mid: string, post: string)
    requires forall j :: 0 <= j < |pre| ==> !OccursAt(pre + Marker, Marker, j)
    requires forall j :: 0 <= j < |mid| ==> !OccursAt(mid + Marker, Marker, j)
    ensures Slug(Some(pre + Marker + (mid + Marker + post))) == Some(RemoveFirst(mid, '/'))
  {
    var rest := mid + Marker + post;
    FirstMarkerAt(pre, rest);
    assert (pre + Marker + rest)[|pre| + |Marker|..] == rest;
    FirstMarkerAt(mid, post);
    assert rest[..|mid|] == mid;
  }

  /** When no marker starts inside `x`, the first marker of
      `x + Marker + y` is the one right after `x`. */
  lemma FirstMarkerAt(x: string, y: string)
    requires forall j :: 0 <= j < |x| ==> !OccursAt(x + Marker, Marker, j)
    ensures IndexOf(x + Marker + y, Marker) == Some(|x|)
  {
    var h := x + Marker + y;
    var k := |x| + |Marker|;
    assert OccursAt(h, Marker, |x|) by {
      assert h[|x|..k] == Marker;
    }
    assert h[..k] == x + Marker;
    forall j | 0 <= j < |x| ensures !OccursAt(h, Marker, j) {
      assert h[j..j + |Marker|] == h[..k][j..j + |Marker|];
      assert OccursAt(h, Marker, j) == OccursAt(x + Marker, Marker, j);
    }
    var r := IndexOf(h, Marker);
    assert r.Some? && r.value <= |x|;
    assert !(r.value < |x|);
  }

  /** An occurrence of the marker starts with "/c". */
  lemma OccurrenceStart(s: string, j: nat)
    ensures OccursAt(s, Marker, j) ==> s[j] == '/' && s[j + 1] == 'c'
  {
  }

  /** No marker starts inside a prefix that never has 'c' right after '/'. */
  lemma NoMarkerInside(pre: string)
    requires forall j :: 0 <= j < |pre| - 1 ==> !(pre[j] == '/' && pre[j + 1] == 'c')
    ensures forall j :: 0 <= j < |pre| ==> !OccursAt(pre + Marker, Marker, j)
  {
    var s := pre + Marker;
    forall j | 0 <= j < |pre| ensures !OccursAt(s, Marker, j) {
      OccurrenceStart(s, j);
      assert s[j] == pre[j];
      if j + 1 < |pre| {
        assert s[j + 1] == pre[j + 1];
      } else {
        assert s[j + 1] == Marker[0];
      }
    }
  }

  /** No marker starts inside the origin. */
  lemma OriginHasNoMarker()
    ensures forall j :: 0 <= j < |Origin| ==> !OccursAt(Origin + Marker, Marker, j)
  {
    assert forall j :: 0 <= j < |Origin| - 1 ==> !(Origin[j] == '/' && Origin[j + 1] == 'c');
    NoMarkerInside(Origin);
  }

  /** After the first marker, the slug is the name up to its '/' followed by
      whatever comes after that '/'. */
  lemma SlugOfPath(pre: string, name: string, sub: string)
    requires forall j :: 0 <= j < |pre| ==> !OccursAt(pre + Marker, Marker, j)
    requires '/' !in name
    requires forall j :: !OccursAt(name + "/" + sub, Marker, j)
    ensures Slug(Some(pre + Marker + name + "/" + sub)) == Some(name + sub)
  {
    var rest := name + "/" + sub;
    assert pre + Marker + name + "/" + sub == pre + Marker + rest;
    assert RemoveFirst(rest, '/') == name + sub by {
      RemoveFirstSplits(name, '/', sub);
      assert name + ['/'] + sub == rest;
    }
    SlugAfterMarker(pre, rest);
  }

  /** A category menu link `…/category/<name>/` gives back `name`, the slug
      from which the category URL of `name` is built. */
  lemma SlugOfMenuLink(name: string)
    requires '/' !in name
    ensures Slug(Some(Origin + Marker + name + "/")) == Some(name)
    ensures Slug(Some(GenreUrl(name, "1") + "/")) == Some(name)
  {
    var rest := name + "/" + "";
    forall j: nat ensures !OccursAt(rest, Marker, j) {
      OccurrenceStart(rest, j);
      if j < |name| {
        assert rest[j] == name[j];
      }
    }
    OriginHasNoMarker();
    SlugOfPath(Origin, name, "");
    assert Origin + Marker + name + "/" + "" == Origin + Marker + name + "/";
    assert name + "" == name;
  }

  // =====================================================================
  // Upstream pages, as the elements the selectors matched

  /** An anchor: its text and its `href`, if any. */
  datatype Anchor = Anchor(text: string, href: Option<string>)

  /** A `.eropost` card: the text and `href` of its `.title a`, the `src` of
      its `.img-thumb img`, and the text of each `.cat-links a`. */
  datatype Card = Card(titleText: string, titleHref: Option<string>, thumbSrc: Option<string>, tagTexts: seq<string>)

  /** A listing page: the cards, the `.pagination a` anchors and the
      category-menu anchors. */
  datatype ListingHtml = ListingHtml(cards: seq<Card>, pagerLinks: seq<Anchor>, menuLinks: seq<Anchor>)

  /** A `.eplister ul li` row: texts of `.epl-title` and `.epl-date`, `href`
      of its anchor. */
  datatype EpisodeRow = EpisodeRow(titleText: string, dateText: string, href: Option<string>)

  /** A `.related-posts .item-related` card: text and `href` of its title
      anchor, `src` of its image. */
  datatype RelatedCard = RelatedCard(titleText: string, href: Option<string>, thumbSrc: Option<string>)

  /** A detail page: title text, main image `src`, category-tag texts, the
      `src` of each embedded iframe, the `href` of each redirect anchor, the
      download-box anchors, the episode rows and the related cards. */
  datatype DetailHtml = DetailHtml(
    titleText: string,
    imageSrc: Option<string>,
    tagTexts: seq<string>,
    frameSrcs: seq<Option<string>>,
    mirrorHrefs: seq<Option<string>>,
    downloadLinks: seq<Anchor>,
    episodeRows: seq<EpisodeRow>,
    relatedCards: seq<RelatedCard>)

  /** One upstream GET: the page, or the message of the exception thrown. */
  datatype Fetched<+T> = Fetched(doc: T) | Failed(message: string)

  /** The upstream site, as what a GET of each URL yields. */
  datatype Site = Site(listing: string -> Fetched<ListingHtml>, detail: string -> Fetched<DetailHtml>)

  // =====================================================================
  // Records and responses

  /** The `type` of a listing item: 'episode' on home, 'genre' on a category. */
  datatype ItemType = EpisodeType | GenreType

  datatype ListingItem = ListingItem(title: string, link: Option<string>, thumbnail: Option<string>, genres: seq<string>, kind: ItemType)
  datatype PageLink = PageLink(page: string, url: Option<string>)
  datatype GenreTag = GenreTag(name: string, slug: Option<string>)
  datatype Player = KStream | Mirror
  datatype Stream = Stream(player: Player, url: string)
  datatype Download = Download(quality: string, url: string)
  datatype EpisodeEntry = EpisodeEntry(title: string, date: string, link: Option<string>)
  datatype RelatedEntry = RelatedEntry(title: string, link: Option<string>, thumbnail: Option<string>)

  /** The `data` object of a successful response (`genreTags` is the JSON
      key `genres` of the home listing). */
  datatype Data =
    | HomeData(items: seq<ListingItem>, pagination: seq<PageLink>, genreTags: seq<GenreTag>,
               currentPage: Option<nat>, totalItems: nat)
    | GenreData(items: seq<ListingItem>, genre: string, currentPage: Option<nat>, totalItems: nat)
    | DetailData(title: string, thumbnail: Option<string>, genres: seq<string>, streams: seq<Stream>,
                 downloads: seq<Download>, episodes: seq<EpisodeEntry>, related: seq<RelatedEntry>,
                 sourceUrl: string)

  /** `{success: true, data}` or `{error}`. */
  datatype Body = Success(data: Data) | Failure(error: string)
  datatype Response = Response(status: nat, body: Body)

  // =====================================================================
  // How matched elements become records

  /** One trimmed text per element, in order. */
  predicate TrimmedEach(texts: seq<string>, out: seq<string>) {
    |out| == |texts| && forall i :: 0 <= i < |texts| ==> out[i] == Trim(texts[i])
  }

  /** The listing item built from one card. */
  predicate ItemOf(card: Card, kind: ItemType, item: ListingItem) {
    && item.title == Trim(card.titleText)
    && item.link == card.titleHref
    && item.thumbnail == card.thumbSrc
    && TrimmedEach(card.tagTexts, item.genres)
    && item.kind == kind
  }

  /** One item per card, in document order. */
  predicate ItemsOf(cards: seq<Card>, kind: ItemType, items: seq<ListingItem>) {
    |items| == |cards| && forall i :: 0 <= i < |cards| ==> ItemOf(cards[i], kind, items[i])
  }

  function PageLinkOf(a: Anchor): PageLink {
    PageLink(Trim(a.text), a.href)
  }

  function GenreTagOf(a: Anchor): GenreTag {
    GenreTag(Trim(a.text), Slug(a.href))
  }

  function EpisodeOf(row: EpisodeRow): EpisodeEntry {
    EpisodeEntry(Trim(row.titleText), Trim(row.dateText), row.href)
  }

  function RelatedEntryOf(card: RelatedCard): RelatedEntry {
    RelatedEntry(Trim(card.titleText), card.href, card.thumbSrc)
  }

  /** One pager entry per anchor, in order. */
  predicate PagerOf(links: seq<Anchor>, pager: seq<PageLink>) {
    |pager| == |links| && forall i :: 0 <= i < |links| ==> pager[i] == PageLinkOf(links[i])
  }

  /** One category tag per menu anchor, in order. */
  predicate GenreTagsOf(links: seq<Anchor>, tags: seq<GenreTag>) {
    |tags| == |links| && forall i :: 0 <= i < |links| ==> tags[i] == GenreTagOf(links[i])
  }

  /** One episode per row, in order, none dropped. */
  predicate EpisodesOf(rows: seq<EpisodeRow>, eps: seq<EpisodeEntry>) {
    |eps| == |rows| && forall i :: 0 <= i < |rows| ==> eps[i] == EpisodeOf(rows[i])
  }

  /** One related entry per card, in order, none dropped. */
  predicate RelatedOf(cards: seq<RelatedCard>, rel: seq<RelatedEntry>) {
    |rel| == |cards| && forall i :: 0 <= i < |cards| ==> rel[i] == RelatedEntryOf(cards[i])
  }

  /** An iframe contributes a KStream entry when its `src` is present and
      contains "http". */
  function KStreamOf(src: Option<string>): Option<Stream> {
    if Truthy(src) && Contains(src.value, "http") then Some(Stream(KStream, src.value)) else None
  }

  /** A redirect anchor contributes a Mirror entry when its `href` is truthy. */
  function MirrorOf(href: Option<string>): Option<Stream> {
    if Truthy(href) then Some(Stream(Mirror, href.value)) else None
  }

  /** A download-box anchor contributes when both its trimmed text and its
      `href` are non-empty. */
  function DownloadOf(a: Anchor): (r: Option<Download>)
    ensures r.Some? <==> a.href.Some? && a.href.value != "" && exists i :: 0 <= i < |a.text| && !IsSpace(a.text[i])
    ensures r.Some? ==> r.value == Download(Trim(a.text), a.href.value)
  {
    var text := Trim(a.text);
    if Truthy(a.href) && text != "" then Some(Download(text, a.href.value)) else None
  }

  /** Every KStream entry, then every Mirror entry. */
  function StreamsOf(frames: seq<Option<string>>, mirrors: seq<Option<string>>): seq<Stream> {
    FilterMap(frames, KStreamOf) + FilterMap(mirrors, MirrorOf)
  }

  function DownloadsOf(links: seq<Anchor>): seq<Download> {
    FilterMap(links, DownloadOf)
  }

  /** All KStream entries come before all Mirror entries, and there are at
      most as many streams as iframes and redirect anchors together. */
  lemma StreamsKStreamFirst(frames: seq<Option<string>>, mirrors: seq<Option<string>>)
    ensures |StreamsOf(frames, mirrors)| <= |frames| + |mirrors|
    ensures forall i, j :: 0 <= i < j < |StreamsOf(frames, mirrors)| && StreamsOf(frames, mirrors)[i].player == Mirror
              ==> StreamsOf(frames, mirrors)[j].player == Mirror
  {
    var ks, ms := FilterMap(frames, KStreamOf), FilterMap(mirrors, MirrorOf);
    var r := ks + ms;
    var ki := FilterMapPositions(frames, KStreamOf);
    forall k | 0 <= k < |ks| ensures ks[k].player == KStream {
      assert KStreamOf(frames[ki[k]]) == Some(ks[k]);
    }
    forall i, j | 0 <= i < j < |r| && r[i].player == Mirror ensures r[j].player == Mirror {
      assert i >= |ks|;
      var mi := FilterMapPositions(mirrors, MirrorOf);
      assert r[j] == ms[j - |ks|];
      assert MirrorOf(mirrors[mi[j - |ks|]]) == Some(ms[j - |ks|]);
    }
  }

  /** A KStream entry with url `u` exists exactly when some iframe's `src`
      is `u` and contains "http"; a Mirror entry with url `u` exactly when
      some redirect anchor's `href` is the non-empty `u`. */
  lemma StreamMembership(frames: seq<Option<string>>, mirrors: seq<Option<string>>, u: string)
    ensures Stream(KStream, u) in StreamsOf(frames, mirrors) <==> Some(u) in frames && Contains(u, "http")
    ensures Stream(Mirror, u) in StreamsOf(frames, mirrors) <==> Some(u) in mirrors && u != ""
  {
    var ks, ms := FilterMap(frames, KStreamOf), FilterMap(mirrors, MirrorOf);
    FilterMapMember(frames, KStreamOf, Stream(KStream, u));
    FilterMapMember(frames, KStreamOf, Stream(Mirror, u));
    FilterMapMember(mirrors, MirrorOf, Stream(KStream, u));
    FilterMapMember(mirrors, MirrorOf, Stream(Mirror, u));
    if Some(u) in frames && Contains(u, "http") {
      var i :| 0 <= i < |frames| && frames[i] == Some(u);
      assert KStreamOf(frames[i]) == Some(Stream(KStream, u));
    }
    if Some(u) in mirrors && u != "" {
      var i :| 0 <= i < |mirrors| && mirrors[i] == Some(u);
      assert MirrorOf(mirrors[i]) == Some(Stream(Mirror, u));
    }
  }

  /** One http iframe and one redirect anchor give exactly two streams,
      the iframe's first. */
  lemma TwoStreamSources(src: string, href: string)
    requires Contains(src, "http") && href != ""
    ensures StreamsOf([Some(src)], [Some(href)]) == [Stream(KStream, src), Stream(Mirror, href)]
  {
  }

  /** A download entry is kept exactly when its anchor has a non-empty
      `href` and text that is not all whitespace; it carries the trimmed text
      and the `href`; there are never more entries than anchors. */
  lemma DownloadsKept(links: seq<Anchor>, d: Download)
    ensures |DownloadsOf(links)| <= |links|
    ensures d in DownloadsOf(links) <==>
              exists i :: 0 <= i < |links| && links[i].href == Some(d.url) && d.url != ""
                          && d.quality == Trim(links[i].text) && d.quality != ""
  {
    FilterMapMember(links, DownloadOf, d);
  }

  // =====================================================================
  // The `.each` loops

  /** `.each(… push(text().trim()))` */
  method TrimEach(texts: seq<string>) returns (out: seq<string>)
    ensures TrimmedEach(texts, out)
  {
    out := [];
    for i := 0 to |texts|
      invariant out == Map(texts[..i], Trim)
    {
      out := out + [Trim(texts[i])];
      MapSnoc(texts, i, Trim);
    }
    assert texts[..|texts|] == texts;
  }

  /** The `.eropost` loop of both listing scrapers. */
  method CollectItems(cards: seq<Card>, kind: ItemType) returns (items: seq<ListingItem>)
    ensures ItemsOf(cards, kind, items)
  {
    items := [];
    for i := 0 to |cards|
      invariant |items| == i
      invariant forall j :: 0 <= j < i ==> ItemOf(cards[j], kind, items[j])
    {
      var card := cards[i];
      var title := Trim(card.titleText);
      var genreList := TrimEach(card.tagTexts);
      var item := ListingItem(title, card.titleHref, card.thumbSrc, genreList, kind);
      assert ItemOf(card, kind, item);
      items := items + [item];
    }
  }

  /** The `.pagination a` loop. */
  method CollectPager(links: seq<Anchor>) returns (pager: seq<PageLink>)
    ensures PagerOf(links, pager)
  {
    pager := [];
    for i := 0 to |links|
      invariant pager == Map(links[..i], PageLinkOf)
    {
      pager := pager + [PageLinkOf(links[i])];
      MapSnoc(links, i, PageLinkOf);
    }
    assert links[..|links|] == links;
  }

  /** The category-menu loop. */
  method CollectGenreTags(links: seq<Anchor>) returns (tags: seq<GenreTag>)
    ensures GenreTagsOf(links, tags)
  {
    tags := [];
    for i := 0 to |links|
      invariant tags == Map(links[..i], GenreTagOf)
    {
      tags := tags + [GenreTagOf(links[i])];
      MapSnoc(links, i, GenreTagOf);
    }
    assert links[..|links|] == links;
  }

  /** The iframe loop, then the redirect-anchor loop, both pushing onto one
      list. */
  method CollectStreams(frames: seq<Option<string>>, mirrors: seq<Option<string>>) returns (streams: seq<Stream>)
    ensures streams == StreamsOf(frames, mirrors)
  {
    streams := [];
    for i := 0 to |frames|
      invariant streams == FilterMap(frames[..i], KStreamOf)
    {
      var src := frames[i];
      if Truthy(src) && Contains(src.value, "http") {
        streams := streams + [Stream(KStream, src.value)];
      }
      FilterMapSnoc(frames, i, KStreamOf);
    }
    assert frames[..|frames|] == frames;
    var ks := streams;
    for i := 0 to |mirrors|
      invariant streams == ks + FilterMap(mirrors[..i], MirrorOf)
    {
      var href := mirrors[i];
      if Truthy(href) {
        streams := streams + [Stream(Mirror, href.value)];
      }
      FilterMapSnoc(mirrors, i, MirrorOf);
    }
    assert mirrors[..|mirrors|] == mirrors;
  }

  /** The `.dlbox a` loop. */
  method CollectDownloads(links: seq<Anchor>) returns (downloads: seq<Download>)
    ensures downloads == DownloadsOf(links)
  {
    downloads := [];
    for i := 0 to |links|
      invariant downloads == FilterMap(links[..i], DownloadOf)
    {
      var text := Trim(links[i].text);
      var href := links[i].href;
      if Truthy(href) && text != "" {
        downloads := downloads + [Download(text, href.value)];
      }
      FilterMapSnoc(links, i, DownloadOf);
    }
    assert links[..|links|] == links;
  }

  /** The `.eplister ul li` loop. */
  method CollectEpisodes(rows: seq<EpisodeRow>) returns (eps: seq<EpisodeEntry>)
    ensures EpisodesOf(rows, eps)
  {
    eps := [];
    for i := 0 to |rows|
      invariant eps == Map(rows[..i], EpisodeOf)
    {
      eps := eps + [EpisodeOf(rows[i])];
      MapSnoc(rows, i, EpisodeOf);
    }
    assert rows[..|rows|] == rows;
  }

  /** The `.related-posts .item-related` loop. */
  method CollectRelated(cards: seq<RelatedCard>) returns (rel: seq<RelatedEntry>)
    ensures RelatedOf(cards, rel)
  {
    rel := [];
    for i := 0 to |cards|
      invariant rel == Map(cards[..i], RelatedEntryOf)
    {
      rel := rel + [RelatedEntryOf(cards[i])];
      MapSnoc(cards, i, RelatedEntryOf);
    }
    assert cards[..|cards|] == cards;
  }

  // =====================================================================
  // The scrapers and the endpoint

  /** A failed fetch is a 500 carrying the exception's message. */
  predicate FailureResponse(message: string, resp: Response) {
    resp == Response(500, Failure(message))
  }

  predicate HomeResponse(page: string, fetched: Fetched<ListingHtml>, resp: Response) {
    match fetched
    case Failed(message) => FailureResponse(message, resp)
    case Fetched(doc) =>
      resp.status == 200 && resp.body.Success? && resp.body.data.HomeData? &&
      (var d := resp.body.data;
       && ItemsOf(doc.cards, EpisodeType, d.items)
       && PagerOf(doc.pagerLinks, d.pagination)
       && GenreTagsOf(doc.menuLinks, d.genreTags)
       && d.currentPage == ParseInt(page)
       && d.totalItems == |d.items|)
  }

  predicate GenreResponse(genre: string, page: string, fetched: Fetched<ListingHtml>, resp: Response) {
    match fetched
    case Failed(message) => FailureResponse(message, resp)
    case Fetched(doc) =>
      resp.status == 200 && resp.body.Success? && resp.body.data.GenreData? &&
      (var d := resp.body.data;
       && ItemsOf(doc.cards, GenreType, d.items)
       && d.genre == genre
       && d.currentPage == ParseInt(page)
       && d.totalItems == |d.items|)
  }

  predicate DetailResponse(url: string, fetched: Fetched<DetailHtml>, resp: Response) {
    match fetched
    case Failed(message) => FailureResponse(message, resp)
    case Fetched(doc) =>
      resp.status == 200 && resp.body.Success? && resp.body.data.DetailData? &&
      (var d := resp.body.data;
       && d.title == Trim(doc.titleText)
       && d.thumbnail == doc.imageSrc
       && TrimmedEach(doc.tagTexts, d.genres)
       && d.streams == StreamsOf(doc.frameSrcs, doc.mirrorHrefs)
       && d.downloads == DownloadsOf(doc.downloadLinks)
       && EpisodesOf(doc.episodeRows, d.episodes)
       && RelatedOf(doc.relatedCards, d.related)
       && d.sourceUrl == url)
  }

  /** `scrapeHome`: fetch the home page for `page` and build the listing,
      the pager, the category menu and the page number. */
  method ScrapeHome(page: string, site: Site) returns (resp: Response)
    ensures HomeResponse(page, site.listing(HomeUrl(page)), resp)
  {
    var targetUrl := HomeUrl(page);
    match site.listing(targetUrl)
    case Failed(message) =>
      resp := Response(500, Failure(message));
    case Fetched(doc) =>
      var items := CollectItems(doc.cards, EpisodeType);
      var pagination := CollectPager(doc.pagerLinks);
      var genres := CollectGenreTags(doc.menuLinks);
      resp := Response(200, Success(HomeData(items, pagination, genres, ParseInt(page), |items|)));
  }

  /** `scrapeGenre`: fetch the category page for `genre` and `page` and
      build the listing; the genre is echoed. */
  method ScrapeGenre(genre: string, page: string, site: Site) returns (resp: Response)
    ensures GenreResponse(genre, page, site.listing(GenreUrl(genre, page)), resp)
  {
    var targetUrl := GenreUrl(genre, page);
    match site.listing(targetUrl)
    case Failed(message) =>
      resp := Response(500, Failure(message));
    case Fetched(doc) =>
      var items := CollectItems(doc.cards, GenreType);
      resp := Response(200, Success(GenreData(items, genre, ParseInt(page), |items|)));
  }

  /** `scrapeDetail`: fetch `url` and build the detail record. */
  method ScrapeDetail(url: string, site: Site) returns (resp: Response)
    ensures DetailResponse(url, site.detail(url), resp)
  {
    match site.detail(url)
    case Failed(message) =>
      resp := Response(500, Failure(message));
    case Fetched(doc) =>
      var title := Trim(doc.titleText);
      var genres := TrimEach(doc.tagTexts);
      var streams := CollectStreams(doc.frameSrcs, doc.mirrorHrefs);
      var downloads := CollectDownloads(doc.downloadLinks);
      var episodes := CollectEpisodes(doc.episodeRows);
      var related := CollectRelated(doc.relatedCards);
      resp := Response(200, Success(DetailData(title, doc.imageSrc, genres, streams, downloads, episodes, related, url)));
  }

  /** `GET /api/scrape`. */
  method Get(q: Query, site: Site) returns (resp: Response)
    ensures match Dispatch(q)
            case Home(page) => HomeResponse(page, site.listing(HomeUrl(page)), resp)
            case Genre(genre, page) => GenreResponse(genre, page, site.listing(GenreUrl(genre, page)), resp)
            case Detail(url) => DetailResponse(url, site.detail(url), resp)
            case Invalid => resp == Response(400, Failure(InvalidMessage))
  {
    var url := q.url;
    var page := OrDefault(q.page, "1");
    var genre := q.genre;
    var kind := OrDefault(q.kind, "home");
    if !Truthy(url) && kind == "home" {
      resp := ScrapeHome(page, site);
      return;
    }
    if Truthy(genre) {
      resp := ScrapeGenre(genre.value, page, site);
      return;
    }
    if Truthy(url) {
      resp := ScrapeDetail(url.value, site);
      return;
    }
    resp := Response(400, Failure(InvalidMessage));
  }
}
