/** The browser page: six state cells, three fetch handlers that call the
    scrape endpoint, and the Previous, Next and Back buttons that pick the
    next page and the fetch to run. Each handler sets `loading`, awaits one
    request, updates the cells on success and clears `loading` in any case.

    A request is modelled by the query it sends and by its outcome, which is
    a parameter: the body of a response with a 2xx status, or a rejection. */
module Page {
  import opened Js
  import Scrape

  datatype View = HomeView | GenreView | DetailView

  /** What one axios GET of the endpoint gives the handler. */
  datatype Fetch = Resolved(body: Scrape.Body) | Rejected(message: string)

  // =====================================================================
  // The requests the page sends

  /** `/api/scrape?type=home&page=${pageNum}` */
  function HomeQuery(pageNum: nat): Scrape.Query {
    Scrape.Query(None, Some(NatToDecimal(pageNum)), None, Some("home"))
  }

  /** `/api/scrape?genre=${genre}&page=${pageNum}`: no `type`. */
  function GenreQuery(genre: string, pageNum: nat): Scrape.Query {
    Scrape.Query(None, Some(NatToDecimal(pageNum)), Some(genre), None)
  }

  /** `/api/scrape?url=${encodeURIComponent(url)}`, as the endpoint decodes it. */
  function DetailQuery(url: string): Scrape.Query {
    Scrape.Query(Some(url), None, None, None)
  }

  /** A home request reaches the home scraper with the decimal page number;
      page 1 fetches the bare origin and every other page a numbered page;
      the response echoes the number. */
  lemma HomeRequestServed(n: nat)
    ensures Scrape.Dispatch(HomeQuery(n)) == Scrape.Home(NatToDecimal(n))
    ensures Scrape.HomeUrl(NatToDecimal(n)) == Scrape.Origin <==> n == 1
    ensures ParseInt(NatToDecimal(n)) == Some(n)
  {
    DecimalIsOne(n);
    ParseIntOfDecimal(n);
  }

  /** A genre request sends no `type`, which defaults to "home", and the home
      test runs first: the page receives the home listing of that page, not
      the category. */
  lemma GenreRequestServedByHome(genre: string, n: nat)
    ensures Scrape.Dispatch(GenreQuery(genre, n)) == Scrape.Home(NatToDecimal(n))
  {
  }

  /** A detail request reaches the detail scraper with its url, unless the
      url is empty: then it is the first page of the home listing. */
  lemma DetailRequestServed(url: string)
    ensures url != "" ==> Scrape.Dispatch(DetailQuery(url)) == Scrape.Detail(url)
    ensures url == "" ==> Scrape.Dispatch(DetailQuery(url)) == Scrape.Home("1")
  {
  }

  /** How axios settles a request to the endpoint: a response with a 2xx
      status resolves with its body, any other status rejects. */
  function Outcome(resp: Scrape.Response): Fetch {
    if 200 <= resp.status < 300 then Resolved(resp.body)
    else Rejected("Request failed with status code " + NatToDecimal(resp.status))
  }

  // =====================================================================
  // What is on screen

  datatype Screen = Spinner | ListingScreen | DetailScreen

  /** The genres a listing card shows: `genres.slice(0, 3)`, the first three
      or all of them when there are fewer. */
  function CardGenres(genres: seq<string>): (r: seq<string>)
    ensures |r| <= 3 && |r| <= |genres| && r == genres[..|r|]
    ensures |r| == 3 || r == genres
  {
    if |genres| <= 3 then genres else genres[..3]
  }

  // =====================================================================
  // The component's state and handlers

  class HomePage {
    var data: Option<Scrape.Body>
    var loading: bool
    var page: nat
    var selectedGenre: string
    var detailData: Option<Scrape.Body>
    var view: View

    /** The page number never drops below 1, and the detail view always has
        a detail record to show. */
    ghost predicate Valid()
      reads this
    {
      page >= 1 && (view == DetailView ==> detailData.Some?)
    }

    /** The initial values of the six `useState` cells. */
    constructor ()
      ensures Valid()
      ensures data == None && loading && page == 1 && selectedGenre == ""
      ensures detailData == None && view == HomeView
    {
      data := None;
      loading := true;
      page := 1;
      selectedGenre := "";
      detailData := None;
      view := HomeView;
    }

    /** The spinner while loading; otherwise the detail view exactly when
        `view` is 'detail', and the listing for both other views. The detail
        view always has a detail record to draw. */
    function Shown(): (s: Screen)
      reads this
      ensures s == Spinner <==> loading
      ensures s == DetailScreen <==> !loading && view == DetailView
      ensures Valid() && s == DetailScreen ==> detailData.Some?
    {
      if loading then Spinner
      else if view == DetailView then DetailScreen
      else ListingScreen
    }

    /** The category menu (with the Home button) and the pager are drawn
        only for a body that carries `genres` and `pagination`, that is a
        home listing; a category listing has neither. */
    predicate MenuAndPagerShown()
      reads this
      ensures MenuAndPagerShown() ==> !loading && view != DetailView
      ensures data.Some? && data.value.Success? && data.value.data.GenreData? ==> !MenuAndPagerShown()
    {
      Shown() == ListingScreen && data.Some? && data.value.Success? && data.value.data.HomeData?
    }

    /** `fetchHome(pageNum)`: on success the listing is shown and the detail
        record dropped; the page number and the selected genre are left as
        they are, whatever page was fetched. On failure only `loading`
        moves. */
    method FetchHome(pageNum: nat, outcome: Fetch) returns (sent: Scrape.Query)
      requires Valid()
      modifies this
      ensures Valid()
      ensures sent == HomeQuery(pageNum)
      ensures !loading && page == old(page) && selectedGenre == old(selectedGenre)
      ensures outcome.Resolved? ==> data == Some(outcome.body) && view == HomeView && detailData == None
      ensures outcome.Rejected? ==> data == old(data) && view == old(view) && detailData == old(detailData)
    {
      loading := true;
      sent := HomeQuery(pageNum);
      match outcome {
        case Resolved(body) =>
          data := Some(body);
          view := HomeView;
          detailData := None;
        case Rejected(_) =>
      }
      loading := false;
    }

    /** `fetchGenre(genre, pageNum)`: on success the listing is shown, the
        genre remembered and the detail record dropped; the page number is
        left as it is. On failure only `loading` moves. */
    method FetchGenre(genre: string, pageNum: nat, outcome: Fetch) returns (sent: Scrape.Query)
      requires Valid()
      modifies this
      ensures Valid()
      ensures sent == GenreQuery(genre, pageNum)
      ensures !loading && page == old(page)
      ensures outcome.Resolved? ==>
                data == Some(outcome.body) && view == GenreView && selectedGenre == genre && detailData == None
      ensures outcome.Rejected? ==>
                data == old(data) && view == old(view) && selectedGenre == old(selectedGenre) && detailData == old(detailData)
    {
      loading := true;
      sent := GenreQuery(genre, pageNum);
      match outcome {
        case Resolved(body) =>
          data := Some(body);
          view := GenreView;
          selectedGenre := genre;
          detailData := None;
        case Rejected(_) =>
      }
      loading := false;
    }

    /** `fetchDetail(url)`: on success the detail record is shown; the
        listing data, the page number and the selected genre stay, which is
        what Back goes back to. On failure only `loading` moves. */
    method FetchDetail(url: string, outcome: Fetch) returns (sent: Scrape.Query)
      requires Valid()
      modifies this
      ensures Valid()
      ensures sent == DetailQuery(url)
      ensures !loading && data == old(data) && page == old(page) && selectedGenre == old(selectedGenre)
      ensures outcome.Resolved? ==> detailData == Some(outcome.body) && view == DetailView
      ensures outcome.Rejected? ==> view == old(view) && detailData == old(detailData)
    {
      loading := true;
      sent := DetailQuery(url);
      match outcome {
        case Resolved(body) =>
          detailData := Some(body);
          view := DetailView;
        case Rejected(_) =>
      }
      loading := false;
    }

    /** The mount effect: `fetchHome()` with its default page 1. */
    method Mount(outcome: Fetch) returns (sent: Scrape.Query)
      requires Valid()
      modifies this
      ensures Valid()
      ensures sent == HomeQuery(1)
      ensures !loading && page == old(page) && selectedGenre == old(selectedGenre)
      ensures outcome.Resolved? ==> data == Some(outcome.body) && view == HomeView && detailData == None
      ensures outcome.Rejected? ==> data == old(data) && view == old(view) && detailData == old(detailData)
    {
      sent := FetchHome(1, outcome);
    }

    /** The Previous button. It is disabled on page 1, so a click there does
        nothing. Otherwise it goes one page back (the handler's own clamp at
        1 is then never needed) and fetches the listing of the current view
        again for that page. The page number moves even when the fetch
        fails. */
    method Previous(outcome: Fetch) returns (sent: Option<Scrape.Query>)
      requires Valid()
      modifies this
      ensures Valid()
      ensures old(page) == 1 ==> sent == None && unchanged(this)
      ensures old(page) != 1 ==> page == old(page) - 1
      ensures old(page) != 1 && old(view) == HomeView ==> sent == Some(HomeQuery(page))
      ensures old(page) != 1 && old(view) == GenreView ==> sent == Some(GenreQuery(old(selectedGenre), page))
      ensures view == old(view) && selectedGenre == old(selectedGenre)
      ensures old(view) == DetailView ==>
                sent == None && data == old(data) && detailData == old(detailData) && loading == old(loading)
      ensures sent.Some? ==> !loading
      ensures sent.Some? && outcome.Resolved? ==> data == Some(outcome.body) && detailData == None
      ensures outcome.Rejected? ==> data == old(data) && detailData == old(detailData)
    {
      sent := None;
      if page != 1 {
        var newPage := if page > 1 then page - 1 else 1;
        var v, genre := view, selectedGenre;
        page := newPage;
        if v == HomeView {
          var q := FetchHome(newPage, outcome);
          sent := Some(q);
        }
        if v == GenreView {
          var q := FetchGenre(genre, newPage, outcome);
          sent := Some(q);
        }
      }
    }

    /** The Next button: one page forward, then the listing of the current
        view is fetched again for that page. The page number moves even when
        the fetch fails. */
    method Next(outcome: Fetch) returns (sent: Option<Scrape.Query>)
      requires Valid()
      modifies this
      ensures Valid()
      ensures page == old(page) + 1
      ensures old(view) == HomeView ==> sent == Some(HomeQuery(page))
      ensures old(view) == GenreView ==> sent == Some(GenreQuery(old(selectedGenre), page))
      ensures view == old(view) && selectedGenre == old(selectedGenre)
      ensures old(view) == DetailView ==>
                sent == None && data == old(data) && detailData == old(detailData) && loading == old(loading)
      ensures old(view) != DetailView ==> !loading
      ensures old(view) != DetailView && outcome.Resolved? ==> data == Some(outcome.body) && detailData == None
      ensures outcome.Rejected? ==> data == old(data) && detailData == old(detailData)
    {
      var newPage: nat := page + 1;
      var v, genre := view, selectedGenre;
      page := newPage;
      sent := None;
      if v == HomeView {
        var q := FetchHome(newPage, outcome);
        sent := Some(q);
      }
      if v == GenreView {
        var q := FetchGenre(genre, newPage, outcome);
        sent := Some(q);
      }
    }

    /** The Back button: only in the detail view with listing data at hand;
        it fetches the remembered genre when there is one, the home listing
        otherwise, for the current page. */
    method Back(outcome: Fetch) returns (sent: Option<Scrape.Query>)
      requires Valid()
      modifies this
      ensures Valid()
      ensures page == old(page) && selectedGenre == old(selectedGenre)
      ensures old(view) == DetailView && old(data).Some? && old(selectedGenre) != "" ==>
                sent == Some(GenreQuery(old(selectedGenre), old(page)))
      ensures old(view) == DetailView && old(data).Some? && old(selectedGenre) == "" ==>
                sent == Some(HomeQuery(old(page)))
      ensures !(old(view) == DetailView && old(data).Some?) ==> sent == None && unchanged(this)
      ensures sent.Some? && outcome.Resolved? ==>
                && data == Some(outcome.body) && detailData == None && !loading
                && view == (if old(selectedGenre) != "" then GenreView else HomeView)
      ensures sent.Some? && outcome.Rejected? ==>
                data == old(data) && view == old(view) && detailData == old(detailData) && !loading
    {
      sent := None;
      if view == DetailView && data.Some? {
        if selectedGenre != "" {
          var q := FetchGenre(selectedGenre, page, outcome);
          sent := Some(q);
        } else {
          var q := FetchHome(page, outcome);
          sent := Some(q);
        }
      }
    }
  }

  // =====================================================================
  // Sequences of clicks that show how the cells interact

  /** After a genre, the Home button and a card, Back goes to the genre again:
      `fetchHome` never clears the selected genre. */
  method BackAfterHomeReturnsToGenre(genre: string, link: string, home: Scrape.Body, listing: Scrape.Body, detail: Scrape.Body)
    returns (sent: Option<Scrape.Query>)
    requires genre != ""
    ensures sent == Some(GenreQuery(genre, 1))
  {
    var ui := new HomePage();
    var q := ui.Mount(Resolved(home));
    q := ui.FetchGenre(genre, 1, Resolved(listing));   // a genre button
    q := ui.FetchHome(1, Resolved(home));              // the Home button
    q := ui.FetchDetail(link, Resolved(detail));       // a card
    sent := ui.Back(Resolved(listing));
  }

  /** Two pages forward and then the Home button: page 1 is fetched and
      shown, but the page counter still says 3. */
  method HomeButtonKeepsPage(home: Scrape.Body) returns (counter: nat, sent: Scrape.Query, shown: Option<Scrape.Body>)
    ensures counter == 3 && sent == HomeQuery(1) && shown == Some(home)
  {
    var ui := new HomePage();
    var q := ui.Mount(Resolved(home));
    var p := ui.Next(Resolved(home));
    p := ui.Next(Resolved(home));
    sent := ui.FetchHome(1, Resolved(home));           // the Home button
    counter, shown := ui.page, ui.data;
  }

  /** Next whose fetch fails: the counter says page 2 while the listing of
      page 1 stays on screen. */
  method FailedNextMovesCounter(first: Scrape.Body, message: string) returns (counter: nat, shown: Option<Scrape.Body>, screen: Screen)
    ensures counter == 2 && shown == Some(first) && screen == ListingScreen
  {
    var ui := new HomePage();
    var q := ui.Mount(Resolved(first));
    var p := ui.Next(Rejected(message));
    counter, shown, screen := ui.page, ui.data, ui.Shown();
  }

  /** Previous on the first page is disabled: nothing is sent and the first
      listing stays. */
  method PreviousOnFirstPage(first: Scrape.Body, other: Fetch) returns (sent: Option<Scrape.Query>, counter: nat, shown: Option<Scrape.Body>)
    ensures sent == None && counter == 1 && shown == Some(first)
  {
    var ui := new HomePage();
    var q := ui.Mount(Resolved(first));
    sent := ui.Previous(other);
    counter, shown := ui.page, ui.data;
  }

  /** A failed first load leaves the listing view with no data and the
      spinner gone. */
  method FailedMount(message: string) returns (shown: Option<Scrape.Body>, screen: Screen)
    ensures shown == None && screen == ListingScreen
  {
    var ui := new HomePage();
    var q := ui.Mount(Rejected(message));
    shown, screen := ui.data, ui.Shown();
  }

  /** The first load and a genre button, end to end against the endpoint:
      the genre button never shows the category. When the home page can be
      fetched, what is shown afterwards is that home page's listing, with
      the menu and the pager, and the view is called 'genre'; when it cannot,
      nothing is shown. */
  method GenreButtonShowsHome(genre: string, site: Scrape.Site)
    returns (shown: Option<Scrape.Body>, view: View, pager: bool)
    ensures site.listing(Scrape.Origin).Failed? ==> shown == None && !pager
    ensures site.listing(Scrape.Origin).Fetched? ==>
              && shown.Some? && shown.value.Success? && shown.value.data.HomeData?
              && Scrape.ItemsOf(site.listing(Scrape.Origin).doc.cards, Scrape.EpisodeType, shown.value.data.items)
              && view == GenreView && pager
  {
    DecimalIsOne(1);
    var ui := new HomePage();
    var resp := Scrape.Get(HomeQuery(1), site);
    var q := ui.Mount(Outcome(resp));
    GenreRequestServedByHome(genre, 1);
    resp := Scrape.Get(GenreQuery(genre, 1), site);
    q := ui.FetchGenre(genre, 1, Outcome(resp));
    shown, view, pager := ui.data, ui.view, ui.MenuAndPagerShown();
  }
}
