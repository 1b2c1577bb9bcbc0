/** The top-level page selector. The current page starts at "home"; the
    navigation handler stores whatever page name it is given; the gallery and
    the shop get a back callback that always stores "home"; rendering maps
    "pet", "gallery" and "shop" to their views and every other value to the
    home view. The pet view gets no callback at all. */
module PageNavigator {

  /** The page the app starts on, and the one every back button returns to. */
  const Home: string := "home"

  /** The page names the app's own buttons use. */
  const KnownPages: set<string> := {"home", "pet", "gallery", "shop"}

  /** The pages the home view links to: the three navigation portals (pet,
      gallery, shop) and the two hero buttons (pet, shop). */
  const HomeLinks: set<string> := {"pet", "gallery", "shop"}

  /** The top-level view that is on screen. */
  datatype View = HomeView | PetView | GalleryView | ShopView

  /** `renderPage`: exactly one view per page value; any value other than
      "pet", "gallery" or "shop" shows the home view. */
  function RenderPage(page: string): (v: View)
    ensures v == PetView <==> page == "pet"
    ensures v == GalleryView <==> page == "gallery"
    ensures v == ShopView <==> page == "shop"
    ensures v == HomeView <==> page !in HomeLinks
  {
    if page == "pet" then PetView
    else if page == "gallery" then GalleryView
    else if page == "shop" then ShopView
    else HomeView
  }

  /** A user event at the page level: a home-view link, or a back button. */
  datatype UiEvent = Navigate(target: string) | Back

  /** The view on screen has a control that raises this event: only the home
      view navigates (to its links), only the gallery and the shop go back. */
  predicate Offers(v: View, e: UiEvent)
  {
    match e
    case Navigate(t) => v == HomeView && t in HomeLinks
    case Back => v == GalleryView || v == ShopView
  }

  /** The current page after an event; an event no control on screen can
      raise changes nothing. */
  function Dispatch(page: string, e: UiEvent): (next: string)
  {
    if !Offers(RenderPage(page), e) then page
    else match e
      case Navigate(t) => t
      case Back => Home
  }

  /** The current page after a sequence of events, in order. */
  function Run(page: string, events: seq<UiEvent>): (last: string)
    decreases |events|
  {
    if events == [] then page
    else Run(Dispatch(page, events[0]), events[1..])
  }

  /** The page changes only through a callback that the view on screen was
      given: the home view's `onNavigate` (to one of its links), or the
      gallery's or the shop's `onBack` (to home). The pet view has none. */
  lemma {:induction false} OnlyGivenCallbacksMove(page: string, e: UiEvent)
    ensures Dispatch(page, e) != page ==>
      || (RenderPage(page) == HomeView && e.Navigate? && e.target in HomeLinks
          && Dispatch(page, e) == e.target)
      || ((RenderPage(page) == GalleryView || RenderPage(page) == ShopView) && e.Back?
          && Dispatch(page, e) == Home)
    ensures RenderPage(page) == PetView ==> Dispatch(page, e) == page
  {
    if Offers(RenderPage(page), e) {
      match e {
        case Navigate(t) =>
        case Back =>
      }
    }
  }

  /** Back from the gallery or the shop lands on the home page, and it is
      the only way out of either. */
  lemma BackLandsHome(page: string, e: UiEvent)
    requires RenderPage(page) == GalleryView || RenderPage(page) == ShopView
    ensures Dispatch(page, Back) == Home && RenderPage(Home) == HomeView
    ensures Dispatch(page, e) == (if e.Back? then Home else page)
  {
  }

  /** A second identical navigation changes nothing. This holds because of
      the view machine, not because the page is stored twice: once the first
      navigation has moved the page off home, the view on screen offers no
      navigation at all. Storing the same page twice is the contract of
      `Index.HandleNavigate`. */
  lemma NavigateIdempotent(page: string, t: string)
    ensures Dispatch(Dispatch(page, Navigate(t)), Navigate(t)) == Dispatch(page, Navigate(t))
  {
  }

  /** From the home view every link is followed to its own page, and the
      view shown is the one named by the link. */
  lemma HomeFollowsLinks(page: string, t: string)
    requires RenderPage(page) == HomeView && t in HomeLinks
    ensures Dispatch(page, Navigate(t)) == t
    ensures RenderPage(t) != HomeView
  {
  }

  /** The pet view offers no navigation, so once on the pet page no sequence
      of events leaves it. */
  lemma {:induction false} PetHasNoExit(events: seq<UiEvent>)
    ensures Run("pet", events) == "pet"
    decreases |events|
  {
    if events != [] {
      assert !Offers(RenderPage("pet"), events[0]);
      PetHasNoExit(events[1..]);
    }
  }

  /** An event moves a known page only to another known page. */
  lemma DispatchStaysKnown(page: string, e: UiEvent)
    requires page in KnownPages
    ensures Dispatch(page, e) in KnownPages
  {
  }

  /** Starting from a known page, the app's own controls only ever store
      known page names. */
  lemma {:induction false} RunStaysKnown(page: string, events: seq<UiEvent>)
    requires page in KnownPages
    ensures Run(page, events) in KnownPages
    decreases |events|
  {
    if events != [] {
      DispatchStaysKnown(page, events[0]);
      RunStaysKnown(Dispatch(page, events[0]), events[1..]);
    }
  }

  /** The `Index` component's state. */
  class Index {
    var currentPage: string

    /** Mounting the app: the home page. */
    constructor ()
      ensures currentPage == Home
    {
      currentPage := Home;
    }

    /** `handleNavigate(page)`: stores the page name as given. */
    method HandleNavigate(page: string)
      modifies this
      ensures currentPage == page
    {
      currentPage := page;
    }

    /** The `onBack` closure handed to the gallery and the shop. */
    method OnBack()
      modifies this
      ensures currentPage == Home
    {
      currentPage := Home;
    }

    /** One page-level event, routed to the callback the view on screen was
        given (if any). */
    method Handle(e: UiEvent)
      modifies this
      ensures currentPage == Dispatch(old(currentPage), e)
    {
      var view := RenderPage(currentPage);
      match e {
        case Navigate(t) =>
          if view == HomeView && t in HomeLinks {
            HandleNavigate(t);
          }
        case Back =>
          if view == GalleryView || view == ShopView {
            OnBack();
          }
      }
    }
  }
}
