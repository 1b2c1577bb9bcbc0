/** The whole app as one reducer. Only the view on screen is mounted; the
    shop and the pet view each own a separate wallet, created fresh with
    their initial balances whenever their view is mounted and discarded when
    it is replaced. */
module App {
  import opened Wallet
  import ShopLedger
  import PetCare
  import opened PageNavigator

  datatype Option<T> = None | Some(value: T)

  /** The page, the shop's wallet while the shop is mounted, and the pet
      view's state while the pet view is mounted. */
  datatype AppState = AppState(page: string, shop: Option<Balance>, pet: Option<PetCare.PetState>)

  /** A page-level event, an action inside the shop, or one inside the pet
      view. */
  datatype AppEvent =
    | Ui(ui: UiEvent)
    | InShop(shopAction: ShopLedger.ShopAction)
    | InPet(petAction: PetCare.PetAction)

  /** The state right after the view of `page` is mounted. */
  function Mount(page: string): (s: AppState)
    ensures s.page == page
    ensures s.shop.Some? <==> page == "shop"
    ensures s.pet.Some? <==> page == "pet"
    ensures s.shop.Some? ==> s.shop.value == ShopLedger.InitialWallet
    ensures s.pet.Some? ==> s.pet.value == PetCare.InitialPet
    ensures page in KnownPages ==> AppValid(s)
  {
    var v := RenderPage(page);
    assert NonNegative(ShopLedger.InitialWallet) by {
      assert Amount(ShopLedger.InitialWallet, Eth) == 20 && Amount(ShopLedger.InitialWallet, Btc) == 15;
    }
    assert PetCare.ValidPet(PetCare.InitialPet) by {
      assert Amount(PetCare.InitialPet.tokens, Eth) == 10 && Amount(PetCare.InitialPet.tokens, Btc) == 5;
    }
    AppState(page,
             if v == ShopView then Some(ShopLedger.InitialWallet) else None,
             if v == PetView then Some(PetCare.InitialPet) else None)
  }

  /** The app as it first appears. */
  const Initial: AppState := Mount(Home)

  /** The state after one event: a page change that switches views remounts;
      shop and pet actions reach only the mounted view's own state. */
  function AppStep(s: AppState, e: AppEvent): (next: AppState)
  {
    match e
    case Ui(u) =>
      var p := Dispatch(s.page, u);
      if RenderPage(p) == RenderPage(s.page) then s.(page := p) else Mount(p)
    case InShop(a) =>
      if s.shop.Some? && ShopLedger.ValidAction(a)
      then s.(shop := Some(ShopLedger.ShopStep(s.shop.value, a)))
      else s
    case InPet(a) =>
      if s.pet.Some? then s.(pet := Some(PetCare.PetStep(s.pet.value, a))) else s
  }

  /** The state after a sequence of events, in order. */
  function AppRun(s: AppState, events: seq<AppEvent>): (last: AppState)
    decreases |events|
  {
    if events == [] then s
    else AppRun(AppStep(s, events[0]), events[1..])
  }

  /** The app invariant: a known page; a wallet exactly for the view that
      owns one; every mounted balance non-negative and happiness in range. */
  predicate AppValid(s: AppState)
  {
    && s.page in KnownPages
    && (s.shop.Some? <==> RenderPage(s.page) == ShopView)
    && (s.pet.Some? <==> RenderPage(s.page) == PetView)
    && (s.shop.Some? ==> NonNegative(s.shop.value))
    && (s.pet.Some? ==> PetCare.ValidPet(s.pet.value))
  }

  /** One event keeps the invariant. */
  lemma {:induction false} AppStepKeepsValid(s: AppState, e: AppEvent)
    requires AppValid(s)
    ensures AppValid(AppStep(s, e))
  {
    match e {
      case Ui(u) =>
        var p := Dispatch(s.page, u);
        DispatchStaysKnown(s.page, u);
      case InShop(a) =>
        if s.shop.Some? && ShopLedger.ValidAction(a) {
          ShopLedger.ShopStepKeepsNonNegative(s.shop.value, a);
        }
      case InPet(a) =>
        if s.pet.Some? {
          PetCare.PetStepKeepsValid(s.pet.value, a);
        }
    }
  }

  /** Under any sequence of events the invariant holds: no mounted balance
      is ever negative and happiness stays within [0, 1]. */
  lemma {:induction false} AppRunKeepsValid(s: AppState, events: seq<AppEvent>)
    requires AppValid(s)
    ensures AppValid(AppRun(s, events))
    decreases |events|
  {
    if events != [] {
      AppStepKeepsValid(s, events[0]);
      AppRunKeepsValid(AppStep(s, events[0]), events[1..]);
    }
  }

  /** The app starts on the home view with no wallet mounted, and that
      state is valid. */
  lemma InitialValid()
    ensures Initial.page == Home && RenderPage(Initial.page) == HomeView
    ensures Initial.shop == None && Initial.pet == None
    ensures AppValid(Initial)
  {
  }

  /** A page event that switches to another view mounts that view afresh:
      the shop gets the wallet `{20, 15}` and the pet view its initial state,
      and whatever the previous view owned is gone. A page event that keeps
      the view keeps its state. */
  lemma {:induction false} ViewChangeRemounts(s: AppState, u: UiEvent)
    ensures var next := AppStep(s, Ui(u));
      && next.page == Dispatch(s.page, u)
      && (RenderPage(next.page) != RenderPage(s.page) ==>
            && (next.shop.Some? <==> next.page == "shop")
            && (next.pet.Some? <==> next.page == "pet")
            && (next.shop.Some? ==> next.shop.value == ShopLedger.InitialWallet)
            && (next.pet.Some? ==> next.pet.value == PetCare.InitialPet))
      && (RenderPage(next.page) == RenderPage(s.page) ==>
            next.shop == s.shop && next.pet == s.pet)
  {
    var p := Dispatch(s.page, u);
    if RenderPage(p) != RenderPage(s.page) {
      assert AppStep(s, Ui(u)) == Mount(p);
    }
  }

  /** Entering the shop always starts from its initial wallet: leaving the
      shop and coming back discards everything bought or claimed. */
  lemma {:induction false} ShopReentryStartsFresh(s: AppState)
    requires s.page == "shop"
    ensures AppStep(AppStep(s, Ui(Back)), Ui(Navigate("shop"))).shop == Some(ShopLedger.InitialWallet)
  {
    var s1 := AppStep(s, Ui(Back));
    assert s1 == Mount(Home);
    assert RenderPage(s1.page) == HomeView;
  }

  /** The two wallets are separate: shop actions never touch the pet view's
      state, and pet actions never touch the shop's wallet. */
  lemma WalletsAreSeparate(s: AppState, a: ShopLedger.ShopAction, b: PetCare.PetAction)
    ensures AppStep(s, InShop(a)).pet == s.pet && AppStep(s, InShop(a)).page == s.page
    ensures AppStep(s, InPet(b)).shop == s.shop && AppStep(s, InPet(b)).page == s.page
  {
  }

  /** A shop action reaches the mounted shop: a purchase of a catalog item
      moves its wallet as `Purchase` does and a claim as `Claim` does; with no
      shop on screen there is no shop button, so nothing changes. */
  lemma {:induction false} ShopActionsReachMountedShop(s: AppState, a: ShopLedger.ShopAction)
    ensures s.shop.Some? && a.Buy? && a.index < |ShopLedger.Catalog| ==>
      AppStep(s, InShop(a)).shop == Some(ShopLedger.Purchase(s.shop.value, ShopLedger.Catalog[a.index]).0)
    ensures s.shop.Some? && a.ClaimFree? ==>
      AppStep(s, InShop(a)).shop == Some(ShopLedger.Claim(s.shop.value, a.kind))
    ensures s.shop.None? ==> AppStep(s, InShop(a)) == s
  {
  }

  /** A pet action reaches the mounted pet view: a feed moves its state as
      `Feed` does, a top-up as `TopUp` does and the timer as `SettleFeeding`
      does; with no pet view on screen nothing changes. */
  lemma {:induction false} PetActionsReachMountedPet(s: AppState, b: PetCare.PetAction)
    ensures s.pet.Some? && b.FeedPet? ==>
      AppStep(s, InPet(b)).pet == Some(PetCare.Feed(s.pet.value, b.feedKind).0)
    ensures s.pet.Some? && b.AddTokens? ==>
      AppStep(s, InPet(b)).pet == Some(PetCare.TopUp(s.pet.value, b.addKind))
    ensures s.pet.Some? && b.FeedingTimerFired? ==>
      AppStep(s, InPet(b)).pet == Some(PetCare.SettleFeeding(s.pet.value))
    ensures s.pet.None? ==> AppStep(s, InPet(b)) == s
  {
  }
}
