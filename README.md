# CryptoPet: wallet, feeding and page navigation

The app is a browser toy with a 3D pet. It has three small state machines. This project models them in Dafny and proves properties about them.

- **Shop** (`src/components/Shop.tsx`). The shop wallet `{eth, btc}` starts at `{20, 15}`. The static catalog has four items, each with a price and a reward. `canAfford` checks every kind at once. `purchaseItem` debits the price and credits the reward in one step when the item is affordable, and changes nothing otherwise. Two "claim" buttons each add 5 tokens of one kind.
- **Pet view** (`src/components/VirtualPet.tsx`). The pet view has its own wallet, which starts at `{10, 5}`. It also has a happiness meter and an `isFeeding` flag. `feedPet(k)` spends one token of kind `k` only if there is one. It then raises happiness by a tenth, up to a maximum of one, and sets `isFeeding`. `addTokens(k)` adds 5 tokens of kind `k`. The feed button of kind `k` is disabled while `tokens[k] === 0`.
- **Page selector** (`src/pages/Index.tsx`). The current page starts at `"home"`. `handleNavigate` stores whatever page name it is given. The gallery and the shop each get an `onBack` callback that stores `"home"`. The pet view gets no callback. `renderPage` shows the pet, gallery or shop view for those three names, and the home view for any other value.

Each component is modelled in two forms:

- a class whose fields are the component's state and whose methods are its handlers (`ShopLedger.Shop`, `PetCare.VirtualPet`, `PageNavigator.Index`);
- pure step functions over values, with a "run" function that applies a sequence of actions in order.

The `Shop` and `VirtualPet` handlers are proved equal to their step functions. `Index.Handle` is proved equal to `Dispatch`. `Index.HandleNavigate` and `Index.OnBack` are the two callbacks themselves; `Handle` calls one of them only when the view on screen was given it. The invariants are proved about the run functions. The `App` module combines the three into one reducer. Only the view on screen is mounted. The shop's wallet and the pet view's state are created fresh each time their view is mounted.

Files:

- `wallet.dfy` (module `Wallet`): token kinds and the two-kind balance.
- `shop.dfy` (module `ShopLedger`): the shop.
- `pet.dfy` (module `PetCare`): the pet view.
- `navigator.dfy` (module `PageNavigator`): the page selector.
- `app.dfy` (module `App`): the composed app.

Happiness is kept in integer tenths. It starts at 5, each feed adds 1, and the clamp is 10. This stands for the source's 0.5, +0.1 and `Math.min(1, …)`.

`handleNavigate` casts any string to `Page` without checking it (`src/pages/Index.tsx:13-15`). So `currentPage` can hold any string, and `renderPage`'s default case shows the home view for it (`src/pages/Index.tsx:25-26`). `Index.HandleNavigate` and `RenderPage` model this.

## Model

| member | source | states |
|---|---|---|
| `ShopLedger.CanAfford` | src/components/Shop.tsx:48-50 | affordability holds exactly when the wallet covers the price in every kind |
| `ShopLedger.Purchase` | src/components/Shop.tsx:52-70 | a purchase succeeds exactly when every kind is covered; on success every kind becomes `old - price + reward`; on failure the wallet is returned unchanged with `InsufficientFunds` |
| `ShopLedger.Claim` | src/components/Shop.tsx:164-175 | a claim adds exactly 5 to the claimed kind and leaves the other kind unchanged |
| `ShopLedger.CatalogWellFormed` | src/components/Shop.tsx:13-46 | catalog ids run 1 to 4 in display order, and every price and reward is non-negative |
| `ShopLedger.PurchaseKeepsNonNegative` | src/components/Shop.tsx:53-57 | a purchase of an item with a non-negative reward never makes a non-negative wallet negative |
| `ShopLedger.ClaimKeepsNonNegative` | src/components/Shop.tsx:165 | a claim keeps a non-negative wallet non-negative |
| `ShopLedger.PurchaseEnabled` | src/components/Shop.tsx:100-146 | the purchase button rule (`disabled={!affordable}`): an item's button is enabled exactly when clicking it succeeds |
| `ShopLedger.BuyEthPackFromInitialWallet` | src/components/Shop.tsx:10-57 | from the initial wallet `{20, 15}`, buying the ETH Token Pack gives `{30, 10}` and `Success` |
| `ShopLedger.HappinessBoostUnaffordableFromTwoTwo` | src/components/Shop.tsx:30-69 | a `{2, 2}` wallet cannot buy the Happiness Boost (price `{3, 3}`) and is left as it was |
| `ShopLedger.ShopStepKeepsNonNegative` | src/components/Shop.tsx:52-176 | any single purchase or claim keeps a non-negative wallet non-negative |
| `ShopLedger.ShopRunKeepsNonNegative` | src/components/Shop.tsx:52-176 | no sequence of purchases and claims makes a non-negative wallet negative |
| `ShopLedger.Shop.constructor` | src/components/Shop.tsx:10 | a mounted shop starts with the wallet `{20, 15}` |
| `ShopLedger.Shop.PurchaseItem` | src/components/Shop.tsx:52-70 | the new wallet and the outcome are those of `Purchase` applied to the old wallet, in one assignment |
| `ShopLedger.Shop.ClaimEth` | src/components/Shop.tsx:164-167 | the new wallet is the old one with 5 more ETH |
| `ShopLedger.Shop.ClaimBtc` | src/components/Shop.tsx:173-176 | the new wallet is the old one with 5 more BTC |
| `ShopLedger.Shop.IsPurchaseEnabled` | src/components/Shop.tsx:140-146 | the button is enabled exactly when the purchase would succeed |
| `Wallet.With` | src/components/VirtualPet.tsx:120 | `{...prev, [k]: v}` sets kind `k` to `v` and keeps the other kind |
| `Wallet.Credit` | src/components/VirtualPet.tsx:140 | crediting `n` tokens of kind `k` raises that kind by exactly `n` and keeps the other kind |
| `PetCare.Raise` | src/components/VirtualPet.tsx:121 | `min(1, h + 0.1)` in tenths: the input plus one tenth while that is at most one whole, and exactly one whole otherwise; so the result never exceeds one and never falls below an in-range input |
| `PetCare.Feed` | src/components/VirtualPet.tsx:118-137 | feeding succeeds exactly when `tokens[k] > 0`; on success it takes exactly one token of kind `k`, keeps the other kind, raises happiness with the clamp and sets `isFeeding`; otherwise the state is unchanged and the outcome is `NoTokens` |
| `PetCare.TopUp` | src/components/VirtualPet.tsx:139-145 | adds exactly 5 tokens of kind `k`; the other kind, happiness and `isFeeding` are unchanged |
| `PetCare.SettleFeeding` | src/components/VirtualPet.tsx:129 | clears `isFeeding` and changes nothing else |
| `PetCare.FeedDisabled` | src/components/VirtualPet.tsx:251-266 | the feed button rule (`disabled={tokens[k] === 0}`): a disabled button never hides a feed that would succeed, and in a valid state the button is disabled exactly when feeding kind `k` would be refused |
| `PetCare.FeedKeepsValid` | src/components/VirtualPet.tsx:119-121 | one feed keeps balances non-negative and happiness in [0, 1], and never lowers happiness |
| `PetCare.TopUpKeepsValid` | src/components/VirtualPet.tsx:140 | one top-up keeps the state invariant |
| `PetCare.FeedWithoutEthIsRefused` | src/components/VirtualPet.tsx:118-136 | feeding ETH from `{0, 5}` is refused with `NoTokens` and changes nothing |
| `PetCare.FeedNearFullIsClamped` | src/components/VirtualPet.tsx:119-121 | feeding at 0.9 gives exactly 1 and spends one token; feeding at 1 stays at 1 |
| `PetCare.PetStepKeepsValid` | src/components/VirtualPet.tsx:118-145 | any single feed, top-up or timer firing keeps the invariant and never lowers happiness |
| `PetCare.PetRunKeepsValid` | src/components/VirtualPet.tsx:118-145 | under any sequence of feeds, top-ups and timer firings, balances stay non-negative, happiness stays in [0, 1], and happiness never decreases |
| `PetCare.VirtualPet.constructor` | src/components/VirtualPet.tsx:113-115 | a mounted pet view starts with happiness 0.5, tokens `{10, 5}` and `isFeeding` false |
| `PetCare.VirtualPet.FeedPet` | src/components/VirtualPet.tsx:118-137 | the new fields and the outcome are those of `Feed` applied to the old fields, and the invariant is kept |
| `PetCare.VirtualPet.AddTokens` | src/components/VirtualPet.tsx:139-145 | the new fields are those of `TopUp` applied to the old fields, and the invariant is kept |
| `PetCare.VirtualPet.FinishFeeding` | src/components/VirtualPet.tsx:129 | the timer callback clears `isFeeding` and changes nothing else |
| `PetCare.VirtualPet.IsFeedDisabled` | src/components/VirtualPet.tsx:251-266 | the feed button is disabled exactly when feeding that kind would be refused |
| `PageNavigator.RenderPage` | src/pages/Index.tsx:17-28 | exactly one view per page value: "pet", "gallery" and "shop" select their views, and every other value selects the home view |
| `PageNavigator.OnlyGivenCallbacksMove` | src/pages/Index.tsx:17-28 | the page changes only through a callback the view on screen was given: the home view's `onNavigate` to one of its links, or the gallery's or the shop's `onBack` to "home"; on the pet page no event changes the page |
| `PageNavigator.BackLandsHome` | src/pages/Index.tsx:21-24 | from the gallery or the shop, back always lands on "home", which renders the home view; no other event leaves those views |
| `PageNavigator.NavigateIdempotent` | src/pages/Index.tsx:17-28 | a second identical navigation changes nothing, because once a navigation has moved the page off home the view on screen offers no navigation; storing the same page twice is `Index.HandleNavigate`'s contract |
| `PageNavigator.HomeFollowsLinks` | src/pages/Index.tsx:64-88 | from the home view, each link is followed to its own page, and that page does not render the home view |
| `PageNavigator.PetHasNoExit` | src/pages/Index.tsx:19-20 | the pet view gets no callback, so no sequence of events leaves the "pet" page |
| `PageNavigator.DispatchStaysKnown` | src/pages/Index.tsx:8-28 | one event moves a known page only to another known page |
| `PageNavigator.RunStaysKnown` | src/pages/Index.tsx:8-28 | starting from a known page, the app's own controls only ever store one of the four known page names |
| `PageNavigator.Index.constructor` | src/pages/Index.tsx:11 | the app starts on "home" |
| `PageNavigator.Index.HandleNavigate` | src/pages/Index.tsx:13-15 | the current page becomes exactly the name given |
| `PageNavigator.Index.OnBack` | src/pages/Index.tsx:22-24 | the current page becomes "home", whatever it was before |
| `PageNavigator.Index.Handle` | src/pages/Index.tsx:17-28 | an event reaches only the callback that the view on screen was given, and the new page is the one `Dispatch` computes |
| `App.Mount` | src/pages/Index.tsx:17-28 | a shop wallet exists exactly when the page is "shop" and is the fresh `{20, 15}`; a pet state exists exactly when the page is "pet" and is the fresh initial pet state (happiness 0.5, tokens `{10, 5}`); mounting any known page satisfies the app invariant |
| `App.ViewChangeRemounts` | src/pages/Index.tsx:17-28 | a page event that switches views mounts the new view afresh (shop `{20, 15}`, initial pet state) and drops the old view's state; one that keeps the view keeps its state |
| `App.AppStepKeepsValid` | src/pages/Index.tsx:17-30 | one page change, shop action or pet action keeps the app invariant |
| `App.AppRunKeepsValid` | src/pages/Index.tsx:17-30 | under any sequence of events, the page stays known, only the view on screen owns state, no mounted balance is negative, and happiness stays in [0, 1] |
| `App.InitialValid` | src/pages/Index.tsx:11 | the app starts on the home view, with no wallet mounted, in a valid state |
| `App.ShopReentryStartsFresh` | src/pages/Index.tsx:23-24 | leaving the shop and entering it again always gives the initial wallet `{20, 15}`: what was bought or claimed is lost |
| `App.WalletsAreSeparate` | src/pages/Index.tsx:19-24 | shop actions never touch the pet view's state, and pet actions never touch the shop's wallet |
| `App.ShopActionsReachMountedShop` | src/components/Shop.tsx:52-176 | while the shop is mounted, a purchase of a catalog item replaces its wallet with `Purchase`'s and a claim with `Claim`'s; with no shop mounted a shop action changes nothing |
| `App.PetActionsReachMountedPet` | src/components/VirtualPet.tsx:118-145 | while the pet view is mounted, a feed replaces its state with `Feed`'s, a top-up with `TopUp`'s and the timer with `SettleFeeding`'s; with no pet view mounted a pet action changes nothing |

## Left out

- Rendering is not modelled: the 3D meshes, lights, camera controls, frame animations, the HSL colour of the pet, the happiness bar width and all styling. It is presentation only and depends on a graphics library.
- The random particle backgrounds are not modelled. They use `Math.random` and are presentation only.
- Toast notifications are not modelled. The outcome of a purchase or a feed is returned as a `PurchaseOutcome` or `FeedOutcome` value instead. Claims and top-ups always succeed, so they have no outcome value.
- The 1000 ms `setTimeout` that clears `isFeeding` is modelled as an explicit step (`FinishFeeding` / `FeedingTimerFired`), not as a clock. A timer that fires after its view has been unmounted is not modelled.
- React semantics are not modelled: batching of state updates, re-rendering, and `feedPet` and `purchaseItem` each checking the rendered `tokens` or `wallet` from their closure while updating from `prev`. Each handler is treated as one atomic step.
- Happiness is modelled in exact tenths, not as a JavaScript float. In the source, repeated `+ 0.1` drifts: 0.7 + 0.1 gives 0.7999999999999999, so six feeds from 0.5 are needed to reach exactly 1. The model reaches 1 after five feeds. The clamp, the bounds and "never decreases" hold in both.
- Token counts are unbounded integers. The source's counts are JavaScript numbers, which are exact for any count these buttons can reach.
- `src/components/Gallery.tsx` is not modelled beyond its back button (the `Back` event). It is a static list with a display date.
- `src/components/NavigationPortal.tsx` is modelled only by the targets it passes to `onNavigate` (`HomeLinks`). The rest of it is rendering.
- `handleNavigate` accepts any string. The model's event machine only raises the targets that the home view's buttons use. `Index.HandleNavigate` itself accepts any string.
