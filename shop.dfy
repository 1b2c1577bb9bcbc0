/** The crypto pet shop: a wallet that starts at `{eth: 20, btc: 15}`, a fixed
    catalog of four items, a purchase that debits the price and credits the
    reward in one step when (and only when) every kind is affordable, and two
    "claim" buttons that add 5 tokens of one kind. */
module ShopLedger {
  import opened Wallet

  /** A catalog entry (the description and the display glyph are left out). */
  datatype ShopItem = ShopItem(id: nat, name: string, price: Balance, reward: Balance)

  /** What the shop tells the user after a purchase attempt. */
  datatype PurchaseOutcome = Success | InsufficientFunds

  /** Tokens added by each "Claim 5" button. */
  const ClaimAmount: int := 5

  /** The wallet a freshly mounted shop starts with. */
  const InitialWallet: Balance := Balance(20, 15)

  /** The static catalog, in display order. */
  const Catalog: seq<ShopItem> := [
    ShopItem(1, "ETH Token Pack", Balance(0, 5), Balance(10, 0)),
    ShopItem(2, "BTC Token Pack", Balance(5, 0), Balance(0, 10)),
    ShopItem(3, "Happiness Boost", Balance(3, 3), Balance(0, 0)),
    ShopItem(4, "Rainbow Aura", Balance(8, 8), Balance(0, 0))
  ]

  /** The wallet covers the price in every kind at once. */
  function CanAfford(wallet: Balance, price: Balance): (r: bool)
    ensures r <==> forall k: Kind :: Amount(wallet, k) >= Amount(price, k)
  {
    assert Amount(wallet, Eth) == wallet.eth && Amount(price, Eth) == price.eth;
    assert Amount(wallet, Btc) == wallet.btc && Amount(price, Btc) == price.btc;
    wallet.eth >= price.eth && wallet.btc >= price.btc
  }

  /** `purchaseItem`: the new wallet and the outcome. An affordable purchase
      moves every kind to `old - price + reward` in one step; any other
      leaves the wallet exactly as it was. */
  function Purchase(wallet: Balance, item: ShopItem): (r: (Balance, PurchaseOutcome))
    ensures r.1 == Success <==> forall k: Kind :: Amount(wallet, k) >= Amount(item.price, k)
    ensures r.1 == Success ==>
      forall k: Kind :: Amount(r.0, k) == Amount(wallet, k) - Amount(item.price, k) + Amount(item.reward, k)
    ensures r.1 == InsufficientFunds ==> r.0 == wallet
  {
    if CanAfford(wallet, item.price) then
      (Balance(wallet.eth - item.price.eth + item.reward.eth,
               wallet.btc - item.price.btc + item.reward.btc), Success)
    else
      (wallet, InsufficientFunds)
  }

  /** The "Claim 5 ETH" / "Claim 5 BTC" handlers. */
  function Claim(wallet: Balance, k: Kind): (r: Balance)
    ensures Amount(r, k) == Amount(wallet, k) + ClaimAmount
    ensures Amount(r, Other(k)) == Amount(wallet, Other(k))
  {
    Credit(wallet, k, ClaimAmount)
  }

  /** The purchase button of an item is enabled (and labelled "Purchase"
      rather than "Can't Afford"). */
  predicate PurchaseEnabled(wallet: Balance, item: ShopItem): (enabled: bool)
    ensures enabled <==> Purchase(wallet, item).1 == Success
  {
    CanAfford(wallet, item.price)
  }

  /** Every catalog entry has a non-negative price and reward, and the ids run
      1, 2, 3, 4 in display order. */
  lemma {:induction false} CatalogWellFormed(i: nat)
    requires i < |Catalog|
    ensures Catalog[i].id == i + 1
    ensures NonNegative(Catalog[i].price) && NonNegative(Catalog[i].reward)
  {
    if i == 0 {
    } else if i == 1 {
    } else if i == 2 {
    } else {
    }
  }

  /** A purchase of an item with a non-negative reward keeps a non-negative
      wallet non-negative: it only debits what is covered. */
  lemma {:induction false} PurchaseKeepsNonNegative(wallet: Balance, item: ShopItem)
    requires NonNegative(wallet) && NonNegative(item.reward)
    ensures NonNegative(Purchase(wallet, item).0)
  {
    var r := Purchase(wallet, item);
    if r.1 == Success {
      forall k: Kind ensures Amount(r.0, k) >= 0 {
        assert Amount(wallet, k) >= Amount(item.price, k);
        assert Amount(item.reward, k) >= 0;
      }
    }
  }

  /** A claim only adds tokens, so a non-negative wallet stays non-negative. */
  lemma ClaimKeepsNonNegative(wallet: Balance, k: Kind)
    requires NonNegative(wallet)
    ensures NonNegative(Claim(wallet, k))
  {
    var r := Claim(wallet, k);
    forall j: Kind ensures Amount(r, j) >= 0 {
      if j == k {
      } else {
        assert j == Other(k);
      }
    }
  }

  /** The worked example: from the initial wallet, the ETH Token Pack (price
      `{0, 5}`, reward `{10, 0}`) yields `{30, 10}`. */
  lemma BuyEthPackFromInitialWallet()
    ensures Purchase(InitialWallet, Catalog[0]) == (Balance(30, 10), Success)
  {
  }

  /** A `{2, 2}` wallet cannot buy the Happiness Boost (price `{3, 3}`) and is
      left as it was. */
  lemma HappinessBoostUnaffordableFromTwoTwo()
    ensures Purchase(Balance(2, 2), Catalog[2]) == (Balance(2, 2), InsufficientFunds)
  {
  }

  /** A user action in the shop view: a purchase button (by catalog
      position) or a claim button. */
  datatype ShopAction = Buy(index: nat) | ClaimFree(kind: Kind)

  /** Only catalog items have purchase buttons. */
  predicate ValidAction(a: ShopAction)
  {
    a.Buy? ==> a.index < |Catalog|
  }

  /** The wallet after one action. */
  function ShopStep(wallet: Balance, a: ShopAction): (next: Balance)
    requires ValidAction(a)
  {
    match a
    case Buy(i) => Purchase(wallet, Catalog[i]).0
    case ClaimFree(k) => Claim(wallet, k)
  }

  /** The wallet after a sequence of actions, processed in order. */
  function ShopRun(wallet: Balance, actions: seq<ShopAction>): (last: Balance)
    requires forall i :: 0 <= i < |actions| ==> ValidAction(actions[i])
    decreases |actions|
  {
    if actions == [] then wallet
    else ShopRun(ShopStep(wallet, actions[0]), actions[1..])
  }

  /** One shop action keeps a non-negative wallet non-negative. */
  lemma {:induction false} ShopStepKeepsNonNegative(wallet: Balance, a: ShopAction)
    requires NonNegative(wallet) && ValidAction(a)
    ensures NonNegative(ShopStep(wallet, a))
  {
    match a {
      case Buy(i) =>
        CatalogWellFormed(i);
        PurchaseKeepsNonNegative(wallet, Catalog[i]);
      case ClaimFree(k) =>
        ClaimKeepsNonNegative(wallet, k);
    }
  }

  /** No sequence of shop actions drives a non-negative wallet negative. */
  lemma {:induction false} ShopRunKeepsNonNegative(wallet: Balance, actions: seq<ShopAction>)
    requires NonNegative(wallet)
    requires forall i :: 0 <= i < |actions| ==> ValidAction(actions[i])
    ensures NonNegative(ShopRun(wallet, actions))
    decreases |actions|
  {
    if actions != [] {
      ShopStepKeepsNonNegative(wallet, actions[0]);
      ShopRunKeepsNonNegative(ShopStep(wallet, actions[0]), actions[1..]);
    }
  }

  /** The shop component's state: its wallet, replaced as a whole by each
      handler. */
  class Shop {
    var wallet: Balance

    /** Mounting the shop view. */
    constructor ()
      ensures wallet == InitialWallet
    {
      wallet := InitialWallet;
    }

    /** `purchaseItem(Catalog[index])`. */
    method PurchaseItem(index: nat) returns (outcome: PurchaseOutcome)
      requires index < |Catalog|
      modifies this
      ensures (wallet, outcome) == Purchase(old(wallet), Catalog[index])
    {
      var item := Catalog[index];
      if CanAfford(wallet, item.price) {
        wallet := Balance(wallet.eth - item.price.eth + item.reward.eth,
                          wallet.btc - item.price.btc + item.reward.btc);
        outcome := Success;
      } else {
        outcome := InsufficientFunds;
      }
    }

    /** The "Claim 5 ETH" button. */
    method ClaimEth()
      modifies this
      ensures wallet == Claim(old(wallet), Eth)
    {
      wallet := wallet.(eth := wallet.eth + ClaimAmount);
    }

    /** The "Claim 5 BTC" button. */
    method ClaimBtc()
      modifies this
      ensures wallet == Claim(old(wallet), Btc)
    {
      wallet := wallet.(btc := wallet.btc + ClaimAmount);
    }

    /** Whether the purchase button of `Catalog[index]` is enabled. */
    method IsPurchaseEnabled(index: nat) returns (enabled: bool)
      requires index < |Catalog|
      ensures enabled <==> Purchase(wallet, Catalog[index]).1 == Success
    {
      enabled := PurchaseEnabled(wallet, Catalog[index]);
    }
  }
}
