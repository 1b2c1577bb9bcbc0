/** The virtual pet view: its own wallet (starting at `{eth: 10, btc: 5}`), a
    happiness meter and a transient "feeding" flag. Happiness is counted in
    tenths: it starts at 5 (one half), each successful feed adds 1 (one
    tenth), and it is clamped at 10 (one). */
module PetCare {
  import opened Wallet

  /** Happiness of a freshly mounted pet, in tenths. */
  const InitialHappiness: int := 5
  /** The clamp: happiness never goes above one whole. */
  const MaxHappiness: int := 10
  /** One feed raises happiness by one tenth. */
  const FeedBoost: int := 1
  /** Tokens added by each "+5" button. */
  const TopUpAmount: int := 5

  /** The pet component's state. */
  datatype PetState = PetState(tokens: Balance, happiness: int, isFeeding: bool)

  /** What the pet view tells the user after a feed attempt. */
  datatype FeedOutcome = Fed | NoTokens

  /** The state a freshly mounted pet view starts in. */
  const InitialPet: PetState := PetState(Balance(10, 5), InitialHappiness, false)

  /** The state invariant: balances are non-negative and happiness lies in
      [0, 1]. */
  predicate ValidPet(s: PetState)
  {
    NonNegative(s.tokens) && 0 <= s.happiness <= MaxHappiness
  }

  /** `Math.min(1, h + 0.1)`, in tenths. */
  function Raise(h: int): (r: int)
    ensures h + FeedBoost <= MaxHappiness ==> r == h + FeedBoost
    ensures h + FeedBoost >= MaxHappiness ==> r == MaxHappiness
    ensures r <= MaxHappiness
    ensures h <= MaxHappiness ==> h <= r
  {
    if h + FeedBoost < MaxHappiness then h + FeedBoost else MaxHappiness
  }

  /** `feedPet(k)`: with a token of kind `k`, spend exactly that one token,
      raise happiness (clamped) and start the feeding animation; without one,
      change nothing. */
  function Feed(s: PetState, k: Kind): (r: (PetState, FeedOutcome))
    ensures r.1 == Fed <==> Amount(s.tokens, k) > 0
    ensures r.1 == Fed ==>
      && Amount(r.0.tokens, k) == Amount(s.tokens, k) - 1
      && Amount(r.0.tokens, Other(k)) == Amount(s.tokens, Other(k))
      && r.0.happiness == Raise(s.happiness)
      && r.0.isFeeding
    ensures r.1 == NoTokens ==> r.0 == s
  {
    if Amount(s.tokens, k) > 0 then
      (PetState(With(s.tokens, k, Amount(s.tokens, k) - 1), Raise(s.happiness), true), Fed)
    else
      (s, NoTokens)
  }

  /** `addTokens(k)`: five more tokens of kind `k`; nothing else changes. */
  function TopUp(s: PetState, k: Kind): (r: PetState)
    ensures Amount(r.tokens, k) == Amount(s.tokens, k) + TopUpAmount
    ensures Amount(r.tokens, Other(k)) == Amount(s.tokens, Other(k))
    ensures r.happiness == s.happiness && r.isFeeding == s.isFeeding
  {
    s.(tokens := Credit(s.tokens, k, TopUpAmount))
  }

  /** The delayed callback that ends the feeding animation. */
  function SettleFeeding(s: PetState): (r: PetState)
    ensures !r.isFeeding
    ensures r.tokens == s.tokens && r.happiness == s.happiness
  {
    s.(isFeeding := false)
  }

  /** The feed button of kind `k` is disabled (`tokens[k] === 0`). A
      disabled button never hides a feed that would succeed, and on a valid
      state it is disabled exactly when feeding would be refused. */
  predicate FeedDisabled(s: PetState, k: Kind): (disabled: bool)
    ensures disabled ==> Feed(s, k).1 == NoTokens
    ensures ValidPet(s) ==> (disabled <==> Feed(s, k).1 == NoTokens)
  {
    assert ValidPet(s) ==> Amount(s.tokens, k) >= 0;
    Amount(s.tokens, k) == 0
  }

  /** One feed keeps the invariant and never lowers happiness. */
  lemma {:induction false} FeedKeepsValid(s: PetState, k: Kind)
    requires ValidPet(s)
    ensures ValidPet(Feed(s, k).0)
    ensures s.happiness <= Feed(s, k).0.happiness
  {
    var r := Feed(s, k);
    if r.1 == Fed {
      forall j: Kind ensures Amount(r.0.tokens, j) >= 0 {
        if j != k {
          assert j == Other(k);
        }
      }
    }
  }

  /** One top-up keeps the invariant. */
  lemma {:induction false} TopUpKeepsValid(s: PetState, k: Kind)
    requires ValidPet(s)
    ensures ValidPet(TopUp(s, k))
  {
    var r := TopUp(s, k);
    forall j: Kind ensures Amount(r.tokens, j) >= 0 {
      if j != k {
        assert j == Other(k);
      }
    }
  }

  /** Feeding an ETH token to a pet that has none is refused and changes
      nothing. */
  lemma FeedWithoutEthIsRefused()
    ensures Feed(PetState(Balance(0, 5), InitialHappiness, false), Eth)
         == (PetState(Balance(0, 5), InitialHappiness, false), NoTokens)
  {
  }

  /** Happiness is clamped: feeding at nine tenths reaches exactly one, and
      feeding at one stays at one. */
  lemma FeedNearFullIsClamped()
    ensures Feed(PetState(Balance(10, 5), 9, false), Eth)
         == (PetState(Balance(9, 5), MaxHappiness, true), Fed)
    ensures Feed(PetState(Balance(9, 5), MaxHappiness, false), Btc)
         == (PetState(Balance(9, 4), MaxHappiness, true), Fed)
  {
  }

  /** A user action in the pet view, or the firing of the feeding timer. */
  datatype PetAction = FeedPet(feedKind: Kind) | AddTokens(addKind: Kind) | FeedingTimerFired

  /** The pet state after one action. */
  function PetStep(s: PetState, a: PetAction): (next: PetState)
  {
    match a
    case FeedPet(k) => Feed(s, k).0
    case AddTokens(k) => TopUp(s, k)
    case FeedingTimerFired => SettleFeeding(s)
  }

  /** The pet state after a sequence of actions, processed in order. */
  function PetRun(s: PetState, actions: seq<PetAction>): (last: PetState)
    decreases |actions|
  {
    if actions == [] then s
    else PetRun(PetStep(s, actions[0]), actions[1..])
  }

  /** One action keeps the invariant and never lowers happiness. */
  lemma {:induction false} PetStepKeepsValid(s: PetState, a: PetAction)
    requires ValidPet(s)
    ensures ValidPet(PetStep(s, a))
    ensures s.happiness <= PetStep(s, a).happiness
  {
    match a {
      case FeedPet(k) => FeedKeepsValid(s, k);
      case AddTokens(k) => TopUpKeepsValid(s, k);
      case FeedingTimerFired =>
    }
  }

  /** Under any sequence of feeds, top-ups and timer firings, balances stay
      non-negative, happiness stays within [0, 1], and happiness never
      decreases. */
  lemma {:induction false} PetRunKeepsValid(s: PetState, actions: seq<PetAction>)
    requires ValidPet(s)
    ensures ValidPet(PetRun(s, actions))
    ensures s.happiness <= PetRun(s, actions).happiness
    decreases |actions|
  {
    if actions != [] {
      PetStepKeepsValid(s, actions[0]);
      PetRunKeepsValid(PetStep(s, actions[0]), actions[1..]);
    }
  }

  /** The pet component's fields, updated in place by its handlers. */
  class VirtualPet {
    var happiness: int
    var tokens: Balance
    var isFeeding: bool

    /** The fields as one value. */
    function State(): PetState
      reads this
    {
      PetState(tokens, happiness, isFeeding)
    }

    /** The component invariant. */
    predicate Valid()
      reads this
    {
      ValidPet(State())
    }

    /** Mounting the pet view. */
    constructor ()
      ensures State() == InitialPet && Valid()
    {
      happiness := InitialHappiness;
      tokens := Balance(10, 5);
      isFeeding := false;
    }

    /** `feedPet(k)`. */
    method FeedPet(k: Kind) returns (outcome: FeedOutcome)
      requires Valid()
      modifies this
      ensures Valid()
      ensures (State(), outcome) == Feed(old(State()), k)
    {
      if Amount(tokens, k) > 0 {
        tokens := With(tokens, k, Amount(tokens, k) - 1);
        happiness := Raise(happiness);
        isFeeding := true;
        outcome := Fed;
      } else {
        outcome := NoTokens;
      }
      FeedKeepsValid(old(State()), k);
    }

    /** `addTokens(k)`. */
    method AddTokens(k: Kind)
      requires Valid()
      modifies this
      ensures Valid()
      ensures State() == TopUp(old(State()), k)
    {
      TopUpKeepsValid(State(), k);
      tokens := Credit(tokens, k, TopUpAmount);
    }

    /** The timer callback `setIsFeeding(false)`. */
    method FinishFeeding()
      requires Valid()
      modifies this
      ensures Valid()
      ensures State() == SettleFeeding(old(State()))
    {
      isFeeding := false;
    }

    /** Whether the feed button of kind `k` is disabled. */
    method IsFeedDisabled(k: Kind) returns (disabled: bool)
      requires Valid()
      ensures disabled <==> Feed(State(), k).1 == NoTokens
    {
      disabled := FeedDisabled(State(), k);
    }
  }
}
