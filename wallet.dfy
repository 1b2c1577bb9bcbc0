/** The two-kind token wallet type used by both the shop and the pet view
    (each view owns a separate wallet of this type): a record
    `{eth, btc}` of integer counts, updated one kind at a time with the
    spread-and-override pattern `{...prev, [kind]: value}`. */
module Wallet {

  /** The closed set of token kinds. */
  datatype Kind = Eth | Btc

  /** A balance, a price or a reward: one integer count per kind. */
  datatype Balance = Balance(eth: int, btc: int)

  /** The kind that is not `k`. */
  function Other(k: Kind): (o: Kind)
    ensures o != k
  {
    if k == Eth then Btc else Eth
  }

  /** The count `b[k]`. */
  function Amount(b: Balance, k: Kind): (n: int)
  {
    match k
    case Eth => b.eth
    case Btc => b.btc
  }

  /** `{...b, [k]: v}`: kind `k` set to `v`, the other kind kept. */
  function With(b: Balance, k: Kind, v: int): (r: Balance)
    ensures Amount(r, k) == v
    ensures Amount(r, Other(k)) == Amount(b, Other(k))
  {
    match k
    case Eth => b.(eth := v)
    case Btc => b.(btc := v)
  }

  /** Kind `k` raised by `n`, the other kind kept. */
  function Credit(b: Balance, k: Kind, n: int): (r: Balance)
    ensures Amount(r, k) == Amount(b, k) + n
    ensures Amount(r, Other(k)) == Amount(b, Other(k))
  {
    With(b, k, Amount(b, k) + n)
  }

  /** No count is negative. */
  predicate NonNegative(b: Balance)
  {
    forall k: Kind :: Amount(b, k) >= 0
  }
}
