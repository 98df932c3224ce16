/**
 * The pieces of answer text both orchestrators share: how a price and a rating are
 * shown. Python's float formatting and `str.title()` are parameters of the model.
 */
module Display {
  import opened Text
  import opened Catalog

  /** How Python renders what the model keeps abstract: `money(x)` is `f"{x:.2f}"`,
      `decimal(x)` is `str(x)` for a float, `title(s)` is `s.title()`. */
  datatype Formats = Formats(money: real -> string, decimal: real -> string, title: string -> string)

  /** `price_str`: a number as dollars with two decimals, any other price as its text. */
  function PriceText(fmt: Formats, p: Price): (r: string)
    ensures p.Amount? ==> |r| > 0 && r[0] == '$' && r[1..] == fmt.money(p.amount)
    ensures p.Label? ==> r == p.text
  {
    match p
    case Amount(x) => "$" + fmt.money(x)
    case Label(t) => t
  }

  /** The star emoji. */
  const Star: char := '\U{2B50}'

  /** `"⭐" * int(rating)` for a positive rating: one star per whole point. */
  function Stars(rating: real): (r: string)
    requires rating > 0.0
    ensures |r| == rating.Floor && forall i :: 0 <= i < |r| ==> r[i] == Star
  {
    Repeat(Star, rating.Floor)
  }
}
