/** Price resolution with promo codes, and what it means for a booking. */
module Pricing {
  import opened Schema
  import opened Ledger
  import opened Tables
  import opened Bookings

  /** A percentage, or an amount in paise; the table demands a positive value. */
  datatype Promo = Percentage(value: real) | Amount(value: real)

  /** What looking a code up gives: none asked for, none valid, one whose limit for
      this fan is reached, or one to apply. */
  datatype Code = NoCode | NotValid | UsedUp | Applies(promo: Promo)

  datatype Priced = Price(quote: Quote) | ServiceNotOffered | InvalidPromo | PromoLimitReached

  /** numeric to integer: halves away from zero. */
  function Round(x: real): int {
    if x >= 0.0 then (x + 0.5).Floor else -((0.5 - x).Floor)
  }

  function Discount(base: int, promo: Promo): int {
    match promo
    case Percentage(value) => Round(base as real * value / 100.0)
    case Amount(value) => Min(Round(value), base)
  }

  function ResolvePrice(listed: Option<int>, code: Code): Priced {
    if listed.None? then ServiceNotOffered
    else
      match code
      case NoCode => Price(Quote(listed.value, 0))
      case NotValid => InvalidPromo
      case UsedUp => PromoLimitReached
      case Applies(promo) => Price(Quote(listed.value, Discount(listed.value, promo)))
  }

  /** A code never raises the price, and unless it is a percentage over 100 it never
      takes off more than the price. */
  lemma DiscountStaysWithinPrice(base: int, promo: Promo)
    requires base > 0 && promo.value > 0.0
    ensures Discount(base, promo) >= 0
    ensures promo.Amount? || promo.value <= 100.0 ==> Discount(base, promo) <= base
  {
    if promo.Percentage? {
      var whole := base as real;
      var part := whole * promo.value / 100.0;
      if promo.value <= 100.0 {
        assert whole * promo.value <= whole * 100.0;
        assert part <= whole;
      }
    }
  }

  predicate Nearest(x: real, d: int) { d as real - 0.5 <= x < d as real + 0.5 }

  /** A percentage takes off its share of the price to the nearest paisa, halves up; an
      amount takes off itself, but never more than the price. */
  lemma DiscountIsExact(base: int, promo: Promo)
    requires base > 0 && promo.value > 0.0
    ensures promo.Percentage? ==> Nearest(base as real * promo.value / 100.0, Discount(base, promo))
    ensures promo.Amount? ==>
              if promo.value < base as real - 0.5 then Nearest(promo.value, Discount(base, promo)) else Discount(base, promo) == base
  {
    var exact := if promo.Percentage? then base as real * promo.value / 100.0 else promo.value;
    if promo.Percentage? {
      assert base as real * promo.value >= 0.0;
    }
    assert exact >= 0.0;
    var d := Round(exact);
    assert Nearest(exact, d);
  }

  /** The price asked is the partner's own, whatever the code; without one nothing comes
      off, and a code that may not be used is refused. */
  lemma PricedAsListed(listed: Option<int>, code: Code)
    ensures var priced := ResolvePrice(listed, code);
      && (priced.Price? <==> listed.Some? && (code.NoCode? || code.Applies?))
      && (priced.ServiceNotOffered? <==> listed.None?)
      && (priced.InvalidPromo? <==> listed.Some? && code.NotValid?)
      && (priced.Price? ==>
            && listed == Some(priced.quote.base)
            && priced.quote.discount == (if code.Applies? then Discount(listed.value, code.promo) else 0))
  {
  }

  /** Every booking that goes through was paid for by the fan and the platform
      together, in full; a code that covers the whole price stops the booking. */
  lemma PromoSplitsThePrice(db: Db, fan: nat, partner: nat, date: int, minutes: Minutes, base: int, code: Code)
    requires base > 0 && (code.Applies? ==> code.promo.value > 0.0)
    ensures var priced := ResolvePrice(Some(base), code); priced.Price? ==>
      var out := BookCall(db, fan, partner, date, minutes, Some(priced.quote));
      && (out.reply == Done ==>
            && |out.db.bookings| == |db.bookings| + 1
            && var b := out.db.bookings[|db.bookings|];
               b.original == base && b.price + b.discount == base && 0 < b.price <= base)
      && (priced.quote.discount >= base ==> out.reply != Done && out.db == db)
  {
    hide Post;
    if code.Applies? { DiscountStaysWithinPrice(base, code.promo); }
  }
}
