// Value snapshots shared by the pricing engine: an offer (price, quality)
// and what the engine reads from a firm (its identity, its offer and the
// quality consumers perceive).
module Values {

  /** A (price, quality) pair; the quality may be real or perceived. */
  datatype OfferVal = OfferVal(price: real, quality: real)

  /**
   * A firm as the engine reads it. `id` stands for the object identity
   * the Java code compares with `==` and `equals`.
   */
  datatype FirmView = FirmView(id: nat, price: real, quality: real, perceivedQ: real)
  {
    /** Firm.getOffer(): the real quality. */
    function RealOffer(): OfferVal
    {
      OfferVal(price, quality)
    }

    /** Firm.getPerceivedOffer(): the quality consumers perceive. */
    function PerceivedOffer(): OfferVal
    {
      OfferVal(price, perceivedQ)
    }
  }

  /**
   * A limiting welfare parameter: the consumer type indifferent between two
   * offers, or +infinity when no consumer would take the higher one.
   */
  datatype Limit = At(w: real) | Infinity
  {
    /** The `<` of doubles on limits: +infinity is below nothing. */
    predicate Below(other: Limit)
    {
      match (this, other)
      case (At(a), At(b)) => a < b
      case (At(_), Infinity) => true
      case (Infinity, _) => false
    }
  }
}
