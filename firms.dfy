// The firms of the market: the members, the quality-keyed map firmsByQ
// through which firms find their neighbours and free qualities, and the
// queue of firms to be killed at the end of a period.
module FirmRegistry {
  import opened Wrappers
  import opened Values
  import opened Agents
  import DeltaOffer

  /**
   * addFirms: how many entrants a period admits. With entry restricted to
   * the start, none after tick 1; otherwise the configured number.
   */
  function EntrantsThisPeriod(firmsEntryOnlyAtStart: bool, tick: real, potentialFirmsPerPeriod: int): (n: nat)
    ensures firmsEntryOnlyAtStart && tick != 1.0 ==> n == 0
    ensures !firmsEntryOnlyAtStart || tick == 1.0 ==> n == MaxInt(potentialFirmsPerPeriod, 0)
  {
    if firmsEntryOnlyAtStart && tick != 1.0 then 0
    else if potentialFirmsPerPeriod < 1 then 0 else potentialFirmsPerPeriod
  }

  /** The qualities of a collection of firms. */
  ghost function QualitiesOf(fs: seq<Firm>): set<real>
    reads set f | f in fs
  {
    set f | f in fs :: f.offer.quality
  }

  /** The chosen firm after the traces of every firm in `fs` are removed. */
  function AfterRemovals(chosen: Option<Firm>, fs: seq<Firm>): (r: Option<Firm>)
    ensures r.None? <==> chosen.None? || exists f :: f in fs && f.id == chosen.value.id
    ensures r.Some? ==> r == chosen
  {
    if chosen.Some? && exists f :: f in fs && f.id == chosen.value.id then None else chosen
  }

  class Firms {
    var members: set<Firm>
    var firmsByQ: map<real, Firm>
    var toBeKilled: seq<Firm>

    /** Every key of firmsByQ is the quality of the firm it maps to. */
    ghost predicate KeyedByQuality()
      reads this, firmsByQ.Values
    {
      forall q :: q in firmsByQ ==> firmsByQ[q].offer.quality == q
    }

    /** createFirmLists: no firms, no map entries, nothing queued. */
    constructor ()
      ensures members == {} && firmsByQ == map[] && toBeKilled == []
      ensures KeyedByQuality()
    {
      members := {};
      firmsByQ := map[];
      toBeKilled := [];
    }

    /** addToFirmLists: the firm's quality maps to the firm, replacing any previous entry. */
    method AddToFirmLists(f: Firm)
      modifies this
      ensures firmsByQ == old(firmsByQ)[f.offer.quality := f]
      ensures members == old(members) && toBeKilled == old(toBeKilled)
      ensures old(KeyedByQuality()) ==> KeyedByQuality()
    {
      firmsByQ := firmsByQ[f.offer.quality := f];
    }

    /** updateFirmLists: the prevQ entry goes, then newQ maps to the firm. */
    method UpdateFirmLists(f: Firm, prevQ: real, newQ: real)
      modifies this
      ensures firmsByQ == (old(firmsByQ) - {prevQ})[newQ := f]
      ensures members == old(members) && toBeKilled == old(toBeKilled)
    {
      firmsByQ := (firmsByQ - {prevQ})[newQ := f];
    }

    /**
     * removeFromFirmLists as written: the firm object itself is handed to a
     * map keyed by quality, so no entry is removed; in the JDK the ordered
     * map's lookup casts the key to Comparable and the call fails. The
     * result reports that failure; nothing changes.
     */
    method RemoveFromFirmLists(f: Firm) returns (failed: bool)
      ensures failed
      ensures firmsByQ == old(firmsByQ) && members == old(members) && toBeKilled == old(toBeKilled)
    {
      failed := true;
    }

    /**
     * removeFromFirmLists as intended: the entry at the firm's quality is
     * removed, and with the map keyed by quality the firm is then in no
     * entry at all.
     */
    method RemoveFromFirmListsByQuality(f: Firm)
      modifies this
      ensures firmsByQ == old(firmsByQ) - {f.offer.quality}
      ensures f.offer.quality !in firmsByQ
      ensures members == old(members) && toBeKilled == old(toBeKilled)
      ensures old(KeyedByQuality()) ==> KeyedByQuality() && f !in firmsByQ.Values
    {
      firmsByQ := firmsByQ - {f.offer.quality};
      if old(KeyedByQuality()) {
        forall q | q in firmsByQ
          ensures firmsByQ[q] != f && firmsByQ[q].offer.quality == q
        {
          assert q in old(firmsByQ) && firmsByQ[q] == old(firmsByQ)[q];
        }
      }
    }

    /**
     * Firm.makeOffer as written: the map entry moves from the current to
     * the new quality only when the quality changes, and the delta offer
     * becomes the new offer less the current one; the firm's own offer is
     * never assigned, so after a quality change the map holds the firm
     * under a quality that is not its own. The assert that the new quality
     * is free or the current one is not enforced: an occupied new quality
     * has its entry overwritten by this firm.
     */
    method MakeOffer(f: Firm, newOf: OfferVal)
      modifies this, f
      ensures f.offer == old(f.offer)
      ensures f.demand == old(f.demand) && f.profit == old(f.profit) && f.accumProfit == old(f.accumProfit)
      ensures f.autoRegressiveProfit == old(f.autoRegressiveProfit) && f.triedBy == old(f.triedBy)
      ensures f.notYetKnownBy == old(f.notYetKnownBy)
      ensures f.deltaOffer == DeltaOffer.Delta(newOf.price - old(f.offer.price), newOf.quality - old(f.offer.quality))
      ensures newOf.quality == old(f.offer.quality) ==> firmsByQ == old(firmsByQ)
      ensures newOf.quality != old(f.offer.quality) ==>
        firmsByQ == (old(firmsByQ) - {old(f.offer.quality)})[newOf.quality := f] &&
        !KeyedByQuality()
      ensures members == old(members) && toBeKilled == old(toBeKilled)
    {
      var currQ := f.offer.quality;
      var newQ := newOf.quality;
      if newQ != currQ {
        UpdateFirmLists(f, currQ, newQ);
      }
      f.deltaOffer := DeltaOffer.Delta(newOf.price - f.offer.price, newOf.quality - f.offer.quality);
      if newQ != currQ {
        assert newQ in firmsByQ && firmsByQ[newQ] == f && f.offer.quality == currQ;
      }
    }

    /**
     * Firm.makeOffer as intended: the firm also takes the new offer, so a
     * map keyed by quality stays keyed by quality, even when an occupied new
     * quality has its entry overwritten by this firm.
     */
    method MakeOfferAdopting(f: Firm, newOf: OfferVal)
      modifies this, f
      ensures f.offer == newOf
      ensures f.demand == old(f.demand) && f.profit == old(f.profit) && f.accumProfit == old(f.accumProfit)
      ensures f.autoRegressiveProfit == old(f.autoRegressiveProfit) && f.triedBy == old(f.triedBy)
      ensures f.notYetKnownBy == old(f.notYetKnownBy)
      ensures f.deltaOffer == DeltaOffer.Delta(newOf.price - old(f.offer.price), newOf.quality - old(f.offer.quality))
      ensures newOf.quality == old(f.offer.quality) ==> firmsByQ == old(firmsByQ)
      ensures newOf.quality != old(f.offer.quality) ==>
        firmsByQ == (old(firmsByQ) - {old(f.offer.quality)})[newOf.quality := f]
      ensures members == old(members) && toBeKilled == old(toBeKilled)
      ensures old(KeyedByQuality()) ==> KeyedByQuality()
    {
      ghost var before := firmsByQ;
      var currQ := f.offer.quality;
      var newQ := newOf.quality;
      if newQ != currQ {
        UpdateFirmLists(f, currQ, newQ);
      }
      f.deltaOffer := DeltaOffer.Delta(newOf.price - f.offer.price, newOf.quality - f.offer.quality);
      f.offer := newOf;
      if old(KeyedByQuality()) {
        forall q | q in firmsByQ
          ensures firmsByQ[q].offer.quality == q
        {
          if q != newQ {
            assert q in before && q != currQ && firmsByQ[q] == before[q];
            assert before[q] != f;
          }
        }
      }
    }

    /**
     * Firm.killFirm with the intended removal: the entry at the firm's
     * quality goes, every consumer forgets the firm (and drops it as its
     * choice when the ids match), and the firm leaves the market.
     */
    method KillFirm(f: Firm, consumers: seq<Consumer>)
      modifies this, consumers
      ensures firmsByQ == old(firmsByQ) - {f.offer.quality}
      ensures members == old(members) - {f} && toBeKilled == old(toBeKilled)
      ensures forall c :: c in consumers ==>
        c.knownFirms == old(c.knownFirms) - {f} && c.chosenFirm == AfterRemoval(old(c.chosenFirm), f)
    {
      RemoveFromFirmListsByQuality(f);
      var i := 0;
      while i < |consumers|
        invariant 0 <= i <= |consumers|
        invariant firmsByQ == old(firmsByQ) - {f.offer.quality}
        invariant members == old(members) && toBeKilled == old(toBeKilled)
        invariant forall c :: c in consumers[..i] ==>
          c.knownFirms == old(c.knownFirms) - {f} && c.chosenFirm == AfterRemoval(old(c.chosenFirm), f)
        invariant forall c :: c in consumers && c !in consumers[..i] ==>
          c.knownFirms == old(c.knownFirms) && c.chosenFirm == old(c.chosenFirm)
      {
        var c := consumers[i];
        c.RemoveTraceOfFirm(f);
        assert consumers[..i + 1] == consumers[..i] + [c];
        i := i + 1;
      }
      assert consumers[..i] == consumers;
      members := members - {f};
    }

    /**
     * wipeDeadFirms: every queued firm is killed, then the queue is
     * emptied. The killed firms leave the market and the map (their
     * qualities' entries), and every consumer forgets them.
     */
    method WipeDeadFirms(consumers: seq<Consumer>)
      modifies this, consumers
      ensures toBeKilled == []
      ensures members == old(members) - set f | f in old(toBeKilled)
      ensures firmsByQ == old(firmsByQ) - QualitiesOf(old(toBeKilled))
      ensures forall c :: c in consumers ==>
        c.knownFirms == old(c.knownFirms) - (set f | f in old(toBeKilled)) &&
        c.chosenFirm == AfterRemovals(old(c.chosenFirm), old(toBeKilled))
    {
      var queue := toBeKilled;
      var j := 0;
      while j < |queue|
        invariant 0 <= j <= |queue| && toBeKilled == queue
        invariant members == old(members) - set f | f in queue[..j]
        invariant firmsByQ == old(firmsByQ) - QualitiesOf(queue[..j])
        invariant forall c :: c in consumers ==>
          c.knownFirms == old(c.knownFirms) - (set f | f in queue[..j]) &&
          c.chosenFirm == AfterRemovals(old(c.chosenFirm), queue[..j])
      {
        var f := queue[j];
        KillFirm(f, consumers);
        assert queue[..j + 1] == queue[..j] + [f];
        assert QualitiesOf(queue[..j + 1]) == QualitiesOf(queue[..j]) + {f.offer.quality};
        forall c | c in consumers
          ensures c.chosenFirm == AfterRemovals(old(c.chosenFirm), queue[..j + 1])
        {
          assert forall g :: g in queue[..j + 1] <==> g in queue[..j] || g == f;
        }
        j := j + 1;
      }
      assert queue[..j] == queue;
      toBeKilled := [];
    }
  }
}
