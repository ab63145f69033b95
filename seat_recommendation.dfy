/**
 * The seat recommendation bean: an optional persistence id and five text
 * fields, each of which Java allows to be null.
 */
module SeatRecommendations {
  import opened Wrappers

  /** A Java String reference: absent (null) or a sequence of characters. */
  type Text = Option<string>

  /** Java's 64-bit signed long, the type of the boxed id. */
  newtype Long = x: int | -0x8000_0000_0000_0000 <= x < 0x8000_0000_0000_0000

  /** The values held by the six fields of a recommendation. */
  datatype SeatState = SeatState(
    id: Option<Long>,
    section: Text,
    category: Text,
    reason: Text,
    estimatedPrice: Text,
    tip: Text)

  class SeatRecommendation {
    var id: Option<Long>
    var section: Text
    var category: Text
    var reason: Text
    var estimatedPrice: Text
    var tip: Text

    /** The current field values, as one value. */
    function State(): SeatState
      reads this
    {
      SeatState(id, section, category, reason, estimatedPrice, tip)
    }

    /** The no-argument constructor: every field is left null. */
    constructor Empty()
      ensures State() == SeatState(None, None, None, None, None, None)
    {
      id, section, category, reason, estimatedPrice, tip := None, None, None, None, None, None;
    }

    /**
     * The five-argument constructor stores its arguments, in order, into the
     * same-named fields; the id stays null until persistence generates one.
     */
    constructor (section: Text, category: Text, reason: Text, estimatedPrice: Text, tip: Text)
      ensures State() == SeatState(None, section, category, reason, estimatedPrice, tip)
    {
      this.id := None;
      this.section := section;
      this.category := category;
      this.reason := reason;
      this.estimatedPrice := estimatedPrice;
      this.tip := tip;
    }

    method GetId() returns (r: Option<Long>)
      ensures r == State().id
    {
      r := id;
    }

    method SetId(id: Option<Long>)
      modifies this
      ensures State() == old(State()).(id := id)
    {
      this.id := id;
    }

    method GetSection() returns (r: Text)
      ensures r == State().section
    {
      r := section;
    }

    method SetSection(section: Text)
      modifies this
      ensures State() == old(State()).(section := section)
    {
      this.section := section;
    }

    method GetCategory() returns (r: Text)
      ensures r == State().category
    {
      r := category;
    }

    method SetCategory(category: Text)
      modifies this
      ensures State() == old(State()).(category := category)
    {
      this.category := category;
    }

    method GetReason() returns (r: Text)
      ensures r == State().reason
    {
      r := reason;
    }

    method SetReason(reason: Text)
      modifies this
      ensures State() == old(State()).(reason := reason)
    {
      this.reason := reason;
    }

    method GetEstimatedPrice() returns (r: Text)
      ensures r == State().estimatedPrice
    {
      r := estimatedPrice;
    }

    method SetEstimatedPrice(estimatedPrice: Text)
      modifies this
      ensures State() == old(State()).(estimatedPrice := estimatedPrice)
    {
      this.estimatedPrice := estimatedPrice;
    }

    method GetTip() returns (r: Text)
      ensures r == State().tip
    {
      r := tip;
    }

    method SetTip(tip: Text)
      modifies this
      ensures State() == old(State()).(tip := tip)
    {
      this.tip := tip;
    }
  }

  /**
   * A client of the bean: a value written by a setter is read back by the
   * matching getter, and writing one field leaves the other five as they were.
   */
  method SetThenGet(s: SeatRecommendation, section: Text) returns (r: Text, other: SeatState)
    modifies s
    ensures r == section
    ensures other == old(s.State()).(section := section)
  {
    s.SetSection(section);
    r := s.GetSection();
    other := s.State();
  }
}
