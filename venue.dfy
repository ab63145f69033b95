/**
 * The venue bean: a text id (the primary key), a name, and a nullable,
 * ordered list of seat recommendations that the venue owns.
 */
module Venues {
  import opened Wrappers
  import opened SeatRecommendations

  /**
   * The values a venue holds, recommendations included: `None` for a null
   * list, otherwise the states of the listed recommendations in list order.
   */
  datatype VenueState = VenueState(id: Text, name: Text, recommendations: Option<seq<SeatState>>)

  /** The states of the given recommendations, position by position. */
  function States(rs: seq<SeatRecommendation>): (r: seq<SeatState>)
    reads rs
    ensures |r| == |rs|
    ensures forall i :: 0 <= i < |rs| ==> r[i] == rs[i].State()
  {
    if rs == [] then [] else [rs[0].State()] + States(rs[1..])
  }

  class Venue {
    var id: Text
    var name: Text
    var recommendations: Option<seq<SeatRecommendation>>

    /** The current values of the venue and of the recommendations it lists. */
    function State(): VenueState
      reads this, if recommendations.Some? then recommendations.value else []
    {
      VenueState(id, name, if recommendations.Some? then Some(States(recommendations.value)) else None)
    }

    /** The no-argument constructor: id, name and recommendations are left null. */
    constructor Empty()
      ensures id == None && name == None && recommendations == None
    {
      id, name, recommendations := None, None, None;
    }

    /**
     * The three-argument constructor stores exactly what it is given; the
     * list may be empty or null.
     */
    constructor (id: Text, name: Text, recommendations: Option<seq<SeatRecommendation>>)
      ensures this.id == id && this.name == name && this.recommendations == recommendations
    {
      this.id := id;
      this.name := name;
      this.recommendations := recommendations;
    }

    method GetId() returns (r: Text)
      ensures r == id
    {
      r := id;
    }

    method SetId(id: Text)
      modifies this
      ensures this.id == id
      ensures name == old(name) && recommendations == old(recommendations)
    {
      this.id := id;
    }

    method GetName() returns (r: Text)
      ensures r == name
    {
      r := name;
    }

    method SetName(name: Text)
      modifies this
      ensures this.name == name
      ensures id == old(id) && recommendations == old(recommendations)
    {
      this.name := name;
    }

    /** Returns the stored list itself: the same recommendation objects in the same order. */
    method GetRecommendations() returns (r: Option<seq<SeatRecommendation>>)
      ensures r == recommendations
    {
      r := recommendations;
    }

    method SetRecommendations(recommendations: Option<seq<SeatRecommendation>>)
      modifies this
      ensures this.recommendations == recommendations
      ensures id == old(id) && name == old(name)
    {
      this.recommendations := recommendations;
    }
  }
}
