/**
 * The REST controller for `/venues`: listing passes the store's list through,
 * and a lookup that finds nothing becomes a NOT_FOUND failure.
 */
module VenueControllers {
  import opened Wrappers
  import opened Venues
  import opened VenueServices

  const NotFoundReason: string := "Venue not found"

  /** The outcome of a lookup: the venue (status 200) or a NOT_FOUND failure (status 404) with its reason. */
  datatype VenueResponse = Found(venue: Venue) | NotFound(reason: string)

  /** A present venue is returned as it is; an absent one becomes NOT_FOUND "Venue not found". */
  function ToResponse(o: Option<Venue>): (r: VenueResponse)
    ensures r.Found? <==> o.Some?
    ensures r.Found? ==> r.venue == o.value
    ensures r.NotFound? ==> r.reason == NotFoundReason
  {
    match o
    case Some(v) => Found(v)
    case None => NotFound(NotFoundReason)
  }

  class VenueController {
    const venueService: VenueService

    /** The service is injected once and never replaced. */
    constructor (venueService: VenueService)
      ensures this.venueService == venueService
    {
      this.venueService := venueService;
    }

    /** The service's list of all venues, unmodified. */
    method GetVenues() returns (vs: seq<Venue>, ghost keys: seq<string>)
      ensures |vs| == |keys| == |venueService.venueMap|
      ensures forall i :: 0 <= i < |keys| ==> keys[i] in venueService.venueMap && vs[i] == venueService.venueMap[keys[i]]
      ensures forall i, j :: 0 <= i < j < |keys| ==> keys[i] != keys[j]
      ensures forall k :: k in venueService.venueMap ==> k in keys
      ensures forall v :: v in vs <==> v in venueService.venueMap.Values
      ensures venueService.Valid() ==> forall i, j :: 0 <= i < j < |vs| ==> vs[i] != vs[j]
    {
      vs, keys := venueService.GetAllVenues();
    }

    /**
     * Looks the path id up unchanged: the stored venue when the id is a key
     * (and then the venue's own id is that id), NOT_FOUND otherwise.
     */
    function GetVenueById(id: string): (r: VenueResponse)
      reads this, venueService, venueService.venueMap.Values
      ensures r.Found? <==> id in venueService.venueMap
      ensures r.Found? ==> r.venue == venueService.venueMap[id]
      ensures r.NotFound? ==> r.reason == NotFoundReason
      ensures r.Found? && venueService.Valid() ==> r.venue.id == Some(id)
    {
      ToResponse(venueService.GetVenueById(id))
    }
  }

  /** Against the seeded store, exactly the ten seeded ids are found; every other id is NOT_FOUND. */
  lemma SeededLookup(c: VenueController, id: string)
    requires c.venueService.venueMap.Keys == SeedIds && c.venueService.Valid()
    ensures c.GetVenueById(id).Found? <==> id in SeedIds
    ensures c.GetVenueById(id).Found? ==> c.GetVenueById(id).venue.id == Some(id)
    ensures id !in SeedIds ==> c.GetVenueById(id) == NotFound(NotFoundReason)
  {
  }

  /** Ids are matched exactly: "msg" is seeded, its upper-case variant is not. */
  lemma SeedIdsCaseSensitive()
    ensures "msg" in SeedIds && "MSG" !in SeedIds
  {
    assert SeedIdList[0] == "msg";
  }
}
