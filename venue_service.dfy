/**
 * The in-memory venue store: a map from venue id to venue, filled once at
 * construction with ten fixed venues and afterwards only read.
 */
module VenueServices {
  import opened Wrappers
  import opened SeatRecommendations
  import opened Venues

  /** A seeded recommendation: every text field set, id not yet generated. */
  function Seeded(section: string, category: string, reason: string, estimatedPrice: string, tip: string): SeatState
  {
    SeatState(None, Some(section), Some(category), Some(reason), Some(estimatedPrice), Some(tip))
  }

  /**
   * The seeding table: the key of each put and the venue put under it, in
   * the order the puts are made; each list is in the order written.
   */
  function SeedList(): seq<(string, VenueState)>
  {
    [
      ("msg", VenueState(Some("msg"), Some("Madison Square Garden"), Some([
        Seeded("104", "Lower Bowl", "Best resale value & view of stage", "$250", "Avoid row 20+ due to rigging obstruction"),
        Seeded("212", "Budget 200-Level", "Good price-to-view ratio", "$120", "Stick to first 5 rows for best view"),
        Seeded("VIP C", "Courtside Celebrity", "Ultimate fan experience", "$750", "Dress sharp, cameras are always rolling")
      ]))),
      ("yankee", VenueState(Some("yankee"), Some("Yankee Stadium"), Some([
        Seeded("Legends", "Premium", "Close to the field, luxury service", "$450", "Includes all-you-can-eat buffet"),
        Seeded("Upper Deck 423", "Budget Shade", "Great for day games", "$60", "Covered from sun and rain"),
        Seeded("203", "Bleacher Creatures Zone", "Hardcore fan energy", "$45", "Chant with the crowd or be left behind")
      ]))),
      ("barclays", VenueState(Some("barclays"), Some("Barclays Center"), Some([
        Seeded("118", "Lower Bowl", "Great view of the action", "$180", "Behind team benches"),
        Seeded("210", "Mid Bowl Value", "Good elevation for basketball", "$110", "Center seats best")
      ]))),
      ("redrocks", VenueState(Some("redrocks"), Some("Red Rocks Amphitheatre"), Some([
        Seeded("Center Terrace", "Acoustic Sweet Spot", "Best natural sound quality", "$140", "Bring a cushion!"),
        Seeded("Upper Bowl", "Scenic Views", "Best sunset shots", "$95", "Come early, stairs are steep")
      ]))),
      ("radiocity", VenueState(Some("radiocity"), Some("Radio City Music Hall"), Some([
        Seeded("Orchestra A", "Front Orchestra", "Close to the Rockettes", "$200", "Rows A\U{2013}E are prime"),
        Seeded("Balcony R", "Side Balcony Gems", "Great acoustics & value", "$85", "Farther from crowd noise")
      ]))),
      ("citi", VenueState(Some("citi"), Some("Citi Field"), Some([
        Seeded("111", "Field Level", "Right behind home plate", "$280", "Watch the pitcher\U{2019}s grip closely"),
        Seeded("Bleachers", "Budget", "Cheapest option in the park", "$40", "Bring sunscreen, no shade"),
        Seeded("305", "Family Zone", "Kiddie games nearby", "$65", "Kids eat free days are frequent")
      ]))),
      ("att", VenueState(Some("att"), Some("AT&T Stadium"), Some([
        Seeded("C210", "Club Level VIP", "Upscale amenities & views", "$325", "Includes access to lounges"),
        Seeded("50-Yard Mid", "Center Field Premium", "Perfect strategic view", "$480", "Watch both sidelines like a coach")
      ]))),
      ("crypto", VenueState(Some("crypto"), Some("Crypto.com Arena"), Some([
        Seeded("Courtside", "Celebrity Experience", "Star sightings and up-close action", "$900", "Cameras always rolling"),
        Seeded("325", "Upper Bowl Steal", "Budget with solid views", "$55", "Watch for halftime deals")
      ]))),
      ("scg", VenueState(Some("scg"), Some("Sydney Cricket Ground"), Some([
        Seeded("Members Pavilion", "Historic VIP", "Old-world charm and exclusivity", "$300", "Strict dress code enforced"),
        Seeded("The Hill", "GA Lawn", "Bring a blanket, chill out", "$50", "Arrive early for shade")
      ]))),
      ("marvel", VenueState(Some("marvel"), Some("Marvel Stadium"), Some([
        Seeded("Medallion Club", "AFL Elite", "Centrally located and catered", "$340", "Includes bar access"),
        Seeded("Cheer Squad", "Fan Section", "Most energetic area", "$60", "Wear team colors or be ready to sing")
      ])))
    ]
  }

  /** The ids of the seeded venues, in put order. */
  const SeedIdList: seq<string> :=
    ["msg", "yankee", "barclays", "redrocks", "radiocity", "citi", "att", "crypto", "scg", "marvel"]

  /** The ids of the seeded venues. */
  const SeedIds: set<string> := set k | k in SeedIdList

  /** No key is put twice. */
  ghost predicate DistinctKeys<V>(entries: seq<(string, V)>)
  {
    forall i, j :: 0 <= i < j < |entries| ==> entries[i].0 != entries[j].0
  }

  /** The map holding each entry's value under the entry's key. */
  function AsMap<V>(entries: seq<(string, V)>): map<string, V>
    requires DistinctKeys(entries)
  {
    map i | 0 <= i < |entries| :: entries[i].0 := entries[i].1
  }

  /** Each entry's value is stored under its key. */
  lemma AsMapAt<V>(entries: seq<(string, V)>, i: nat)
    requires DistinctKeys(entries) && i < |entries|
    ensures entries[i].0 in AsMap(entries) && AsMap(entries)[entries[i].0] == entries[i].1
  {
  }

  /** The entries' keys, in order. */
  function KeysOf<V>(entries: seq<(string, V)>): seq<string>
  {
    seq(|entries|, i requires 0 <= i < |entries| => entries[i].0)
  }

  /** Entries whose listed keys are pairwise distinct put no key twice. */
  lemma KeysOfDistinct<V>(entries: seq<(string, V)>)
    requires forall i, j :: 0 <= i < j < |KeysOf(entries)| ==> KeysOf(entries)[i] != KeysOf(entries)[j]
    ensures DistinctKeys(entries)
  {
    var ks := KeysOf(entries);
    forall i, j | 0 <= i < j < |entries| ensures entries[i].0 != entries[j].0 {
      assert ks[i] == entries[i].0 && ks[j] == entries[j].0;
    }
  }

  /** The listed keys are the entries' keys. */
  lemma KeysOfElements<V>(entries: seq<(string, V)>)
    ensures (set k | k in KeysOf(entries)) == set i | 0 <= i < |entries| :: entries[i].0
  {
    var ks := KeysOf(entries);
    forall k | k in ks ensures exists i :: 0 <= i < |entries| && entries[i].0 == k {
      var i :| 0 <= i < |ks| && ks[i] == k;
    }
    forall i | 0 <= i < |entries| ensures entries[i].0 in ks {
      assert ks[i] == entries[i].0;
    }
  }

  /** Distinct keys give one map entry per list entry. */
  lemma {:induction false} AsMapSize<V>(entries: seq<(string, V)>)
    requires DistinctKeys(entries)
    ensures |AsMap(entries)| == |entries|
    decreases |entries|
  {
    if |entries| > 0 {
      var n := |entries| - 1;
      var init := entries[..n];
      assert DistinctKeys(init) by {
        forall i, j | 0 <= i < j < n ensures init[i].0 != init[j].0 {
          assert init[i] == entries[i] && init[j] == entries[j];
        }
      }
      AsMapSize(init);
      AsMapKeys(init);
      assert entries[n].0 !in AsMap(init) by {
        forall i | 0 <= i < n ensures init[i].0 != entries[n].0 {
          assert init[i] == entries[i];
        }
      }
      assert AsMap(entries).Keys == AsMap(init).Keys + {entries[n].0} by {
        AsMapKeys(entries);
        forall k | k in AsMap(entries) ensures k in AsMap(init) || k == entries[n].0 {
          var i :| 0 <= i < |entries| && entries[i].0 == k;
          if i < n {
            assert init[i] == entries[i];
          }
        }
      }
    }
  }

  /** What holds of every entry holds of every key and the value stored under it. */
  lemma AsMapHolds<V>(entries: seq<(string, V)>, p: (string, V) -> bool)
    requires DistinctKeys(entries)
    requires forall i :: 0 <= i < |entries| ==> p(entries[i].0, entries[i].1)
    ensures forall k :: k in AsMap(entries) ==> p(k, AsMap(entries)[k])
  {
    forall k | k in AsMap(entries) ensures p(k, AsMap(entries)[k]) {
      var i :| 0 <= i < |entries| && entries[i].0 == k;
      AsMapAt(entries, i);
    }
  }

  /** The keys of the map are exactly the entries' keys. */
  lemma AsMapKeys<V>(entries: seq<(string, V)>)
    requires DistinctKeys(entries)
    ensures AsMap(entries).Keys == set i | 0 <= i < |entries| :: entries[i].0
  {
  }

  /** What the store holds after construction. */
  function SeedVenues(): map<string, VenueState>
  {
    SeedKeysDistinct();
    AsMap(SeedList())
  }

  /**
   * Allocates a venue holding the given values, with one fresh recommendation
   * object per listed recommendation, created in list order by the
   * five-argument constructor (so none of them has an id yet).
   */
  method NewVenue(seed: VenueState) returns (v: Venue)
    requires seed.recommendations.Some? ==>
      forall i :: 0 <= i < |seed.recommendations.value| ==> seed.recommendations.value[i].id == None
    ensures fresh(v) && v.State() == seed
    ensures v.recommendations.Some? ==> fresh(v.recommendations.value)
  {
    if seed.recommendations.None? {
      v := new Venue(seed.id, seed.name, None);
      return;
    }
    var seeds := seed.recommendations.value;
    var recs: seq<SeatRecommendation> := [];
    for i := 0 to |seeds|
      invariant |recs| == i && fresh(recs)
      invariant forall j :: 0 <= j < i ==> recs[j].State() == seeds[j]
    {
      var r := new SeatRecommendation(seeds[i].section, seeds[i].category, seeds[i].reason, seeds[i].estimatedPrice, seeds[i].tip);
      recs := recs + [r];
    }
    assert States(recs) == seeds;
    v := new Venue(seed.id, seed.name, Some(recs));
  }

  class VenueService {
    var venueMap: map<string, Venue>

    /** The store's invariant: every entry is keyed by the id of the venue stored under it. */
    ghost predicate Valid()
      reads this, venueMap.Values
    {
      forall k :: k in venueMap ==> venueMap[k].id == Some(k)
    }

    /** The recommendation objects listed by the stored venues. */
    ghost function Footprint(): set<object>
      reads this, venueMap.Values
    {
      set v, r | v in venueMap.Values && v.recommendations.Some? && r in v.recommendations.value :: r
    }

    /** The store's contents as values: each key with the current state of its venue. */
    ghost function Contents(): map<string, VenueState>
      reads this, venueMap.Values, Footprint()
    {
      map k | k in venueMap ::
        assert forall r :: r in (if venueMap[k].recommendations.Some? then venueMap[k].recommendations.value else []) ==> r in Footprint();
        venueMap[k].State()
    }

    /** Creates the store and seeds it. */
    constructor ()
      ensures Valid()
      ensures Contents() == SeedVenues()
      ensures venueMap.Keys == SeedIds
    {
      venueMap := map[];
      new;
      SeedData();
      SeedVenueKeys();
      ContentsKeys();
    }

    /** The contents have an entry for each key of the map, and no other. */
    lemma ContentsKeys()
      ensures Contents().Keys == venueMap.Keys
    {
    }

    /** Puts each seeded venue into the empty map, in the order of the seeding table. */
    method SeedData()
      requires venueMap == map[]
      modifies this
      ensures Valid()
      ensures Contents() == SeedVenues()
    {
      SeedListWellFormed();
      SeedKeysDistinct();
      PutVenues(SeedList());
    }

    /** Puts a fresh venue built from each entry's value under the entry's key, in order. */
    method PutVenues(entries: seq<(string, VenueState)>)
      requires venueMap == map[]
      requires DistinctKeys(entries)
      requires forall i :: 0 <= i < |entries| ==> entries[i].1.id == Some(entries[i].0)
      requires forall i :: 0 <= i < |entries| ==> var recs := entries[i].1.recommendations;
        recs.Some? ==> forall j :: 0 <= j < |recs.value| ==> recs.value[j].id == None
      modifies this
      ensures Valid()
      ensures Contents() == AsMap(entries)
    {
      for i := 0 to |entries|
        invariant Valid()
        invariant venueMap.Keys == set j | 0 <= j < i :: entries[j].0
        invariant forall j :: 0 <= j < i ==> venueMap[entries[j].0].State() == entries[j].1
      {
        PutVenue(entries[i].0, entries[i].1);
      }
      ContentsOfEntries(entries);
    }

    /** Puts a fresh venue built from `seed` under the new key `key`, leaving the stored venues as they were. */
    method PutVenue(key: string, seed: VenueState)
      requires Valid() && key !in venueMap && seed.id == Some(key)
      requires seed.recommendations.Some? ==>
        forall j :: 0 <= j < |seed.recommendations.value| ==> seed.recommendations.value[j].id == None
      modifies this
      ensures Valid()
      ensures venueMap.Keys == old(venueMap.Keys) + {key}
      ensures fresh(venueMap[key]) && venueMap[key].State() == seed
      ensures forall k :: k in old(venueMap) ==> venueMap[k] == old(venueMap[k]) && venueMap[k].State() == old(venueMap[k].State())
    {
      var v := NewVenue(seed);
      venueMap := venueMap[key := v];
    }

    /** A store holding, under each entry's key, a venue whose state is that entry's value has `AsMap(entries)` as contents. */
    lemma ContentsOfEntries(entries: seq<(string, VenueState)>)
      requires DistinctKeys(entries)
      requires venueMap.Keys == set j | 0 <= j < |entries| :: entries[j].0
      requires forall j :: 0 <= j < |entries| ==> venueMap[entries[j].0].State() == entries[j].1
      ensures Contents() == AsMap(entries)
    {
      forall k | k in venueMap
        ensures k in AsMap(entries) && Contents()[k] == AsMap(entries)[k]
      {
        var j :| 0 <= j < |entries| && entries[j].0 == k;
        AsMapAt(entries, j);
      }
      AsMapKeys(entries);
    }

    /**
     * A fresh list of the stored venues, in no particular order: `keys` is
     * the order in which the map's keys were visited, each key exactly once,
     * and `vs` lists the venue stored under each of them.
     */
    method GetAllVenues() returns (vs: seq<Venue>, ghost keys: seq<string>)
      ensures |vs| == |keys| == |venueMap|
      ensures forall i :: 0 <= i < |keys| ==> keys[i] in venueMap && vs[i] == venueMap[keys[i]]
      ensures forall i, j :: 0 <= i < j < |keys| ==> keys[i] != keys[j]
      ensures forall k :: k in venueMap ==> k in keys
      ensures forall v :: v in vs <==> v in venueMap.Values
      ensures Valid() ==> forall i, j :: 0 <= i < j < |vs| ==> vs[i] != vs[j]
    {
      var rest := venueMap.Keys;
      vs, keys := [], [];
      while rest != {}
        invariant rest <= venueMap.Keys
        invariant |vs| == |keys| && |keys| + |rest| == |venueMap|
        invariant forall i :: 0 <= i < |keys| ==> keys[i] in venueMap && keys[i] !in rest && vs[i] == venueMap[keys[i]]
        invariant forall i, j :: 0 <= i < j < |keys| ==> keys[i] != keys[j]
        invariant forall k :: k in venueMap ==> k in rest || k in keys
        decreases |rest|
      {
        var k :| k in rest;
        vs, keys, rest := vs + [venueMap[k]], keys + [k], rest - {k};
      }
    }

    /** Exact, case-sensitive lookup: present iff the id is a key, and then the venue stored under it. */
    function GetVenueById(id: string): (r: Option<Venue>)
      reads this
      ensures r.Some? <==> id in venueMap
      ensures r.Some? ==> r.value == venueMap[id]
    {
      if id in venueMap then Some(venueMap[id]) else None
    }
  }

  /** Every seeded venue is put under its own id, and no seeded recommendation has an id yet. */
  lemma SeedListWellFormed()
    ensures forall i :: 0 <= i < |SeedList()| ==> SeedList()[i].1.id == Some(SeedList()[i].0)
    ensures forall i :: 0 <= i < |SeedList()| ==> var recs := SeedList()[i].1.recommendations;
      recs.Some? && forall j :: 0 <= j < |recs.value| ==> recs.value[j].id == None
  {
  }

  /** The seeding table puts each key once. */
  lemma SeedKeysDistinct()
    ensures DistinctKeys(SeedList())
  {
    SeedKeys();
    SeedIdListDistinct();
    KeysOfDistinct(SeedList());
  }

  /** No id is listed twice among the seeded ids. */
  lemma SeedIdListDistinct()
    ensures forall i, j :: 0 <= i < j < |SeedIdList| ==> SeedIdList[i] != SeedIdList[j]
  {
  }

  /** The keys of the seeding table, in put order. */
  lemma SeedKeys()
    ensures KeysOf(SeedList()) == SeedIdList
  {
  }

  /** Ten venues are seeded, under exactly the ids in `SeedIds`. */
  lemma SeedVenueKeys()
    ensures SeedVenues().Keys == SeedIds
    ensures |SeedVenues()| == 10
  {
    SeedKeysDistinct();
    AsMapKeys(SeedList());
    KeysOfElements(SeedList());
    AsMapSize(SeedList());
    SeedKeys();
  }

  /** Every seeded venue carries its key as its id. */
  lemma SeedVenueIds()
    ensures forall k :: k in SeedVenues() ==> SeedVenues()[k].id == Some(k)
  {
    SeedKeysDistinct();
    SeedListWellFormed();
    AsMapHolds(SeedList(), (k: string, v: VenueState) => v.id == Some(k));
  }

  /** Every seeded venue lists its recommendations, none of which has an id yet. */
  lemma SeedRecommendationsUnsaved()
    ensures forall k :: k in SeedVenues() ==> var recs := SeedVenues()[k].recommendations;
      recs.Some? && forall j :: 0 <= j < |recs.value| ==> recs.value[j].id == None
  {
    SeedKeysDistinct();
    SeedListWellFormed();
    AsMapHolds(SeedList(), (k: string, v: VenueState) =>
      v.recommendations.Some? && forall j :: 0 <= j < |v.recommendations.value| ==> v.recommendations.value[j].id == None);
  }

  /** The first seeded venue: Madison Square Garden, with three recommendations, the first for section 104. */
  lemma SeedMadisonSquareGarden()
    ensures "msg" in SeedVenues()
    ensures SeedVenues()["msg"].name == Some("Madison Square Garden")
    ensures SeedVenues()["msg"].recommendations.Some? && |SeedVenues()["msg"].recommendations.value| == 3
    ensures SeedVenues()["msg"].recommendations.value[0].section == Some("104")
  {
    SeedKeysDistinct();
    AsMapAt(SeedList(), 0);
  }
}
