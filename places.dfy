/** The built-in table of well-known Bangalore localities, consulted before
    any geocoding, in the order the planner lists them. */
module Places {
  import opened Base

  const Locations: seq<(string, Coord)> := [
    ("koramangala", Coord(12.9352, 77.6245)),
    ("whitefield", Coord(12.9698, 77.7500)),
    ("indiranagar", Coord(12.9784, 77.6408)),
    ("mg road", Coord(12.9719, 77.6101)),
    ("electronic city", Coord(12.8452, 77.6602)),
    ("hsr layout", Coord(12.9121, 77.6446)),
    ("jayanagar", Coord(12.9308, 77.5838)),
    ("banashankari", Coord(12.9255, 77.5468)),
    ("malleswaram", Coord(13.0031, 77.5643)),
    ("hebbal", Coord(13.0334, 77.5891)),
    ("yelahanka", Coord(13.1007, 77.5963)),
    ("majestic", Coord(12.9767, 77.5713))
  ]

  /** `key` is listed at `i` and at no earlier index. */
  predicate FirstListedAt(entries: seq<(string, Coord)>, key: string, i: int) {
    0 <= i < |entries| && entries[i].0 == key && forall j :: 0 <= j < i ==> entries[j].0 != key
  }

  /** The position listed first under `key` in `entries`. */
  function Lookup(entries: seq<(string, Coord)>, key: string): (r: Option<Coord>)
    ensures r.None? <==> forall i :: 0 <= i < |entries| ==> entries[i].0 != key
    ensures r.Some? ==> exists i :: FirstListedAt(entries, key, i) && entries[i].1 == r.value
  {
    if entries == [] then None
    else if entries[0].0 == key then
      assert FirstListedAt(entries, key, 0);
      Some(entries[0].1)
    else
      var r := Lookup(entries[1..], key);
      assert r.Some? ==> exists i :: FirstListedAt(entries, key, i) && entries[i].1 == r.value by {
        if r.Some? {
          var i :| FirstListedAt(entries[1..], key, i) && entries[1..][i].1 == r.value;
          assert FirstListedAt(entries, key, i + 1);
        }
      }
      r
  }

  /** `LOCATIONS.get(key)`: exact, case-sensitive key match. */
  function LookupLocation(key: string): Option<Coord> { Lookup(Locations, key) }

  /** The two fallback places, Indiranagar and MG Road, are in the table. */
  lemma FallbacksListed()
    ensures LookupLocation("indiranagar") == Some(Coord(12.9784, 77.6408))
    ensures LookupLocation("mg road") == Some(Coord(12.9719, 77.6101))
  {
    assert Locations[2] == ("indiranagar", Coord(12.9784, 77.6408));
    assert Locations[3] == ("mg road", Coord(12.9719, 77.6101));
  }
}
