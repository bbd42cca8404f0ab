/**
 * The map search page (`pages/map-search`): the available rooms as pins
 * on a map, narrowed by a search text and a list of filter chips, with an
 * optional sort by price, and a batch job that geocodes rooms without
 * coordinates.
 */
module MapSearch {
  import opened Wrappers
  import opened Text
  import Seqs

  const CentreLatitude: real := 22.543099
  const CentreLongitude: real := 114.057868
  /** The spread of the random pin placement around the centre. */
  const Spread: real := 0.05
  const SubwayMark := "地铁"
  const DefaultCity := "深圳市"
  const RentalFilters: seq<string> := ["whole", "shared", "single"]

  /**
   * A coordinate field as JavaScript sees it: whether it is truthy, and
   * what `parseFloat` makes of it (`None` for `NaN`). The two are
   * independent: the number `0` is falsy but parses, `"abc"` is truthy
   * but does not.
   */
  datatype Coordinate = Coordinate(truthy: bool, parsed: Option<real>)

  /** A coordinate written back from a geocoding result. */
  function Number(v: real): Coordinate {
    Coordinate(v != 0.0, Some(v))
  }

  datatype Room = Room(
    id: int,
    city: Option<string>,
    district: Option<string>,
    street: Option<string>,
    communityName: Option<string>,
    rentalType: Option<int>,
    description: Option<string>,
    rentPrice: int,
    latitude: Coordinate,
    longitude: Coordinate)

  // ---------------------------------------------------------------------
  // toggleFilter
  // ---------------------------------------------------------------------

  predicate IsRental(t: string) {
    t in RentalFilters
  }

  predicate NotRental(t: string) {
    !IsRental(t)
  }

  /** The filter `t => t !== type`. */
  function Other(t: string): string -> bool {
    (x: string) => x != t
  }

  /**
   * The filter list after tapping chip `t`: an active chip is removed; an
   * inactive one is appended, after removing every rental type when it is
   * a rental type itself.
   */
  function Toggled(filters: seq<string>, t: string): seq<string> {
    if t in filters then Seqs.Filter(filters, Other(t))
    else if IsRental(t) then Seqs.Filter(filters, NotRental) + [t]
    else filters + [t]
  }

  /** Switching an active chip off removes it and keeps every other chip, in order. */
  lemma ToggleOff(filters: seq<string>, t: string)
    requires t in filters
    ensures var r := Toggled(filters, t);
            && t !in r
            && (forall x :: x != t ==> (x in r <==> x in filters))
            && Seqs.IsSubsequence(r, filters)
  {
    Seqs.FilterIsSubsequence(filters, Other(t));
  }

  /**
   * Switching an inactive chip on appends it; a rental type first drops
   * the other rental types, any other chip keeps the list as it was.
   */
  lemma ToggleOn(filters: seq<string>, t: string)
    requires t !in filters
    ensures var r := Toggled(filters, t);
            && r != [] && r[|r| - 1] == t
            && Seqs.IsSubsequence(r[..|r| - 1], filters)
            && (IsRental(t) ==> forall x :: x in r[..|r| - 1] <==> x in filters && !IsRental(x))
            && (!IsRental(t) ==> r[..|r| - 1] == filters)
  {
    var r := Toggled(filters, t);
    if IsRental(t) {
      assert r[..|r| - 1] == Seqs.Filter(filters, NotRental);
      Seqs.FilterIsSubsequence(filters, NotRental);
    } else {
      assert r[..|r| - 1] == filters;
      Seqs.SubsequenceRefl(filters);
    }
  }

  /** The number of rental-type chips in the list. */
  function RentalCount(filters: seq<string>): nat {
    if filters == [] then 0
    else (if IsRental(filters[0]) then 1 else 0) + RentalCount(filters[1..])
  }

  lemma {:induction false} RentalCountAppend(a: seq<string>, b: seq<string>)
    ensures RentalCount(a + b) == RentalCount(a) + RentalCount(b)
  {
    if a != [] {
      assert (a + b)[1..] == a[1..] + b;
      RentalCountAppend(a[1..], b);
    } else {
      assert a + b == b;
    }
  }

  lemma {:induction false} RentalCountFilter(filters: seq<string>, p: string -> bool)
    ensures RentalCount(Seqs.Filter(filters, p)) <= RentalCount(filters)
  {
    if filters != [] {
      RentalCountFilter(filters[1..], p);
      if p(filters[0]) {
        assert Seqs.Filter(filters, p) == [filters[0]] + Seqs.Filter(filters[1..], p);
        RentalCountAppend([filters[0]], Seqs.Filter(filters[1..], p));
      }
    }
  }

  lemma {:induction false} RentalCountNone(filters: seq<string>)
    ensures RentalCount(Seqs.Filter(filters, NotRental)) == 0
  {
    if filters != [] {
      RentalCountNone(filters[1..]);
      if NotRental(filters[0]) {
        assert Seqs.Filter(filters, NotRental) == [filters[0]] + Seqs.Filter(filters[1..], NotRental);
        RentalCountAppend([filters[0]], Seqs.Filter(filters[1..], NotRental));
      }
    }
  }

  /** Tapping chips never makes two rental types active at once. */
  lemma ToggleKeepsOneRental(filters: seq<string>, t: string)
    requires RentalCount(filters) <= 1
    ensures RentalCount(Toggled(filters, t)) <= 1
  {
    if t in filters {
      RentalCountFilter(filters, Other(t));
    } else if IsRental(t) {
      RentalCountNone(filters);
      RentalCountAppend(Seqs.Filter(filters, NotRental), [t]);
    } else {
      RentalCountAppend(filters, [t]);
      assert RentalCount([t]) == 0;
    }
  }

  /** Tapping an inactive chip that is not a rental type twice gives the list back. */
  lemma ToggleTwice(filters: seq<string>, t: string)
    requires t !in filters && !IsRental(t)
    ensures Toggled(Toggled(filters, t), t) == filters
  {
    assert Toggled(filters, t) == filters + [t];
    Seqs.FilterAppend(filters, [t], Other(t));
    Seqs.FilterAllPass(filters, Other(t));
    assert Seqs.Filter([t], Other(t)) == [];
  }

  // ---------------------------------------------------------------------
  // applyFilters
  // ---------------------------------------------------------------------

  /** `field && field.toLowerCase().includes(key)` */
  predicate FieldHas(field: Option<string>, key: string) {
    Truthy(field) && Contains(ToLower(field.value), key)
  }

  /** The search filter for the lower-cased key. */
  function MatchesKey(key: string): Room -> bool {
    (r: Room) => FieldHas(r.communityName, key) || FieldHas(r.district, key) || FieldHas(r.street, key)
  }

  function HasRentalType(k: int): Room -> bool {
    (r: Room) => r.rentalType == Some(k)
  }

  predicate NearSubway(r: Room) {
    Truthy(r.description) && Contains(r.description.value, SubwayMark)
  }

  /** The rooms kept by the search text and the filter chips, before any sort. */
  function Selected(rooms: seq<Room>, searchText: string, filters: seq<string>): seq<Room> {
    var a := if searchText != "" then Seqs.Filter(rooms, MatchesKey(ToLower(searchText))) else rooms;
    var b := if "whole" in filters then Seqs.Filter(a, HasRentalType(0)) else a;
    var c := if "shared" in filters then Seqs.Filter(b, HasRentalType(1)) else b;
    var d := if "single" in filters then Seqs.Filter(c, HasRentalType(2)) else c;
    if "subway" in filters then Seqs.Filter(d, NearSubway) else d
  }

  /** `b.rentPrice - a.rentPrice` as a sort key: ascending in it is descending in price. */
  function PriceDescending(r: Room): int {
    -r.rentPrice
  }

  /** `applyFilters`: the rooms shown. */
  function Filtered(rooms: seq<Room>, searchText: string, filters: seq<string>): seq<Room> {
    var kept := Selected(rooms, searchText, filters);
    if "price_desc" in filters then Seqs.SortBy(kept, PriceDescending) else kept
  }

  /** A room passes every active filter. */
  predicate MeetsFilters(r: Room, searchText: string, filters: seq<string>) {
    && (searchText != "" ==>
          var key := ToLower(searchText);
          FieldHas(r.communityName, key) || FieldHas(r.district, key) || FieldHas(r.street, key))
    && ("whole" in filters ==> r.rentalType == Some(0))
    && ("shared" in filters ==> r.rentalType == Some(1))
    && ("single" in filters ==> r.rentalType == Some(2))
    && ("subway" in filters ==> NearSubway(r))
  }

  /** The kept rooms are exactly the rooms passing every filter, in their original order. */
  lemma SelectedSpec(rooms: seq<Room>, searchText: string, filters: seq<string>)
    ensures var s := Selected(rooms, searchText, filters);
            && Seqs.IsSubsequence(s, rooms)
            && forall x :: x in s <==> x in rooms && MeetsFilters(x, searchText, filters)
  {
    SelectedSubsequence(rooms, searchText, filters);
    SelectedMembers(rooms, searchText, filters);
  }

  lemma SelectedSubsequence(rooms: seq<Room>, searchText: string, filters: seq<string>)
    ensures Seqs.IsSubsequence(Selected(rooms, searchText, filters), rooms)
  {
    var key := ToLower(searchText);
    var a := if searchText != "" then Seqs.Filter(rooms, MatchesKey(key)) else rooms;
    var b := if "whole" in filters then Seqs.Filter(a, HasRentalType(0)) else a;
    var c := if "shared" in filters then Seqs.Filter(b, HasRentalType(1)) else b;
    var d := if "single" in filters then Seqs.Filter(c, HasRentalType(2)) else c;
    var e := if "subway" in filters then Seqs.Filter(d, NearSubway) else d;
    StepSubsequence(rooms, a, searchText != "", MatchesKey(key));
    StepSubsequence(a, b, "whole" in filters, HasRentalType(0));
    StepSubsequence(b, c, "shared" in filters, HasRentalType(1));
    StepSubsequence(c, d, "single" in filters, HasRentalType(2));
    StepSubsequence(d, e, "subway" in filters, NearSubway);
    Seqs.SubsequenceTrans(b, a, rooms);
    Seqs.SubsequenceTrans(c, b, rooms);
    Seqs.SubsequenceTrans(d, c, rooms);
    Seqs.SubsequenceTrans(e, d, rooms);
  }

  lemma SelectedMembers(rooms: seq<Room>, searchText: string, filters: seq<string>)
    ensures forall x :: x in Selected(rooms, searchText, filters) <==> x in rooms && MeetsFilters(x, searchText, filters)
  {
    var key := ToLower(searchText);
    var a := if searchText != "" then Seqs.Filter(rooms, MatchesKey(key)) else rooms;
    var b := if "whole" in filters then Seqs.Filter(a, HasRentalType(0)) else a;
    var c := if "shared" in filters then Seqs.Filter(b, HasRentalType(1)) else b;
    var d := if "single" in filters then Seqs.Filter(c, HasRentalType(2)) else c;
    var e := if "subway" in filters then Seqs.Filter(d, NearSubway) else d;
    assert e == Selected(rooms, searchText, filters);
    forall x
      ensures x in e <==> x in rooms && MeetsFilters(x, searchText, filters)
    {
      StepAt(rooms, a, searchText != "", MatchesKey(key), x);
      StepAt(a, b, "whole" in filters, HasRentalType(0), x);
      StepAt(b, c, "shared" in filters, HasRentalType(1), x);
      StepAt(c, d, "single" in filters, HasRentalType(2), x);
      StepAt(d, e, "subway" in filters, NearSubway, x);
      KeyFilter(x, searchText);
    }
  }

  /** The search step's filter is the search clause of `MeetsFilters`. */
  lemma KeyFilter(x: Room, searchText: string)
    ensures MatchesKey(ToLower(searchText))(x) <==>
              var key := ToLower(searchText);
              FieldHas(x.communityName, key) || FieldHas(x.district, key) || FieldHas(x.street, key)
  {
  }

  /** One optional filter step deletes elements. */
  lemma StepSubsequence(before: seq<Room>, after: seq<Room>, active: bool, p: Room -> bool)
    requires after == if active then Seqs.Filter(before, p) else before
    ensures Seqs.IsSubsequence(after, before)
  {
    if active {
      Seqs.FilterIsSubsequence(before, p);
    } else {
      Seqs.SubsequenceRefl(before);
    }
  }

  /** An element survives an optional filter step exactly when it was there and passes `p`, if active. */
  lemma StepAt(before: seq<Room>, after: seq<Room>, active: bool, p: Room -> bool, x: Room)
    requires after == if active then Seqs.Filter(before, p) else before
    ensures x in after <==> x in before && (active ==> p(x))
  {
    if active && x in after {
      var i :| 0 <= i < |after| && after[i] == x;
    }
  }

  /**
   * Without `price_desc` the rooms shown are the kept rooms in their
   * order; with it they are the same rooms by non-increasing price.
   */
  lemma FilteredSpec(rooms: seq<Room>, searchText: string, filters: seq<string>)
    ensures var kept := Selected(rooms, searchText, filters);
            var r := Filtered(rooms, searchText, filters);
            && ("price_desc" !in filters ==> r == kept)
            && ("price_desc" in filters ==>
                  multiset(r) == multiset(kept)
                  && forall i, j :: 0 <= i < j < |r| ==> r[i].rentPrice >= r[j].rentPrice)
  {
    var kept := Selected(rooms, searchText, filters);
    var r := Filtered(rooms, searchText, filters);
    if "price_desc" in filters {
      assert Seqs.SortedBy(r, PriceDescending);
      forall i, j | 0 <= i < j < |r|
        ensures r[i].rentPrice >= r[j].rentPrice
      {
        assert PriceDescending(r[i]) <= PriceDescending(r[j]);
      }
    }
  }

  // ---------------------------------------------------------------------
  // updateMarkers
  // ---------------------------------------------------------------------

  datatype Marker = Marker(id: int, latitude: real, longitude: real, callout: string)

  /**
   * The pin of a room; `jitter` holds the two `Math.random()` draws used
   * when either coordinate does not parse.
   */
  function MarkerOf(room: Room, jitter: (real, real)): Marker {
    if room.latitude.parsed.Some? && room.longitude.parsed.Some? then
      Marker(room.id, room.latitude.parsed.value, room.longitude.parsed.value, "¥" + IntToString(room.rentPrice))
    else
      Marker(room.id, CentreLatitude + (jitter.0 - 0.5) * Spread, CentreLongitude + (jitter.1 - 0.5) * Spread,
             "¥" + IntToString(room.rentPrice))
  }

  /** `rooms.map(...)`, the `i`-th pin drawing its random numbers from `jitter(i)`. */
  function Markers(rooms: seq<Room>, jitter: nat -> (real, real)): (ms: seq<Marker>)
    ensures |ms| == |rooms|
    ensures forall i :: 0 <= i < |rooms| ==> ms[i] == MarkerOf(rooms[i], jitter(i))
  {
    seq(|rooms|, i requires 0 <= i < |rooms| => MarkerOf(rooms[i], jitter(i)))
  }

  /** One pin per room, in order, carrying the room's id and its price as `¥<price>`. */
  lemma MarkersSpec(rooms: seq<Room>, jitter: nat -> (real, real))
    ensures var ms := Markers(rooms, jitter);
            && |ms| == |rooms|
            && forall i :: 0 <= i < |rooms| ==> ms[i].id == rooms[i].id && ms[i].callout == "¥" + IntToString(rooms[i].rentPrice)
  {
  }

  /** A room with parsable coordinates is pinned there; any other lands within half the spread of the centre. */
  lemma MarkerPlacement(room: Room, jitter: (real, real))
    requires 0.0 <= jitter.0 < 1.0 && 0.0 <= jitter.1 < 1.0
    ensures var m := MarkerOf(room, jitter);
            && (room.latitude.parsed.Some? && room.longitude.parsed.Some? ==>
                  m.latitude == room.latitude.parsed.value && m.longitude == room.longitude.parsed.value)
            && (room.latitude.parsed.None? || room.longitude.parsed.None? ==>
                  CentreLatitude - Spread / 2.0 <= m.latitude < CentreLatitude + Spread / 2.0
                  && CentreLongitude - Spread / 2.0 <= m.longitude < CentreLongitude + Spread / 2.0)
  {
  }

  // ---------------------------------------------------------------------
  // startAICompletion
  // ---------------------------------------------------------------------

  /** `!r.latitude || !r.longitude || isNaN(parseFloat(r.latitude))` */
  predicate Incomplete(r: Room) {
    !r.latitude.truthy || !r.longitude.truthy || r.latitude.parsed.None?
  }

  /**
   * The geocoding address: city (default 深圳市), district, street and
   * community joined. Dropping the empty parts before joining, as the
   * page does, does not change the joined text.
   */
  function Address(r: Room): string {
    Or(r.city, DefaultCity) + Or(r.district, "") + Or(r.street, "") + Or(r.communityName, "")
  }

  /** The address is never empty, so the page's empty-address failure cannot happen. */
  lemma AddressNonEmpty(r: Room)
    ensures Address(r) != ""
  {
    assert |Or(r.city, DefaultCity)| > 0;
  }

  datatype LatLng = LatLng(lat: real, lng: real)

  /** `rooms.findIndex(r => r.id === id)` */
  function FindById(rooms: seq<Room>, id: int): (r: Option<nat>)
    ensures r.Some? ==> r.value < |rooms| && rooms[r.value].id == id && forall k :: 0 <= k < r.value ==> rooms[k].id != id
    ensures r.None? ==> forall k :: 0 <= k < |rooms| ==> rooms[k].id != id
  {
    if rooms == [] then None
    else if rooms[0].id == id then Some(0)
    else match FindById(rooms[1..], id)
      case None => None
      case Some(k) => Some(k + 1)
  }

  /** Writing a geocoding result into the first room with that id. */
  function Place(rooms: seq<Room>, id: int, found: Option<LatLng>): (r: seq<Room>)
    ensures |r| == |rooms|
  {
    match found
    case None => rooms
    case Some(g) =>
      match FindById(rooms, id)
      case None => rooms
      case Some(k) => rooms[k := rooms[k].(latitude := Number(g.lat), longitude := Number(g.lng))]
  }

  /** The rooms after the geocoding results for `targets` were written back one by one. */
  function Located(rooms: seq<Room>, targets: seq<Room>, found: seq<Option<LatLng>>): (r: seq<Room>)
    requires |targets| == |found|
    ensures |r| == |rooms|
    decreases |targets|
  {
    if targets == [] then rooms
    else
      var n := |targets| - 1;
      Place(Located(rooms, targets[..n], found[..n]), targets[n].id, found[n])
  }

  /** Two rooms agree on everything but the coordinates. */
  predicate SameButCoordinates(a: Room, b: Room) {
    a.(latitude := b.latitude, longitude := b.longitude) == b
  }

  /** Writing results back changes coordinates only: ids, addresses, prices and types stay. */
  lemma {:induction false} LocatedChangesCoordinatesOnly(rooms: seq<Room>, targets: seq<Room>, found: seq<Option<LatLng>>)
    requires |targets| == |found|
    ensures var r := Located(rooms, targets, found);
            forall k :: 0 <= k < |rooms| ==> SameButCoordinates(rooms[k], r[k])
    decreases |targets|
  {
    if targets != [] {
      var n := |targets| - 1;
      LocatedChangesCoordinatesOnly(rooms, targets[..n], found[..n]);
    }
  }

  /** A result for a room whose id is present lands in the first room with that id. */
  lemma PlaceWrites(rooms: seq<Room>, id: int, g: LatLng)
    requires exists k :: 0 <= k < |rooms| && rooms[k].id == id
    ensures var r := Place(rooms, id, Some(g));
            var k := FindById(rooms, id).value;
            r[k].latitude == Number(g.lat) && r[k].longitude == Number(g.lng)
            && forall q :: 0 <= q < |rooms| && q != k ==> r[q] == rooms[q]
  {
  }

  /** The number of rooms that were geocoded and saved. */
  function Saved(found: seq<Option<LatLng>>, saved: seq<bool>): (n: nat)
    requires |found| == |saved|
    ensures n <= |found|
    decreases |found|
  {
    if found == [] then 0
    else
      var k := |found| - 1;
      Saved(found[..k], saved[..k]) + (if found[k].Some? && saved[k] then 1 else 0)
  }

  lemma LocatedStep(rooms: seq<Room>, targets: seq<Room>, found: seq<Option<LatLng>>, i: nat)
    requires i < |targets| == |found|
    ensures Located(rooms, targets[..i + 1], found[..i + 1]) == Place(Located(rooms, targets[..i], found[..i]), targets[i].id, found[i])
  {
    assert targets[..i + 1][..i] == targets[..i];
    assert found[..i + 1][..i] == found[..i];
  }

  lemma SavedStep(found: seq<Option<LatLng>>, saved: seq<bool>, i: nat)
    requires i < |found| == |saved|
    ensures Saved(found[..i + 1], saved[..i + 1]) == Saved(found[..i], saved[..i]) + (if found[i].Some? && saved[i] then 1 else 0)
  {
    assert found[..i + 1][..i] == found[..i];
    assert saved[..i + 1][..i] == saved[..i];
  }

  // ---------------------------------------------------------------------
  // The page
  // ---------------------------------------------------------------------

  datatype MapData = MapData(
    rooms: seq<Room>,
    filteredRooms: seq<Room>,
    markers: seq<Marker>,
    searchText: string,
    activeFilters: seq<string>,
    latitude: real,
    longitude: real)

  /** A `regionchange` event of the map. */
  datatype RegionEvent = RegionEvent(eventType: string, causedBy: string, centre: LatLng)

  class MapSearchPage {
    var data: MapData

    constructor ()
      ensures data == MapData([], [], [], "", [], CentreLatitude, CentreLongitude)
    {
      data := MapData([], [], [], "", [], CentreLatitude, CentreLongitude);
    }

    /** `applyFilters` followed by `updateMarkers` on its result. */
    method ApplyFilters(jitter: nat -> (real, real))
      modifies this
      ensures var shown := Filtered(old(data.rooms), old(data.searchText), old(data.activeFilters));
              data == old(data).(filteredRooms := shown, markers := Markers(shown, jitter))
    {
      var result := Filtered(data.rooms, data.searchText, data.activeFilters);
      data := data.(filteredRooms := result);
      data := data.(markers := Markers(result, jitter));
    }

    /** `fetchRooms`: a successful reply with a room list replaces the rooms and refilters. */
    method FetchRooms(response: Option<seq<Room>>, jitter: nat -> (real, real))
      modifies this
      ensures response.None? ==> data == old(data)
      ensures response.Some? ==>
                var shown := Filtered(response.value, old(data.searchText), old(data.activeFilters));
                data == old(data).(rooms := response.value, filteredRooms := shown, markers := Markers(shown, jitter))
    {
      if response.Some? {
        data := data.(rooms := response.value);
        ApplyFilters(jitter);
      }
    }

    /** `onSearchInput` */
    method OnSearchInput(value: string)
      modifies this
      ensures data == old(data).(searchText := value)
    {
      data := data.(searchText := value);
    }

    /** `toggleFilter`: the new chip list, then `applyFilters`. */
    method ToggleFilter(t: string, jitter: nat -> (real, real))
      modifies this
      ensures var filters := Toggled(old(data.activeFilters), t);
              var shown := Filtered(old(data.rooms), old(data.searchText), filters);
              data == old(data).(activeFilters := filters, filteredRooms := shown, markers := Markers(shown, jitter))
    {
      var filters := data.activeFilters;
      if t in filters {
        filters := Seqs.Filter(filters, Other(t));
      } else {
        if IsRental(t) {
          filters := Seqs.Filter(filters, NotRental);
        }
        filters := filters + [t];
      }
      data := data.(activeFilters := filters);
      ApplyFilters(jitter);
    }

    /** `onRegionChange`: only the end of a drag moves the stored centre. */
    method OnRegionChange(e: RegionEvent)
      modifies this
      ensures e.eventType == "end" && e.causedBy == "drag" ==>
                data == old(data).(latitude := e.centre.lat, longitude := e.centre.lng)
      ensures !(e.eventType == "end" && e.causedBy == "drag") ==> data == old(data)
    {
      if e.eventType == "end" && e.causedBy == "drag" {
        data := data.(latitude := e.centre.lat, longitude := e.centre.lng);
      }
    }

    /** Writing one geocoding result into the room list (`findIndex` and the two assignments). */
    method WriteBack(id: int, found: Option<LatLng>)
      modifies this
      ensures data == old(data).(rooms := Place(old(data.rooms), id, found))
    {
      if found.Some? {
        var g := found.value;
        var roomIndex := FindById(data.rooms, id);
        if roomIndex.Some? {
          var k := roomIndex.value;
          data := data.(rooms := data.rooms[k := data.rooms[k].(latitude := Number(g.lat), longitude := Number(g.lng))]);
        }
      }
    }

    /**
     * The loop of `startAICompletion`: the rooms `incomplete` are geocoded
     * in turn and each found position is written back; the counts tell how
     * many were found and saved, and how many not.
     */
    method GeocodeAll(incomplete: seq<Room>, found: seq<Option<LatLng>>, saved: seq<bool>)
      returns (successCount: nat, failCount: nat)
      requires |found| == |saved| == |incomplete|
      modifies this
      ensures successCount + failCount == |found|
      ensures successCount == Saved(found, saved)
      ensures data == old(data).(rooms := Located(old(data.rooms), incomplete, found))
    {
      successCount, failCount := 0, 0;
      ghost var start := data.rooms;
      for i := 0 to |incomplete|
        invariant successCount + failCount == i
        invariant successCount == Saved(found[..i], saved[..i])
        invariant data == old(data).(rooms := Located(start, incomplete[..i], found[..i]))
      {
        LocatedStep(start, incomplete, found, i);
        SavedStep(found, saved, i);
        WriteBack(incomplete[i].id, found[i]);
        if found[i].Some? && saved[i] {
          successCount := successCount + 1;
        } else {
          failCount := failCount + 1;
        }
      }
      assert incomplete[..|incomplete|] == incomplete;
      assert found[..|found|] == found && saved[..|saved|] == saved;
    }

    /**
     * `startAICompletion`: every room missing coordinates is geocoded in
     * turn (`found[i]`, the result for the `i`-th of them) and, when
     * found, written into the room list and saved to the backend
     * (`saved[i]`); the counts tell how many succeeded and failed. With
     * no such room nothing happens.
     */
    method StartAICompletion(found: seq<Option<LatLng>>, saved: seq<bool>, jitter: nat -> (real, real))
      returns (successCount: nat, failCount: nat)
      requires |found| == |saved| == |Seqs.Filter(data.rooms, Incomplete)|
      modifies this
      ensures successCount + failCount == |found|
      ensures successCount == Saved(found, saved)
      ensures found == [] ==> data == old(data)
      ensures found != [] ==>
                var rooms := Located(old(data.rooms), Seqs.Filter(old(data.rooms), Incomplete), found);
                var shown := Filtered(rooms, old(data.searchText), old(data.activeFilters));
                data == old(data).(rooms := rooms, filteredRooms := shown, markers := Markers(shown, jitter))
    {
      var incomplete := Seqs.Filter(data.rooms, Incomplete);
      successCount, failCount := 0, 0;
      if |incomplete| == 0 {
        return;
      }
      successCount, failCount := GeocodeAll(incomplete, found, saved);
      ApplyFilters(jitter);
    }
  }
}
