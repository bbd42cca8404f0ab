/**
 * The house selection page (`pages/house-selection`): a filter panel and a
 * keyword that become the query of `/api/room-info/filter`, a client-side
 * elevator filter and sort on the reply, and the formatters of the list.
 */
module HouseSelection {
  import opened Wrappers
  import opened Text
  import Seqs

  /** Upper ends of the sliders at which a range is treated as unbounded. */
  const PriceUnbounded := 10000
  const AreaUnbounded := 200
  const AppointmentPage := "/pages/appointment/appointment?houseId="

  /** The filter panel (`data.filters`); only the upper end of a range is read. */
  datatype Filters = Filters(
    priceRange: (int, int),
    areaRange: (int, int),
    rentalType: string,
    decoration: string,
    hasElevator: bool)

  const DefaultFilters := Filters((0, PriceUnbounded), (0, AreaUnbounded), "", "", false)

  // ---------------------------------------------------------------------
  // The query of loadHouses
  // ---------------------------------------------------------------------

  /**
   * A query value: a number, the result of `parseInt(text)` (a number, or
   * `NaN` when `text` does not start with digits), or a string.
   */
  datatype ParamValue = Num(int) | ParsedInt(text: string) | Str(string)

  /** The query keys `loadHouses` may set. */
  datatype Key = MinPrice | MaxPrice | MinArea | MaxArea | RentalType | Decoration | Keyword

  /** The number a query value stands for; `None` for `NaN` and strings. */
  function Numeric(v: ParamValue): Option<int> {
    match v
    case Num(n) => Some(n)
    case ParsedInt(t) => ParseInt(t)
    case Str(_) => None
  }

  /** The query object `params`, built key by key. */
  function BuildParams(f: Filters, keyword: string): map<Key, ParamValue> {
    var q: map<Key, ParamValue> := map[];
    var q := if f.priceRange.1 < PriceUnbounded then q[MinPrice := Num(0)][MaxPrice := Num(f.priceRange.1)] else q;
    var q := if f.areaRange.1 < AreaUnbounded then q[MinArea := Num(0)][MaxArea := Num(f.areaRange.1)] else q;
    var q := if f.rentalType != "" then q[RentalType := ParsedInt(f.rentalType)] else q;
    var q := if f.decoration != "" then q[Decoration := ParsedInt(f.decoration)] else q;
    if keyword != "" then q[Keyword := Str(keyword)] else q
  }

  /** The price bounds are sent only for a bounded price range, the lower one always 0. */
  lemma PriceParams(f: Filters, keyword: string)
    ensures var q := BuildParams(f, keyword);
            && (MinPrice in q <==> f.priceRange.1 < PriceUnbounded)
            && (MaxPrice in q <==> f.priceRange.1 < PriceUnbounded)
            && (MinPrice in q ==> q[MinPrice] == Num(0) && q[MaxPrice] == Num(f.priceRange.1))
  {
  }

  /** The area bounds are sent only for a bounded area range, the lower one always 0. */
  lemma AreaParams(f: Filters, keyword: string)
    ensures var q := BuildParams(f, keyword);
            && (MinArea in q <==> f.areaRange.1 < AreaUnbounded)
            && (MaxArea in q <==> f.areaRange.1 < AreaUnbounded)
            && (MinArea in q ==> q[MinArea] == Num(0) && q[MaxArea] == Num(f.areaRange.1))
  {
  }

  /** The rental type is sent, parsed as an integer, only when one is chosen. */
  lemma RentalTypeParam(f: Filters, keyword: string)
    ensures var q := BuildParams(f, keyword);
            && (RentalType in q <==> f.rentalType != "")
            && (RentalType in q ==> q[RentalType] == ParsedInt(f.rentalType))
  {
  }

  /** The decoration is sent, parsed as an integer, only when one is chosen. */
  lemma DecorationParam(f: Filters, keyword: string)
    ensures var q := BuildParams(f, keyword);
            && (Decoration in q <==> f.decoration != "")
            && (Decoration in q ==> q[Decoration] == ParsedInt(f.decoration))
  {
  }

  /** The keyword is sent only when not empty. */
  lemma KeywordParam(f: Filters, keyword: string)
    ensures var q := BuildParams(f, keyword);
            && (Keyword in q <==> keyword != "")
            && (Keyword in q ==> q[Keyword] == Str(keyword))
  {
  }

  /** A numeric choice such as `'2'` is sent as that number. */
  lemma ChoiceSentAsNumber(f: Filters, keyword: string)
    requires f.rentalType != "" && AllDigits(f.rentalType)
    ensures Numeric(BuildParams(f, keyword)[RentalType]) == Some(DigitsValue(f.rentalType))
  {
    RentalTypeParam(f, keyword);
    ParseIntOfDigits(f.rentalType);
  }

  // ---------------------------------------------------------------------
  // Filter and sort of the reply
  // ---------------------------------------------------------------------

  datatype House = House(
    id: int,
    communityName: Nullable<string>,
    rentPrice: int,
    roomArea: int,
    hasElevator: Option<int>,
    landlordPhone: Option<string>,
    isFavorite: bool,
    formattedPhone: Option<string>)

  /** `h => h.hasElevator === 1` */
  predicate HasElevator(h: House) {
    h.hasElevator == Some(1)
  }

  function Kept(houses: seq<House>, elevatorOnly: bool): seq<House> {
    if elevatorOnly then Seqs.Filter(houses, HasElevator) else houses
  }

  /**
   * The sort key of `currentSort`: ascending in it is the order of the
   * comparator the page passes to `sort`.
   */
  function SortKey(currentSort: int): House -> int {
    if currentSort == 2 then (h: House) => h.rentPrice
    else if currentSort == 3 then (h: House) => -h.rentPrice
    else if currentSort == 4 then (h: House) => -h.roomArea
    else if currentSort == 5 then (h: House) => h.roomArea
    else (h: House) => -h.id
  }

  function Arranged(houses: seq<House>, elevatorOnly: bool, currentSort: int): seq<House> {
    Seqs.SortBy(Kept(houses, elevatorOnly), SortKey(currentSort))
  }

  /** The list `loadHouses` shows: arranged, each house with its formatted phone. */
  function Listing(houses: seq<House>, elevatorOnly: bool, currentSort: int): (r: seq<House>)
    ensures var a := Arranged(houses, elevatorOnly, currentSort);
            |r| == |a| && forall i :: 0 <= i < |a| ==> r[i] == a[i].(formattedPhone := Some(FormatPhone(a[i].landlordPhone)))
  {
    var a := Arranged(houses, elevatorOnly, currentSort);
    seq(|a|, i requires 0 <= i < |a| => a[i].(formattedPhone := Some(FormatPhone(a[i].landlordPhone))))
  }

  /** With the elevator filter on, exactly the houses with `hasElevator === 1` are kept. */
  lemma KeptSpec(houses: seq<House>, elevatorOnly: bool)
    ensures var k := Kept(houses, elevatorOnly);
            && Seqs.IsSubsequence(k, houses)
            && forall h :: h in k <==> h in houses && (elevatorOnly ==> HasElevator(h))
  {
    var k := Kept(houses, elevatorOnly);
    if elevatorOnly {
      Seqs.FilterIsSubsequence(houses, HasElevator);
      forall h | h in k
        ensures HasElevator(h)
      {
        var i :| 0 <= i < |k| && k[i] == h;
      }
    } else {
      Seqs.SubsequenceRefl(houses);
    }
  }

  /**
   * The arranged list is a permutation of the kept houses, ordered as
   * `currentSort` asks: 2 price up, 3 price down, 4 area down, 5 area up,
   * anything else id down.
   */
  lemma ArrangedSpec(houses: seq<House>, elevatorOnly: bool, currentSort: int)
    ensures var r := Arranged(houses, elevatorOnly, currentSort);
            && multiset(r) == multiset(Kept(houses, elevatorOnly))
            && (currentSort == 2 ==> forall i, j :: 0 <= i < j < |r| ==> r[i].rentPrice <= r[j].rentPrice)
            && (currentSort == 3 ==> forall i, j :: 0 <= i < j < |r| ==> r[i].rentPrice >= r[j].rentPrice)
            && (currentSort == 4 ==> forall i, j :: 0 <= i < j < |r| ==> r[i].roomArea >= r[j].roomArea)
            && (currentSort == 5 ==> forall i, j :: 0 <= i < j < |r| ==> r[i].roomArea <= r[j].roomArea)
            && (currentSort !in {2, 3, 4, 5} ==> forall i, j :: 0 <= i < j < |r| ==> r[i].id >= r[j].id)
  {
    var r := Arranged(houses, elevatorOnly, currentSort);
    var key := SortKey(currentSort);
    assert Seqs.SortedBy(r, key);
    forall i, j | 0 <= i < j < |r|
      ensures && (currentSort == 2 ==> r[i].rentPrice <= r[j].rentPrice)
              && (currentSort == 3 ==> r[i].rentPrice >= r[j].rentPrice)
              && (currentSort == 4 ==> r[i].roomArea >= r[j].roomArea)
              && (currentSort == 5 ==> r[i].roomArea <= r[j].roomArea)
              && (currentSort !in {2, 3, 4, 5} ==> r[i].id >= r[j].id)
    {
      assert key(r[i]) <= key(r[j]);
    }
  }

  // ---------------------------------------------------------------------
  // Formatters
  // ---------------------------------------------------------------------

  /** `formatPhoneNumber`: eleven digits become `3-4-4`; any other phone is kept. */
  function FormatPhone(phone: Option<string>): string {
    if !Truthy(phone) then ""
    else
      var cleaned := DigitsOf(phone.value);
      if |cleaned| == 11 then cleaned[..3] + "-" + cleaned[3..7] + "-" + cleaned[7..]
      else phone.value
  }

  lemma FormatPhoneSpec(phone: Option<string>)
    ensures var r := FormatPhone(phone);
            && (!Truthy(phone) ==> r == "")
            && (Truthy(phone) && |DigitsOf(phone.value)| == 11 ==>
                  |r| == 13 && r[3] == '-' && r[8] == '-' && DigitsOf(r) == DigitsOf(phone.value))
            && (Truthy(phone) && |DigitsOf(phone.value)| != 11 ==> r == phone.value)
  {
    if Truthy(phone) && |DigitsOf(phone.value)| == 11 {
      var c := DigitsOf(phone.value);
      SplitDigits(c);
    }
  }

  /** Hyphens between the three groups of a digit string drop out again. */
  lemma SplitDigits(c: string)
    requires |c| == 11 && AllDigits(c)
    ensures DigitsOf(c[..3] + "-" + c[3..7] + "-" + c[7..]) == c
  {
    var a, b, d := c[..3], c[3..7], c[7..];
    assert DigitsOf("-") == [] by {
      assert !IsDigit('-');
      assert "-"[1..] == [];
    }
    assert AllDigits(a) && AllDigits(b) && AllDigits(d);
    DigitsOfAllDigits(a);
    DigitsOfAllDigits(b);
    DigitsOfAllDigits(d);
    DigitsOfAppend(a, "-");
    assert DigitsOf(a + "-") == a;
    DigitsOfAppend(a + "-", b);
    assert DigitsOf(a + "-" + b) == a + b;
    DigitsOfAppend(a + "-" + b, "-");
    assert DigitsOf(a + "-" + b + "-") == a + b;
    DigitsOfAppend(a + "-" + b + "-", d);
    assert a + b + d == c;
  }

  /** Formatting an already formatted phone changes nothing. */
  lemma FormatPhoneIdempotent(phone: Option<string>)
    ensures FormatPhone(Some(FormatPhone(phone))) == FormatPhone(phone)
  {
    if Truthy(phone) && |DigitsOf(phone.value)| == 11 {
      var c := DigitsOf(phone.value);
      SplitDigits(c);
    }
  }

  /** A price is truthy when present and not zero. */
  predicate Nonzero(v: Option<int>) {
    v.Some? && v.value != 0
  }

  /**
   * `formatPrice`; `fixed` is `(price / 10000).toFixed(1)`, the
   * floating-point rendering used from 10000 up.
   */
  function FormatPrice(price: Option<int>, fixed: string): string {
    if !Nonzero(price) then "0元/月"
    else if price.value >= PriceUnbounded then fixed + "万/月"
    else IntToString(price.value) + "元/月"
  }

  /**
   * A falsy price reads `0元/月`; below 10000 it reads in yuan, and the
   * digits read back as the price; from 10000 it reads in tens of thousands.
   */
  lemma FormatPriceSpec(price: Option<int>, fixed: string)
    ensures var r := FormatPrice(price, fixed);
            && (!Nonzero(price) ==> r == "0元/月")
            && (Nonzero(price) && price.value < PriceUnbounded ==> r[|r| - 3..] == "元/月")
            && (Nonzero(price) && 0 < price.value < PriceUnbounded ==> AllDigits(r[..|r| - 3]) && DigitsValue(r[..|r| - 3]) == price.value)
            && (Nonzero(price) && price.value >= PriceUnbounded ==> r == fixed + "万/月")
  {
    if Nonzero(price) && 0 < price.value < PriceUnbounded {
      var r := FormatPrice(price, fixed);
      assert r[..|r| - 3] == NatToString(price.value);
      NatToStringValue(price.value);
    }
  }

  function FormatArea(area: Option<int>): string {
    if Nonzero(area) then IntToString(area.value) + "㎡" else "0㎡"
  }

  /** The area text always ends in ㎡ and a falsy area reads as 0. */
  lemma FormatAreaSpec(area: Option<int>)
    ensures var r := FormatArea(area);
            && r[|r| - 1] == '㎡'
            && (!Nonzero(area) ==> r == "0㎡")
            && (Nonzero(area) && area.value > 0 ==> DigitsValue(r[..|r| - 1]) == area.value)
  {
    if Nonzero(area) && area.value > 0 {
      var r := FormatArea(area);
      assert r[..|r| - 1] == NatToString(area.value);
      NatToStringValue(area.value);
    }
  }

  function FormatRoomType(t: Option<int>): (r: string) {
    if t == Some(0) then "整租"
    else if t == Some(1) then "合租"
    else if t == Some(2) then "单间"
    else "未知"
  }

  /** The three rental types have distinct names and everything else is 未知. */
  lemma FormatRoomTypeSpec(t: Option<int>, u: Option<int>)
    ensures FormatRoomType(t) == "未知" <==> t !in {Some(0), Some(1), Some(2)}
    ensures FormatRoomType(t) != "未知" && FormatRoomType(t) == FormatRoomType(u) ==> t == u
  {
  }

  // ---------------------------------------------------------------------
  // toggleFavorite and goToAppointment
  // ---------------------------------------------------------------------

  /** `houses.findIndex(h => h.id === id)` */
  function FindHouse(houses: seq<House>, id: int): (r: Option<nat>)
    ensures r.Some? ==> r.value < |houses| && houses[r.value].id == id && forall k :: 0 <= k < r.value ==> houses[k].id != id
    ensures r.None? ==> forall k :: 0 <= k < |houses| ==> houses[k].id != id
  {
    if houses == [] then None
    else if houses[0].id == id then Some(0)
    else match FindHouse(houses[1..], id)
      case None => None
      case Some(k) => Some(k + 1)
  }

  /** The list after `toggleFavorite(id)`. */
  function Favorited(houses: seq<House>, id: int): seq<House> {
    match FindHouse(houses, id)
    case None => houses
    case Some(k) => houses[k := houses[k].(isFavorite := !houses[k].isFavorite)]
  }

  /** Only the first house with that id flips its mark; an unknown id changes nothing. */
  lemma FavoritedSpec(houses: seq<House>, id: int)
    ensures var r := Favorited(houses, id);
            && |r| == |houses|
            && ((forall k :: 0 <= k < |houses| ==> houses[k].id != id) ==> r == houses)
            && forall k :: 0 <= k < |houses| ==>
                 if Some(k) == FindHouse(houses, id) then r[k] == houses[k].(isFavorite := !houses[k].isFavorite)
                 else r[k] == houses[k]
  {
  }

  /** Toggling twice restores the list. */
  lemma FavoritedTwice(houses: seq<House>, id: int)
    ensures Favorited(Favorited(houses, id), id) == houses
  {
    match FindHouse(houses, id)
    case None =>
    case Some(k) =>
      var once := Favorited(houses, id);
      assert forall q :: 0 <= q < k ==> once[q] == houses[q];
      assert FindHouse(once, id) == Some(k) by {
        FirstIndexUnique(once, id, k);
      }
  }

  lemma FirstIndexUnique(houses: seq<House>, id: int, k: nat)
    requires k < |houses| && houses[k].id == id && forall q :: 0 <= q < k ==> houses[q].id != id
    ensures FindHouse(houses, id) == Some(k)
  {
  }

  /**
   * `goToAppointment`: the page opened for a house of status 0 in the list,
   * `encode` being `encodeURIComponent`, which prints a missing community
   * name as `undefined` and a `null` one as `null`.
   */
  function AppointmentUrl(houses: seq<House>, id: int, status: Option<int>, encode: string -> string): Option<string> {
    if status != Some(0) then None
    else match FindHouse(houses, id)
      case None => None
      case Some(k) =>
        Some(AppointmentPage + IntToString(id) + "&houseTitle=" + encode(Spelled(houses[k].communityName)))
  }

  /** The page navigates exactly for a house of status 0 present in the list, to that house. */
  lemma AppointmentUrlSpec(houses: seq<House>, id: int, status: Option<int>, encode: string -> string)
    ensures var r := AppointmentUrl(houses, id, status, encode);
            && (r.Some? <==> status == Some(0) && exists k :: 0 <= k < |houses| && houses[k].id == id)
            && (r.Some? ==> AppointmentPage + IntToString(id) + "&houseTitle=" <= r.value)
  {
  }

  // ---------------------------------------------------------------------
  // The page
  // ---------------------------------------------------------------------

  datatype SelectionData = SelectionData(
    filters: Filters,
    houses: seq<House>,
    loading: bool,
    hasMore: bool,
    showFilterPanel: bool,
    currentSort: int,
    searchKeyword: string)

  /** How the request of `loadHouses` ended: thrown, or the reply (`null` as `None`). */
  datatype Reply = Failed | Received(houses: Option<seq<House>>)

  /** One assignment of `updateFilter`. */
  datatype FilterUpdate =
    | SetPriceRange(range: (int, int))
    | SetAreaRange(range: (int, int))
    | SetRentalType(value: string)
    | SetDecoration(value: string)
    | SetHasElevator(flag: bool)

  function Updated(f: Filters, u: FilterUpdate): Filters {
    match u
    case SetPriceRange(r) => f.(priceRange := r)
    case SetAreaRange(r) => f.(areaRange := r)
    case SetRentalType(v) => f.(rentalType := v)
    case SetDecoration(v) => f.(decoration := v)
    case SetHasElevator(b) => f.(hasElevator := b)
  }

  class HouseSelectionPage {
    var data: SelectionData

    constructor ()
      ensures data == SelectionData(DefaultFilters, [], false, true, false, 1, "")
    {
      data := SelectionData(DefaultFilters, [], false, true, false, 1, "");
    }

    /**
     * The synchronous half of `loadHouses`: ignored while a load runs,
     * otherwise marks the page loading and returns the query it sends.
     */
    method BeginLoad() returns (query: Option<map<Key, ParamValue>>)
      modifies this
      ensures old(data.loading) ==> query == None && data == old(data)
      ensures !old(data.loading) ==>
                query == Some(BuildParams(old(data.filters), old(data.searchKeyword)))
                && data == old(data).(loading := true)
    {
      if data.loading {
        return None;
      }
      data := data.(loading := true);
      query := Some(BuildParams(data.filters, data.searchKeyword));
    }

    /**
     * The half after the reply: a reply (`null` read as `[]`) is filtered,
     * sorted and formatted into the list; either way `loading` ends false.
     */
    method EndLoad(reply: Reply)
      modifies this
      ensures reply.Failed? ==> data == old(data).(loading := false)
      ensures reply.Received? ==>
                data == old(data).(houses := Listing(reply.houses.GetOr([]), old(data.filters.hasElevator), old(data.currentSort)),
                                   hasMore := false, loading := false)
    {
      if reply.Failed? {
        data := data.(loading := false);
        return;
      }
      var houses := reply.houses.GetOr([]);
      var listing := Listing(houses, data.filters.hasElevator, data.currentSort);
      data := data.(houses := listing, hasMore := false, loading := false);
    }

    /** `onSearch`: store the keyword (`''` for none) and reload. */
    method OnSearch(value: Option<string>) returns (query: Option<map<Key, ParamValue>>)
      modifies this
      ensures old(data.loading) ==> query == None && data == old(data).(searchKeyword := Or(value, ""))
      ensures !old(data.loading) ==>
                query == Some(BuildParams(old(data.filters), Or(value, "")))
                && data == old(data).(searchKeyword := Or(value, ""), loading := true)
    {
      data := data.(searchKeyword := Or(value, ""));
      query := BeginLoad();
    }

    method ToggleFilterPanel()
      modifies this
      ensures data == old(data).(showFilterPanel := !old(data.showFilterPanel))
    {
      data := data.(showFilterPanel := !data.showFilterPanel);
    }

    method UpdateFilter(u: FilterUpdate)
      modifies this
      ensures data == old(data).(filters := Updated(old(data.filters), u))
    {
      data := data.(filters := Updated(data.filters, u));
    }

    /** `applyFilters`: close the panel and reload. */
    method ApplyFilters() returns (query: Option<map<Key, ParamValue>>)
      modifies this
      ensures old(data.loading) ==> query == None && data == old(data).(showFilterPanel := false)
      ensures !old(data.loading) ==>
                query == Some(BuildParams(old(data.filters), old(data.searchKeyword)))
                && data == old(data).(showFilterPanel := false, loading := true)
    {
      data := data.(showFilterPanel := false);
      query := BeginLoad();
    }

    method ResetFilters()
      modifies this
      ensures data == old(data).(filters := DefaultFilters)
    {
      data := data.(filters := DefaultFilters);
    }

    /** `selectSort`: store the order and reload. */
    method SelectSort(index: int) returns (query: Option<map<Key, ParamValue>>)
      modifies this
      ensures old(data.loading) ==> query == None && data == old(data).(currentSort := index)
      ensures !old(data.loading) ==>
                query == Some(BuildParams(old(data.filters), old(data.searchKeyword)))
                && data == old(data).(currentSort := index, loading := true)
    {
      data := data.(currentSort := index);
      query := BeginLoad();
    }

    method ToggleFavorite(id: int)
      modifies this
      ensures data == old(data).(houses := Favorited(old(data.houses), id))
    {
      var houseIndex := FindHouse(data.houses, id);
      if houseIndex.None? {
        return;
      }
      var k := houseIndex.value;
      var houses := data.houses;
      houses := houses[k := houses[k].(isFavorite := !houses[k].isFavorite)];
      data := data.(houses := houses);
    }
  }
}
