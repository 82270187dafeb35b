/** The vehicle search filters (components/modal/FilterModal.tsx): the
    filter record the parent keeps and the transitions the dropdowns apply
    to it, the reset, the option lists derived from the vehicle constants,
    which dropdowns are disabled, and the modal's own lists of models and
    districts, fetched only when their parent selection is set. */
module FilterModal {
  import opened Common

  datatype Filters = Filters(
    title: string,
    vehicleType: string,
    brand: string,
    model: string,
    color: string,
    year: string,
    city: string,
    district: string)

  /** `resetFilters`: type 'car', everything else empty. */
  function ResetFilters(): Filters {
    Filters("", "car", "", "", "", "", "", "")
  }

  // ---------------------------------------------------------------------
  // Transitions (`onFiltersChange({ ...filters, ... })`)

  function WithTitle(f: Filters, text: string): Filters {
    f.(title := text)
  }

  function WithType(f: Filters, v: string): Filters {
    f.(vehicleType := v, brand := "", model := "")
  }

  function WithBrand(f: Filters, v: string): Filters {
    f.(brand := v, model := "")
  }

  function WithModel(f: Filters, v: string): Filters {
    f.(model := v)
  }

  function WithColor(f: Filters, v: string): Filters {
    f.(color := v)
  }

  function WithCity(f: Filters, v: string): Filters {
    f.(city := v, district := "")
  }

  function WithDistrict(f: Filters, v: string): Filters {
    f.(district := v)
  }

  /** A dependent field is only set when the field it depends on is: no
      brand without a type, no model without a brand, no district without a
      city. */
  predicate Consistent(f: Filters) {
    && (f.vehicleType == "" ==> f.brand == "")
    && (f.brand == "" ==> f.model == "")
    && (f.city == "" ==> f.district == "")
  }

  // ---------------------------------------------------------------------
  // Which dropdowns can be used

  predicate BrandDisabled(f: Filters) {
    f.vehicleType == ""
  }

  predicate ModelDisabled(f: Filters) {
    f.brand == ""
  }

  predicate DistrictDisabled(f: Filters) {
    f.city == ""
  }

  /** One use of the modal: a text change, a pick in one dropdown, or the
      reset button. */
  datatype Change =
    | TypeTitle(text: string)
    | PickType(value: string)
    | PickBrand(value: string)
    | PickModel(value: string)
    | PickColor(value: string)
    | PickCity(value: string)
    | PickDistrict(value: string)
    | ResetAll

  /** A change the screen lets through: picks in a disabled dropdown are not
      possible. */
  predicate Enabled(f: Filters, c: Change) {
    match c
    case PickBrand(_) => !BrandDisabled(f)
    case PickModel(_) => !ModelDisabled(f)
    case PickDistrict(_) => !DistrictDisabled(f)
    case _ => true
  }

  function Apply(f: Filters, c: Change): Filters {
    match c
    case TypeTitle(t) => WithTitle(f, t)
    case PickType(v) => WithType(f, v)
    case PickBrand(v) => WithBrand(f, v)
    case PickModel(v) => WithModel(f, v)
    case PickColor(v) => WithColor(f, v)
    case PickCity(v) => WithCity(f, v)
    case PickDistrict(v) => WithDistrict(f, v)
    case ResetAll => ResetFilters()
  }

  /** The reset state is consistent, and every enabled change keeps the
      filters consistent. */
  lemma ChangesKeepConsistent(f: Filters, c: Change)
    requires Consistent(f) && Enabled(f, c)
    ensures Consistent(ResetFilters())
    ensures Consistent(Apply(f, c))
  {
  }

  /** Every sequence of enabled changes from the reset state stays
      consistent. */
  lemma {:induction false} SessionsStayConsistent(f: Filters, cs: seq<Change>)
    requires Consistent(f)
    ensures Consistent(Run(f, cs))
    decreases |cs|
  {
    if cs != [] {
      var g := Run(f, cs[..|cs| - 1]);
      SessionsStayConsistent(f, cs[..|cs| - 1]);
      if Enabled(g, cs[|cs| - 1]) {
        ChangesKeepConsistent(g, cs[|cs| - 1]);
      }
    }
  }

  /** Changes applied in order; a pick in a disabled dropdown is ignored. */
  function Run(f: Filters, cs: seq<Change>): Filters
    decreases |cs|
  {
    if cs == [] then f
    else
      var g := Run(f, cs[..|cs| - 1]);
      if Enabled(g, cs[|cs| - 1]) then Apply(g, cs[|cs| - 1]) else g
  }

  /** A parent change clears exactly its dependents: a new type empties
      brand and model, a new brand empties the model, a new city empties the
      district; the fields they do not govern are kept. */
  lemma ParentChangesClearDependents(f: Filters, v: string)
    ensures var g := WithType(f, v);
            g.vehicleType == v && g.brand == "" && g.model == "" && ModelDisabled(g)
            && g.(vehicleType := f.vehicleType, brand := f.brand, model := f.model) == f
    ensures var g := WithBrand(f, v);
            g.brand == v && g.model == "" && g.vehicleType == f.vehicleType
            && g.(brand := f.brand, model := f.model) == f
    ensures var g := WithCity(f, v);
            g.city == v && g.district == "" && g.(city := f.city, district := f.district) == f
  {
  }

  /** After a reset the filters depend only on what follows it. */
  lemma {:induction false} ResetForgets(f: Filters, before: seq<Change>, after: seq<Change>)
    ensures Run(f, before + [ResetAll] + after) == Run(ResetFilters(), after)
    decreases |after|
  {
    var all := before + [ResetAll] + after;
    if after == [] {
      assert all[..|all| - 1] == before;
    } else {
      var front := after[..|after| - 1];
      assert all[..|all| - 1] == before + [ResetAll] + front;
      assert all[|all| - 1] == after[|after| - 1];
      ResetForgets(f, before, front);
    }
  }

  // ---------------------------------------------------------------------
  // Option lists

  /** What `getVehicleConstants` supplies. */
  datatype Constants = Constants(
    vehicleType: seq<string>,
    carBrand: seq<string>,
    motorcycleBrand: seq<string>,
    color: seq<string>)

  /** The constants before they are fetched. */
  function InitialConstants(): Constants {
    Constants(["car", "motorcycle"], [], [], [])
  }

  /** A dropdown entry. */
  datatype DropdownItem = DropdownItem(caption: string, value: string)

  /** ASCII `toUpperCase` of one character. */
  function Upper(c: char): (u: char)
    ensures 'a' <= c <= 'z' ==> 'A' <= u <= 'Z' && u as int - 'A' as int == c as int - 'a' as int
    ensures !('a' <= c <= 'z') ==> u == c
  {
    if 'a' <= c <= 'z' then (c as int - 'a' as int + 'A' as int) as char else c
  }

  /** `type.charAt(0).toUpperCase() + type.slice(1)`. */
  function Capitalize(s: string): (r: string)
    ensures |r| == |s|
    ensures s != [] ==> r[0] == Upper(s[0]) && r[1..] == s[1..]
    ensures s == [] ==> r == []
  {
    if s == [] then [] else [Upper(s[0])] + s[1..]
  }

  /** Capitalizing twice is capitalizing once. */
  lemma CapitalizeIdempotent(s: string)
    ensures Capitalize(Capitalize(s)) == Capitalize(s)
  {
    if s != [] {
      assert Upper(Upper(s[0])) == Upper(s[0]);
      assert Capitalize(Capitalize(s)) == [Upper(Upper(s[0]))] + Capitalize(s)[1..];
    }
  }

  function VehicleTypeData(c: Constants): (r: seq<DropdownItem>)
    ensures |r| == |c.vehicleType|
    ensures forall i :: 0 <= i < |r| ==> r[i].value == c.vehicleType[i] && r[i].caption == Capitalize(c.vehicleType[i])
  {
    seq(|c.vehicleType|, i requires 0 <= i < |c.vehicleType| => DropdownItem(Capitalize(c.vehicleType[i]), c.vehicleType[i]))
  }

  /** The brands offered: the car brands for 'car', the motorcycle brands for
      any other type. */
  function BrandData(c: Constants, f: Filters): (r: seq<DropdownItem>)
  {
    var brands := if f.vehicleType == "car" then c.carBrand else c.motorcycleBrand;
    seq(|brands|, i requires 0 <= i < |brands| => DropdownItem(brands[i], brands[i]))
  }

  lemma BrandDataFollowsType(c: Constants, f: Filters)
    ensures f.vehicleType == "car" ==>
              && |BrandData(c, f)| == |c.carBrand|
              && forall i :: 0 <= i < |c.carBrand| ==> BrandData(c, f)[i] == DropdownItem(c.carBrand[i], c.carBrand[i])
    ensures f.vehicleType != "car" ==>
              && |BrandData(c, f)| == |c.motorcycleBrand|
              && forall i :: 0 <= i < |c.motorcycleBrand| ==> BrandData(c, f)[i] == DropdownItem(c.motorcycleBrand[i], c.motorcycleBrand[i])
  {
  }

  /** The initial type options read "Car" and "Motorcycle". */
  lemma InitialTypeLabels()
    ensures VehicleTypeData(InitialConstants()) == [DropdownItem("Car", "car"), DropdownItem("Motorcycle", "motorcycle")]
  {
    var r := VehicleTypeData(InitialConstants());
    assert r[0].caption == Capitalize("car") == "Car";
    assert r[1].caption == Capitalize("motorcycle") == "Motorcycle";
  }

  // ---------------------------------------------------------------------
  // The modal's own state

  /** A city or district: the name shown and stored, and its code. */
  datatype Place = Place(name: string, code: string)

  /** How a fetch ends: a thrown error, a response without data (or not
      200), or the data. */
  datatype Answer<T> = Thrown | NoData | Data(data: T)

  class FilterModalState {
    var filters: Filters
    var models: seq<string>
    var districts: seq<Place>
    var selectedProvinceCode: string

    constructor (initial: Filters)
      ensures filters == initial && models == [] && districts == [] && selectedProvinceCode == ""
    {
      filters := initial;
      models := [];
      districts := [];
      selectedProvinceCode := "";
    }

    /** `resetFilters`. */
    method Reset()
      modifies this
      ensures filters == ResetFilters() && models == [] && districts == [] && selectedProvinceCode == ""
    {
      filters := ResetFilters();
      models := [];
      selectedProvinceCode := "";
      districts := [];
    }

    /** The city dropdown: clear the district and remember the province code. */
    method PickCityPlace(p: Place)
      modifies this
      ensures filters == WithCity(old(filters), p.name) && selectedProvinceCode == p.code
      ensures models == old(models) && districts == old(districts)
    {
      filters := WithCity(filters, p.name);
      selectedProvinceCode := p.code;
    }

    /** Any other dropdown or text change of the filters; a city is always
        picked through `PickCityPlace`, which also records its province code,
        and the reset button is `Reset`, which also clears the lists. */
    method Change(c: Change)
      requires Enabled(filters, c) && !c.PickCity? && !c.ResetAll?
      modifies this
      ensures filters == Apply(old(filters), c)
      ensures models == old(models) && districts == old(districts) && selectedProvinceCode == old(selectedProvinceCode)
    {
      filters := Apply(filters, c);
    }

    /** `fetchModels(vehicleType, brand)`: nothing is asked while either is
        empty; a failed answer empties the list, and a thrown error also
        shows a toast. */
    method FetchModels(answer: Answer<seq<string>>) returns (toast: Option<string>)
      modifies this
      ensures filters.vehicleType == "" || filters.brand == "" ==> models == [] && toast == None
      ensures filters.vehicleType != "" && filters.brand != "" ==>
                && models == (if answer.Data? then answer.data else [])
                && (toast.Some? <==> answer.Thrown?)
                && (answer.Thrown? ==> toast == Some("Could not load models."))
      ensures filters == old(filters) && districts == old(districts) && selectedProvinceCode == old(selectedProvinceCode)
    {
      toast := None;
      if filters.vehicleType == "" || filters.brand == "" {
        models := [];
        return;
      }
      match answer
      case Data(d) => models := d;
      case NoData => models := [];
      case Thrown =>
        models := [];
        toast := Some("Could not load models.");
    }

    /** `fetchDistricts`: an empty province code empties the list without
        asking; otherwise any failure empties it and shows a toast. */
    method FetchDistricts(answer: Answer<seq<Place>>) returns (toast: Option<string>)
      modifies this
      ensures selectedProvinceCode == "" ==> districts == [] && toast == None
      ensures selectedProvinceCode != "" ==>
                && districts == (if answer.Data? then answer.data else [])
                && (toast.Some? <==> !answer.Data?)
                && (!answer.Data? ==> toast == Some("Could not load districts."))
      ensures filters == old(filters) && models == old(models) && selectedProvinceCode == old(selectedProvinceCode)
    {
      toast := None;
      if selectedProvinceCode != "" {
        match answer
        case Data(d) => districts := d;
        case _ =>
          districts := [];
          toast := Some("Could not load districts.");
      } else {
        districts := [];
      }
    }
  }
}
