/** The vehicle search widget: a record of optional filters edited one key
    at a time and handed to the page on "search" and "clear". */
module Search {
  import opened Domain
  import Customer

  /** `SearchFilters`: every field optional; `None` is "no filter". */
  datatype SearchFilters = SearchFilters(
    categoria: Option<string>,
    dataInicio: Option<string>,
    dataFim: Option<string>,
    valorMaximo: Option<real>)

  const NoFilters: SearchFilters := SearchFilters(None, None, None, None)

  /** One call of `handleFilterChange`: a key and the value it gets. */
  datatype FilterChange =
    | SetCategoria(categoria: Option<string>)
    | SetDataInicio(dataInicio: Option<string>)
    | SetDataFim(dataFim: Option<string>)
    | SetValorMaximo(valorMaximo: Option<real>)

  /** The filters with exactly the changed key replaced. */
  function Apply(f: SearchFilters, ch: FilterChange): (g: SearchFilters)
    ensures ch.SetCategoria? ==> g.categoria == ch.categoria
    ensures ch.SetDataInicio? ==> g.dataInicio == ch.dataInicio
    ensures ch.SetDataFim? ==> g.dataFim == ch.dataFim
    ensures ch.SetValorMaximo? ==> g.valorMaximo == ch.valorMaximo
    ensures !ch.SetCategoria? ==> g.categoria == f.categoria
    ensures !ch.SetDataInicio? ==> g.dataInicio == f.dataInicio
    ensures !ch.SetDataFim? ==> g.dataFim == f.dataFim
    ensures !ch.SetValorMaximo? ==> g.valorMaximo == f.valorMaximo
  {
    match ch
    case SetCategoria(c) => f.(categoria := c)
    case SetDataInicio(d) => f.(dataInicio := d)
    case SetDataFim(d) => f.(dataFim := d)
    case SetValorMaximo(p) => f.(valorMaximo := p)
  }

  /** Changing a key twice keeps only the second value. */
  lemma ApplyOverwrites(f: SearchFilters, ch1: FilterChange, ch2: FilterChange)
    requires ch1.SetCategoria? == ch2.SetCategoria? && ch1.SetDataInicio? == ch2.SetDataInicio?
    requires ch1.SetDataFim? == ch2.SetDataFim? && ch1.SetValorMaximo? == ch2.SetValorMaximo?
    ensures Apply(Apply(f, ch1), ch2) == Apply(f, ch2)
  {
  }

  // ---------------------------------------------------------------------
  // From input widgets to filter values

  /** The category select: "all" means no filter. */
  function CategoryChoice(value: string): (c: Option<string>)
    ensures c.None? <==> value == "all"
    ensures c.Some? ==> c.value == value
  {
    if value == "all" then None else Some(value)
  }

  /** The category the select shows: a missing or empty one shows as "all". */
  function ShownCategory(f: SearchFilters): (shown: string)
    ensures shown != "" && (f.categoria.None? ==> shown == "all")
  {
    if f.categoria.Some? && f.categoria.value != "" then f.categoria.value else "all"
  }

  /** Choosing a category in the select and reading the select back gives
      the chosen value. */
  lemma ChoiceRoundTrip(f: SearchFilters, value: string)
    requires value != ""
    ensures ShownCategory(Apply(f, SetCategoria(CategoryChoice(value)))) == value
  {
  }

  /** A date input: an empty text is stored as no filter, never as "". */
  function DateInput(text: string): (d: Option<string>)
    ensures d.None? <==> text == ""
    ensures d.Some? ==> d.value == text && d.value != ""
  {
    if text == "" then None else Some(text)
  }

  /** The price input: an empty text is no filter; otherwise the text's
      numeric value, which is given as `number`. */
  function PriceInput(text: string, number: real): (p: Option<real>)
    ensures p.None? <==> text == ""
    ensures p.Some? ==> p.value == number
  {
    if text == "" then None else Some(number)
  }

  // ---------------------------------------------------------------------
  // The widget state

  class VehicleSearch {
    var localFilters: SearchFilters
    /** Every value handed to the page's search callback, oldest first. */
    var emitted: seq<SearchFilters>

    /** The local filters start as the `filters` given to the widget. */
    constructor (filters: SearchFilters)
      ensures localFilters == filters && emitted == []
    {
      localFilters := filters;
      emitted := [];
    }

    /** `handleFilterChange`. */
    method FilterChanged(ch: FilterChange)
      modifies this
      ensures localFilters == Apply(old(localFilters), ch)
      ensures emitted == old(emitted)
    {
      localFilters := Apply(localFilters, ch);
    }

    /** `handleSearch`: hands the current filters over unchanged. */
    method RunSearch()
      modifies this
      ensures emitted == old(emitted) + [localFilters]
      ensures localFilters == old(localFilters)
    {
      emitted := emitted + [localFilters];
    }

    /** `handleClearFilters`: back to no filters, and hands that over. */
    method ClearFilters()
      modifies this
      ensures localFilters == NoFilters
      ensures emitted == old(emitted) + [NoFilters]
    {
      localFilters := NoFilters;
      emitted := emitted + [NoFilters];
    }
  }

  // ---------------------------------------------------------------------
  // Mounting the widget

  /** What the category select renders: its value, or a crash when the
      local filters are undefined and reading `categoria` off them throws. */
  datatype Render = Crash | Shows(category: string)

  /** The local filters a mount starts with: the `filters` prop as given,
      undefined (`None`) when the prop is not passed. */
  function InitialLocalFilters(prop: Option<SearchFilters>): (local: Option<SearchFilters>)
    ensures local.None? <==> prop.None?
    ensures local.Some? ==> local.value == prop.value
  {
    prop
  }

  /** The first render of the category select over the local filters. */
  function RenderCategory(local: Option<SearchFilters>): (r: Render)
    ensures r == Crash <==> local.None?
    ensures local.Some? ==> r == Shows(ShownCategory(local.value))
  {
    match local
    case None => Crash
    case Some(f) => Shows(ShownCategory(f))
  }

  /** As written, the customer page mounts the widget without `filters`, so
      its first render throws before any filter can be chosen. */
  lemma MountWithoutFiltersCrashes()
    ensures RenderCategory(InitialLocalFilters(None)) == Crash
  {
  }

  /** Mounted with a filters record, the widget renders, showing the given
      category or "all". */
  lemma MountWithFiltersRenders(f: SearchFilters)
    ensures RenderCategory(InitialLocalFilters(Some(f))) == Shows(ShownCategory(f))
    ensures f.categoria.None? ==> RenderCategory(InitialLocalFilters(Some(f))) == Shows("all")
  {
  }

  /** The mount the customer page evidently intends: empty filters. */
  method MountOnCustomerPage() returns (w: VehicleSearch)
    ensures fresh(w) && w.localFilters == NoFilters && w.emitted == []
    ensures RenderCategory(Some(w.localFilters)) == Shows("all")
  {
    w := new VehicleSearch(NoFilters);
  }

  // ---------------------------------------------------------------------
  // Handing the filters to the customer page

  /** What the customer page's search reads from the object it is given:
      it looks up `category` and `maxPrice`, and a `SearchFilters` object has
      neither property, so both read as undefined. */
  function AsReceived(sf: SearchFilters): (pf: Customer.PageFilters)
    ensures !Customer.CategoryActive(pf) && !Customer.PriceActive(pf)
  {
    Customer.PageFilters(None, None)
  }

  /** As written, a search started from the widget keeps every vehicle,
      whatever filters were chosen. */
  lemma WiredSearchIgnoresFilters(vs: seq<Vehicle>, sf: SearchFilters)
    ensures Customer.Select(vs, AsReceived(sf)) == vs
  {
  }

  /** A concrete case: asking for category "suv" still lists an
      economy car. */
  lemma WiredSearchCounterexample()
    ensures var economy := Vehicle("1", "ABC-1234", "Gol", "", 2023, "", "economico", 80.0,
                                   Disponivel, [], "", "");
            var sf := SearchFilters(Some("suv"), None, None, None);
            economy in Customer.Select([economy], AsReceived(sf)) && economy.categoria != "suv"
  {
  }

  /** What the widget's filters mean for a vehicle: the chosen (non-empty)
      category, and a daily rate within the chosen (non-zero) maximum. */
  predicate MatchesSearch(v: Vehicle, sf: SearchFilters) {
    && (sf.categoria.Some? && sf.categoria.value != "" ==> v.categoria == sf.categoria.value)
    && (sf.valorMaximo.Some? && sf.valorMaximo.value != 0.0 ==> v.valorDiaria <= sf.valorMaximo.value)
  }

  /** The page filters the widget's filters are meant to become. */
  function Translate(sf: SearchFilters): (pf: Customer.PageFilters)
    ensures forall v :: Customer.Matches(v, pf) <==> MatchesSearch(v, sf)
  {
    Customer.PageFilters(sf.categoria, sf.valorMaximo)
  }

  /** With the filters translated, a search keeps every vehicle that
      matches the widget's filters, as often as the fleet lists it, and
      nothing else. */
  lemma CorrectedWiredSearch(vs: seq<Vehicle>, sf: SearchFilters, v: Vehicle)
    ensures multiset(Customer.Select(vs, Translate(sf)))[v]
            == if MatchesSearch(v, sf) then multiset(vs)[v] else 0
  {
    Customer.SelectMultiplicity(vs, Translate(sf), v);
  }

  /** Searching from the widget with the filters translated: the page lists
      exactly the vehicles matching the widget's filters, in fleet order. */
  method SearchFromWidget(w: VehicleSearch, page: Customer.CustomerDashboard)
    modifies w, page
    ensures w.emitted == old(w.emitted) + [old(w.localFilters)]
    ensures page.filteredVehicles == Customer.Select(page.vehicles, Translate(old(w.localFilters)))
    ensures page.vehicles == old(page.vehicles)
    ensures forall i :: 0 <= i < |page.filteredVehicles| ==>
              MatchesSearch(page.filteredVehicles[i], old(w.localFilters))
  {
    w.RunSearch();
    page.Search(Translate(w.localFilters));
  }
}
