/** Search-default resolution of the app's home page: filling a search request's missing
    parts from the last saved search, a per-type field table and the user configuration, and
    saving a search to browser local storage, modelled as a map from keys to strings. */
module HomePage {
  import opened Fhir

  datatype Filter = Filter(code: string, operator: string, value: string)
  datatype SortRule = SortRule(code: string, descending: bool)

  /** A search request; `total` stands for the keys the functions copy without reading. */
  datatype SearchRequest = SearchRequest(
    resourceType: Option<string>,
    fields: Option<seq<string>>,
    filters: Option<seq<Filter>>,
    sortRules: Option<seq<SortRule>>,
    offset: Option<int>,
    count: Option<int>,
    total: Option<string>)

  datatype ConfigOption = ConfigOption(id: Option<string>, valueString: Option<string>)
  datatype UserConfiguration = UserConfiguration(option: Option<seq<ConfigOption>>)

  /** `JSON.stringify` and `JSON.parse` for search requests. */
  datatype Codec = Codec(encode: SearchRequest -> string, decode: string -> SearchRequest)

  /** JSON text of an object is never empty, and parsing gives the object back. */
  ghost predicate RoundTrips(codec: Codec) {
    forall s :: codec.decode(codec.encode(s)) == s && codec.encode(s) != ""
  }

  type Storage = map<string, string>

  const DefaultTypeKey := "defaultResourceType"
  const DefaultSearchSuffix := "-defaultSearch"

  function SearchKey(resourceType: string): string {
    resourceType + DefaultSearchSuffix
  }

  // ---------------------------------------------------------------------
  // Reading local storage

  /** `getLastSearch`: the stored JSON for the type, parsed, when it is a non-empty string. */
  function LastSearch(storage: Storage, codec: Codec, resourceType: string): (r: Option<SearchRequest>)
    ensures r.Some? <==> SearchKey(resourceType) in storage && storage[SearchKey(resourceType)] != ""
  {
    var key := SearchKey(resourceType);
    if key in storage && storage[key] != "" then Some(codec.decode(storage[key])) else None
  }

  /** The first configuration option with id 'defaultResourceType', as `find` returns it. */
  function FindOption(options: seq<ConfigOption>): (r: Option<ConfigOption>)
    ensures r.Some? ==> r.value in options && r.value.id == Some(DefaultTypeKey)
    ensures r.None? ==> forall o :: o in options ==> o.id != Some(DefaultTypeKey)
  {
    if options == [] then None
    else if options[0].id == Some(DefaultTypeKey) then Some(options[0])
    else FindOption(options[1..])
  }

  function ConfiguredType(config: Option<UserConfiguration>): Option<string> {
    if config.Some? && config.value.option.Some? then
      var o := FindOption(config.value.option.value);
      if o.Some? then o.value.valueString else None
    else None
  }

  /** `getDefaultResourceType`: the stored default (even an empty one, `??` only skips
      missing values), else the configured one, else 'Patient'. */
  function DefaultResourceType(storage: Storage, config: Option<UserConfiguration>): (r: string)
    ensures DefaultTypeKey in storage ==> r == storage[DefaultTypeKey]
    ensures DefaultTypeKey !in storage && ConfiguredType(config).Some? ==> r == ConfiguredType(config).value
    ensures DefaultTypeKey !in storage && ConfiguredType(config).None? ==> r == "Patient"
  {
    if DefaultTypeKey in storage then storage[DefaultTypeKey]
    else if ConfiguredType(config).Some? then ConfiguredType(config).value
    else "Patient"
  }

  // ---------------------------------------------------------------------
  // Defaults per resource type

  /** The columns the `switch` pushes for a type; no case pushes nothing. */
  function FieldTable(resourceType: string): seq<string> {
    match resourceType
    case "Patient" => ["name", "birthDate", "gender", "telecom", "address", "active", "managingOrganization"]
    case "AsyncJob" => ["id", "_lastUpdated", "status", "dataVersion"]
    case "AccessPolicy" => ["id", "_lastUpdated"]
    case "Appointment" => ["patient", "practitioner", "start", "end", "status", "_lastUpdated", "description"]
    case "Bot" => ["id", "_lastUpdated"]
    case "ClientApplication" => ["id", "_lastUpdated"]
    case "Practitioner" => ["name", "gender", "qualification-code", "address", "telecom", "communication", "active"]
    case "Project" => ["id", "_lastUpdated"]
    case "Organization" => ["name", "partOf", "address", "telecom", "active", "_lastUpdated"]
    case "Questionnaire" => ["id", "_lastUpdated"]
    case "UserConfiguration" => ["id", "_lastUpdated", "name"]
    case "CodeSystem" => ["id", "_lastUpdated"]
    case "ValueSet" => ["id", "_lastUpdated", "name", "title", "status"]
    case "Condition" => ["id", "_lastUpdated", "subject", "code", "clinicalStatus"]
    case "Device" => ["id", "_lastUpdated", "manufacturer", "deviceName", "patient"]
    case "DeviceDefinition" => ["id", "_lastUpdated", "manufacturer[x]", "deviceName"]
    case "DeviceRequest" => ["id", "_lastUpdated", "code[x]", "subject"]
    case "DiagnosticReport" => ["patient", "code", "date", "status", "performer", "result", "conclusion", "_lastUpdated"]
    case "Observation" => ["id", "_lastUpdated", "subject", "code", "status"]
    case "Encounter" => ["id", "_lastUpdated", "subject"]
    case "ServiceRequest" => ["_lastUpdated", "patient", "code", "status", "authored", "insurance", "intent",
                              "patientInstruction", "performer", "priority", "priority-order", "requester"]
    case "Subscription" => ["id", "_lastUpdated", "criteria"]
    case "User" => ["id", "_lastUpdated", "email"]
    case _ => []
  }

  /** `getDefaultFields`: the saved search's fields when it has a list (an empty one too),
      otherwise the table's columns, or ['id', '_lastUpdated'] when the table has none. */
  function DefaultFields(storage: Storage, codec: Codec, resourceType: string): (r: seq<string>)
    ensures var last := LastSearch(storage, codec, resourceType);
            last.Some? && last.value.fields.Some? ==> r == last.value.fields.value
    ensures var last := LastSearch(storage, codec, resourceType);
            !(last.Some? && last.value.fields.Some?) ==>
              && (|FieldTable(resourceType)| > 0 ==> r == FieldTable(resourceType))
              && (|FieldTable(resourceType)| == 0 ==> r == ["id", "_lastUpdated"])
  {
    var last := LastSearch(storage, codec, resourceType);
    if last.Some? && last.value.fields.Some? then last.value.fields.value
    else
      var fields := FieldTable(resourceType);
      if |fields| > 0 then fields else ["id", "_lastUpdated"]
  }

  /** `getDefaultFilters`: the saved search's filters, if any. */
  function DefaultFilters(storage: Storage, codec: Codec, resourceType: string): (r: Option<seq<Filter>>)
    ensures LastSearch(storage, codec, resourceType).None? ==> r.None?
    ensures LastSearch(storage, codec, resourceType).Some? ==> r == LastSearch(storage, codec, resourceType).value.filters
  {
    var last := LastSearch(storage, codec, resourceType);
    if last.Some? then last.value.filters else None
  }

  const LastUpdatedDescending := SortRule("_lastUpdated", true)

  /** `getDefaultSortRules`: the saved search's rules, else newest first. */
  function DefaultSortRules(storage: Storage, codec: Codec, resourceType: string): (r: seq<SortRule>)
    ensures var last := LastSearch(storage, codec, resourceType);
            && (last.Some? && last.value.sortRules.Some? ==> r == last.value.sortRules.value)
            && (!(last.Some? && last.value.sortRules.Some?) ==> r == [LastUpdatedDescending])
  {
    var last := LastSearch(storage, codec, resourceType);
    if last.Some? && last.value.sortRules.Some? then last.value.sortRules.value else [LastUpdatedDescending]
  }

  // ---------------------------------------------------------------------
  // addSearchValues

  function OrDefault<T>(x: Option<T>, d: T): T {
    if x.Some? then x.value else d
  }

  /** `addSearchValues`: every part the request supplies (`??` keeps `[]` and `0`), each
      missing part from the defaults; filters are only defaulted when no type was named. */
  function AddSearchValues(search: SearchRequest, storage: Storage, codec: Codec, config: Option<UserConfiguration>, defaultCount: int): (r: SearchRequest)
    ensures r.resourceType.Some? && r.fields.Some? && r.sortRules.Some? && r.offset.Some? && r.count.Some?
    ensures r.total == search.total
    ensures search.fields.Some? ==> r.fields == search.fields
    ensures search.filters.Some? ==> r.filters == search.filters
    ensures search.sortRules.Some? ==> r.sortRules == search.sortRules
    ensures search.offset.Some? ==> r.offset == search.offset
    ensures search.count.Some? ==> r.count == search.count
    ensures search.offset.None? ==> r.offset == Some(0)
    ensures search.count.None? ==> r.count == Some(defaultCount)
    ensures Truthy(search.resourceType) ==> r.resourceType == search.resourceType
    ensures !Truthy(search.resourceType) ==> r.resourceType == Some(DefaultResourceType(storage, config))
    ensures search.filters.None? && Truthy(search.resourceType) ==> r.filters.None?
    ensures search.filters.None? && !Truthy(search.resourceType) ==> r.filters == DefaultFilters(storage, codec, r.resourceType.value)
    ensures search.fields.None? ==> r.fields == Some(DefaultFields(storage, codec, r.resourceType.value))
    ensures search.sortRules.None? ==> r.sortRules == Some(DefaultSortRules(storage, codec, r.resourceType.value))
  {
    var resourceType := if Truthy(search.resourceType) then search.resourceType.value else DefaultResourceType(storage, config);
    SearchRequest(
      Some(resourceType),
      Some(OrDefault(search.fields, DefaultFields(storage, codec, resourceType))),
      if search.filters.Some? then search.filters
      else if !Truthy(search.resourceType) then DefaultFilters(storage, codec, resourceType)
      else None,
      Some(OrDefault(search.sortRules, DefaultSortRules(storage, codec, resourceType))),
      Some(OrDefault(search.offset, 0)),
      Some(OrDefault(search.count, defaultCount)),
      search.total)
  }

  /** Filling defaults twice changes nothing more than filling them once. */
  lemma AddSearchValuesIdempotent(search: SearchRequest, storage: Storage, codec: Codec, config: Option<UserConfiguration>, defaultCount: int)
    ensures var once := AddSearchValues(search, storage, codec, config, defaultCount);
            AddSearchValues(once, storage, codec, config, defaultCount) == once
  {
    var once := AddSearchValues(search, storage, codec, config, defaultCount);
    var twice := AddSearchValues(once, storage, codec, config, defaultCount);
    if !Truthy(once.resourceType) {
      assert once.resourceType == Some(DefaultResourceType(storage, config));
    }
    assert twice.resourceType == once.resourceType;
    assert twice.filters == once.filters;
  }

  // ---------------------------------------------------------------------
  // saveLastSearch

  /** Local storage after `saveLastSearch`. */
  function Saved(storage: Storage, codec: Codec, search: SearchRequest): Storage {
    var resourceType := IdText(search.resourceType);
    storage[DefaultTypeKey := resourceType][SearchKey(resourceType) := codec.encode(search)]
  }

  /** The type key never collides with a saved-search key: they end differently. */
  lemma KeysDiffer(resourceType: string)
    ensures SearchKey(resourceType) != DefaultTypeKey
  {
    var k := SearchKey(resourceType);
    assert k[|k| - 1] == 'h';
    assert DefaultTypeKey[|DefaultTypeKey| - 1] == 'e';
  }

  /** Saving writes exactly two keys; afterwards the default type is the saved search's type
      and the last search of that type is the saved search. */
  lemma SaveThenLoad(storage: Storage, codec: Codec, search: SearchRequest, config: Option<UserConfiguration>)
    requires RoundTrips(codec)
    ensures var after := Saved(storage, codec, search);
            var resourceType := IdText(search.resourceType);
            && after.Keys == storage.Keys + {DefaultTypeKey, SearchKey(resourceType)}
            && (forall k :: k in storage && k != DefaultTypeKey && k != SearchKey(resourceType) ==> after[k] == storage[k])
            && DefaultResourceType(after, config) == resourceType
            && LastSearch(after, codec, resourceType) == Some(search)
  {
    var resourceType := IdText(search.resourceType);
    KeysDiffer(resourceType);
    var after := Saved(storage, codec, search);
    assert after[SearchKey(resourceType)] == codec.encode(search);
    assert after[DefaultTypeKey] == resourceType;
  }

  /** The browser's local storage. */
  class LocalStorage {
    var items: Storage

    constructor (items: Storage)
      ensures this.items == items
    {
      this.items := items;
    }

    method SetItem(key: string, value: string)
      modifies this
      ensures items == old(items)[key := value]
    {
      items := items[key := value];
    }

    /** `saveLastSearch`: two `setItem` calls in order. */
    method SaveLastSearch(codec: Codec, search: SearchRequest)
      modifies this
      ensures items == Saved(old(items), codec, search)
    {
      SetItem(DefaultTypeKey, IdText(search.resourceType));
      SetItem(SearchKey(IdText(search.resourceType)), codec.encode(search));
    }
  }

  // ---------------------------------------------------------------------
  // Transaction bundle request

  /** The search behind `getTransactionBundle`: count forced to 1000 and offset to 0, defaults
      filled, then `fields` dropped and an accurate total asked for. */
  function TransactionSearch(search: SearchRequest, storage: Storage, codec: Codec, config: Option<UserConfiguration>, defaultCount: int): (r: SearchRequest)
    ensures r.count == Some(1000) && r.offset == Some(0)
    ensures r.fields.None? && r.total == Some("accurate")
    ensures r.resourceType == AddSearchValues(search, storage, codec, config, defaultCount).resourceType
  {
    var values := AddSearchValues(search.(count := Some(1000), offset := Some(0)), storage, codec, config, defaultCount);
    values.(total := Some("accurate"), fields := None)
  }
}
