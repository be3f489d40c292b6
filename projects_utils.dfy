/**
 * The projects page of the web application: its sort keys and the switch
 * between overall and leak-period sorting, the metrics and facets each view
 * asks for, the page size, and the request data a project search sends.
 */
module ProjectsUtils {
  import opened Wrappers
  import opened Text

  /** An entry of a sort menu, with its optional CSS class. */
  datatype SortingOption = SortingOption(value: string, cssClass: Option<string>)

  const LeakSortingClass := "projects-leak-sorting-option"

  const SortingMetrics: seq<SortingOption> := [
    SortingOption("name", None),
    SortingOption("analysis_date", None),
    SortingOption("reliability", None),
    SortingOption("security", None),
    SortingOption("maintainability", None),
    SortingOption("coverage", None),
    SortingOption("duplications", None),
    SortingOption("size", None)
  ]

  const SortingLeakMetrics: seq<SortingOption> := [
    SortingOption("name", None),
    SortingOption("analysis_date", None),
    SortingOption("new_reliability", Some(LeakSortingClass)),
    SortingOption("new_security", Some(LeakSortingClass)),
    SortingOption("new_maintainability", Some(LeakSortingClass)),
    SortingOption("new_coverage", Some(LeakSortingClass)),
    SortingOption("new_duplications", Some(LeakSortingClass)),
    SortingOption("new_lines", Some(LeakSortingClass))
  ]

  /** Each sort key's counterpart on the other view. */
  const SortingSwitch: map<string, string> := map[
    "analysis_date" := "analysis_date",
    "name" := "name",
    "reliability" := "new_reliability",
    "security" := "new_security",
    "maintainability" := "new_maintainability",
    "coverage" := "new_coverage",
    "duplications" := "new_duplications",
    "size" := "new_lines",
    "new_reliability" := "reliability",
    "new_security" := "security",
    "new_maintainability" := "maintainability",
    "new_coverage" := "coverage",
    "new_duplications" := "duplications",
    "new_lines" := "size"
  ]

  const Visualizations: seq<string> := ["risk", "reliability", "security", "maintainability", "coverage", "duplications"]

  const PageSize := 50
  const PageSizeVisualizations := 99

  const Metrics: seq<string> := [
    "alert_status", "reliability_rating", "security_rating", "sqale_rating",
    "duplicated_lines_density", "coverage", "ncloc", "ncloc_language_distribution"
  ]

  const LeakMetrics: seq<string> := [
    "alert_status", "new_bugs", "new_reliability_rating", "new_vulnerabilities",
    "new_security_rating", "new_code_smells", "new_maintainability_rating",
    "new_coverage", "new_duplicated_lines_density", "new_lines"
  ]

  /** The x, y, size and colour metrics of each bubble chart. */
  const MetricsByVisualization: map<string, seq<string>> := map[
    "risk" := ["reliability_rating", "security_rating", "coverage", "ncloc", "sqale_index"],
    "reliability" := ["ncloc", "reliability_remediation_effort", "bugs", "reliability_rating"],
    "security" := ["ncloc", "security_remediation_effort", "vulnerabilities", "security_rating"],
    "maintainability" := ["ncloc", "sqale_index", "code_smells", "sqale_rating"],
    "coverage" := ["complexity", "coverage", "uncovered_lines"],
    "duplications" := ["ncloc", "duplicated_lines", "duplicated_blocks"]
  ]

  const Facets: seq<string> := [
    "reliability_rating", "security_rating", "sqale_rating", "coverage",
    "duplicated_lines_density", "ncloc", "alert_status", "languages", "tags"
  ]

  const LeakFacets: seq<string> := [
    "new_reliability_rating", "new_security_rating", "new_maintainability_rating",
    "new_coverage", "new_duplicated_lines_density", "new_lines", "alert_status",
    "languages", "tags"
  ]

  // ---------------------------------------------------------------------
  // Sorting

  /** A sort key and its direction. */
  datatype Sorting = Sorting(sortValue: string, sortDesc: bool)

  /** parseSorting: a leading '-' means descending and is dropped from the key. */
  function ParseSorting(sort: string): (r: Sorting)
    ensures r.sortDesc <==> |sort| > 0 && sort[0] == '-'
    ensures r.sortDesc ==> sort == "-" + r.sortValue
    ensures !r.sortDesc ==> r.sortValue == sort
  {
    var desc := |sort| > 0 && sort[0] == '-';
    Sorting(if desc then sort[1..] else sort, desc)
  }

  /** The sort parameter of a key and a direction, as the page writes it. */
  function FormatSorting(s: Sorting): string
  {
    (if s.sortDesc then "-" else "") + s.sortValue
  }

  /** Every sort parameter is the format of what it parses to. */
  lemma FormatParseSorting(sort: string)
    ensures FormatSorting(ParseSorting(sort)) == sort
  {
    if |sort| > 0 && sort[0] == '-' {
      assert "-" + sort[1..] == sort;
    }
  }

  /** A key that does not start with '-' survives formatting and parsing, with its direction. */
  lemma ParseFormatSorting(s: Sorting)
    requires |s.sortValue| == 0 || s.sortValue[0] != '-'
    ensures ParseSorting(FormatSorting(s)) == s
  {
    var f := FormatSorting(s);
    if s.sortDesc {
      assert f[0] == '-' && f[1..] == s.sortValue;
    } else {
      assert f == s.sortValue;
    }
  }

  /** The switch pairs each key with one other key, in both directions. */
  lemma SortingSwitchIsInvolution()
    ensures forall k :: k in SortingSwitch ==> SortingSwitch[k] in SortingSwitch && SortingSwitch[SortingSwitch[k]] == k
  {
    forall k | k in SortingSwitch
      ensures SortingSwitch[k] in SortingSwitch && SortingSwitch[SortingSwitch[k]] == k
    {
      assert k in {"analysis_date", "name", "reliability", "security", "maintainability", "coverage",
        "duplications", "size", "new_reliability", "new_security", "new_maintainability", "new_coverage",
        "new_duplications", "new_lines"};
    }
  }

  /** The switch sends each overall sort option to the leak option at the same place, and back. */
  lemma SortingSwitchPairsMenus()
    ensures |SortingMetrics| == |SortingLeakMetrics|
    ensures forall i :: 0 <= i < |SortingMetrics| ==>
      SortingMetrics[i].value in SortingSwitch && SortingSwitch[SortingMetrics[i].value] == SortingLeakMetrics[i].value
    ensures forall i :: 0 <= i < |SortingLeakMetrics| ==>
      SortingLeakMetrics[i].value in SortingSwitch && SortingSwitch[SortingLeakMetrics[i].value] == SortingMetrics[i].value
  {
  }

  /** No sort key or counterpart starts with '-'. */
  lemma SortingSwitchKeysUnsigned()
    ensures forall k :: k in SortingSwitch ==> |k| > 0 && k[0] != '-' && |SortingSwitch[k]| > 0 && SortingSwitch[k][0] != '-'
  {
    forall k | k in SortingSwitch
      ensures |k| > 0 && k[0] != '-' && |SortingSwitch[k]| > 0 && SortingSwitch[k][0] != '-'
    {
      assert k in {"analysis_date", "name", "reliability", "security", "maintainability", "coverage",
        "duplications", "size", "new_reliability", "new_security", "new_maintainability", "new_coverage",
        "new_duplications", "new_lines"};
    }
  }

  /**
   * The sort parameter after a switch of view: the counterpart of the key,
   * with the same direction; None when the key has no counterpart, in which
   * case the switched query carries no sort at all.
   */
  function SwitchSort(sort: string): (r: Option<string>)
    ensures r.Some? <==> ParseSorting(sort).sortValue in SortingSwitch
  {
    var s := ParseSorting(sort);
    if s.sortValue in SortingSwitch then Some(FormatSorting(Sorting(SortingSwitch[s.sortValue], s.sortDesc)))
    else None
  }

  /** Switching the view twice gives back the sort parameter, direction included. */
  lemma SwitchSortTwice(sort: string)
    requires SwitchSort(sort).Some?
    ensures SwitchSort(SwitchSort(sort).value) == Some(sort)
  {
    var s := ParseSorting(sort);
    var t := Sorting(SortingSwitch[s.sortValue], s.sortDesc);
    SortingSwitchIsInvolution();
    SortingSwitchKeysUnsigned();
    ParseFormatSorting(t);
    FormatParseSorting(sort);
  }

  // ---------------------------------------------------------------------
  // Metrics, facets and page size

  /** The part of the URL query these functions look at; None is an absent parameter. */
  datatype RawQuery = RawQuery(view: Option<string>, visualization: Option<string>)

  /** JavaScript truthiness of an optional string: present and not empty. */
  predicate Truthy(s: Option<string>)
  {
    s.Some? && s.value != ""
  }

  /** visualization || 'risk'. */
  function ChosenVisualization(query: RawQuery): (v: string)
    ensures Truthy(query.visualization) ==> v == query.visualization.value
    ensures !Truthy(query.visualization) ==> v == "risk"
  {
    if Truthy(query.visualization) then query.visualization.value else "risk"
  }

  /**
   * defineMetrics: the chosen chart's metrics on the visualizations view,
   * LEAK_METRICS on the leak view, METRICS otherwise. None stands for the
   * undefined an unknown chart name looks up.
   */
  function DefineMetrics(query: RawQuery): (r: Option<seq<string>>)
    ensures query.view == Some("visualizations") ==>
      r == (if ChosenVisualization(query) in MetricsByVisualization then Some(MetricsByVisualization[ChosenVisualization(query)]) else None)
    ensures query.view == Some("leak") ==> r == Some(LeakMetrics)
    ensures query.view != Some("visualizations") && query.view != Some("leak") ==> r == Some(Metrics)
    ensures r.None? <==> query.view == Some("visualizations") && ChosenVisualization(query) !in MetricsByVisualization
  {
    match query.view
    case Some("visualizations") =>
      var v := ChosenVisualization(query);
      if v in MetricsByVisualization then Some(MetricsByVisualization[v]) else None
    case Some("leak") => Some(LeakMetrics)
    case _ => Some(Metrics)
  }

  /** Every listed chart has metrics, and so does a query naming no chart. */
  lemma DefineMetricsDefined(query: RawQuery)
    requires !Truthy(query.visualization) || query.visualization.value in Visualizations
    ensures DefineMetrics(query).Some?
    ensures query.view == Some("visualizations") && !Truthy(query.visualization) ==>
      DefineMetrics(query) == Some(MetricsByVisualization["risk"])
  {
    VisualizationsHaveMetrics();
  }

  /** Every entry of VISUALIZATIONS is a key of METRICS_BY_VISUALIZATION, and there is no other key. */
  lemma VisualizationsHaveMetrics()
    ensures forall v :: v in Visualizations <==> v in MetricsByVisualization
  {
    forall v ensures v in Visualizations <==> v in MetricsByVisualization {
      if v in MetricsByVisualization {
        assert v in {"risk", "reliability", "security", "maintainability", "coverage", "duplications"};
      }
    }
  }

  /** defineFacets: LEAK_FACETS exactly on the leak view, FACETS otherwise. */
  function DefineFacets(query: RawQuery): (r: seq<string>)
    ensures r == LeakFacets <==> query.view == Some("leak")
    ensures r == Facets <==> query.view != Some("leak")
  {
    assert LeakFacets[0] != Facets[0];
    if query.view == Some("leak") then LeakFacets else Facets
  }

  /** The page size of a project search: 99 exactly on the visualizations view, else 50. */
  function PageSizeOf(query: RawQuery): (ps: int)
    ensures ps == 99 <==> query.view == Some("visualizations")
    ensures ps == 50 <==> query.view != Some("visualizations")
  {
    if query.view == Some("visualizations") then PageSizeVisualizations else PageSize
  }

  // ---------------------------------------------------------------------
  // Request data

  /** A field value of the request object; Undefined is a field set to undefined. */
  datatype Value = Str(s: string) | Num(n: int) | Bool(b: bool) | Undefined

  /** The sort parameters a query converts to: s, and asc when the object has that property. */
  datatype SortParams = SortParams(s: Option<string>, asc: Option<Value>)

  function OrganizationValue(organization: Option<string>): Value
  {
    if organization.Some? then Str(organization.value) else Undefined
  }

  const ManagedKeys := {"organization", "filter", "s", "asc"}

  /**
   * convertToQueryData: the default data with organization set, then the
   * filter when it is truthy, s when it is truthy and asc when present.
   * The filter and sort parameters are what convertToFilter and
   * convertToSorting give for the query.
   */
  method ConvertToQueryData(filter: Option<string>, sort: SortParams, organization: Option<string>, defaultData: map<string, Value>)
    returns (data: map<string, Value>)
    ensures data.Keys == defaultData.Keys + {"organization"}
      + (if Truthy(filter) then {"filter"} else {})
      + (if Truthy(sort.s) then {"s"} else {})
      + (if sort.asc.Some? then {"asc"} else {})
    ensures forall k :: k in defaultData && k !in ManagedKeys ==> data[k] == defaultData[k]
    ensures data["organization"] == OrganizationValue(organization)
    ensures Truthy(filter) ==> data["filter"] == Str(filter.value)
    ensures !Truthy(filter) && "filter" in defaultData ==> data["filter"] == defaultData["filter"]
    ensures Truthy(sort.s) ==> data["s"] == Str(sort.s.value)
    ensures !Truthy(sort.s) && "s" in defaultData ==> data["s"] == defaultData["s"]
    ensures sort.asc.Some? ==> data["asc"] == sort.asc.value
    ensures sort.asc.None? && "asc" in defaultData ==> data["asc"] == defaultData["asc"]
  {
    data := defaultData["organization" := OrganizationValue(organization)];
    if Truthy(filter) {
      data := data["filter" := Str(filter.value)];
    }
    if Truthy(sort.s) {
      data := data["s" := Str(sort.s.value)];
    }
    if sort.asc.Some? {
      data := data["asc" := sort.asc.value];
    }
  }

  /** The defaults fetchProjects passes: page size, facets joined with commas, and the fields. */
  function FetchDefaults(query: RawQuery): map<string, Value>
  {
    map["ps" := Num(PageSizeOf(query)), "facets" := Str(Join(",", DefineFacets(query))), "f" := Str("analysisDate,leakPeriodDate")]
  }

  /** No facet name holds a comma. */
  lemma FacetNamesFreeOfComma()
    ensures forall i :: 0 <= i < |Facets| ==> ',' !in Facets[i]
    ensures forall i :: 0 <= i < |LeakFacets| ==> ',' !in LeakFacets[i]
  {
  }

  /** The defaults hold the page size, the facets and the fields, and the page size follows the view. */
  lemma FetchDefaultsContents(query: RawQuery)
    ensures FetchDefaults(query).Keys == {"ps", "facets", "f"}
    ensures FetchDefaults(query)["ps"] == Num(if query.view == Some("visualizations") then 99 else 50)
  {
  }

  /** The facets default, cut at commas, gives back the facets of the view. */
  lemma FetchDefaultsFacets(query: RawQuery)
    ensures FetchDefaults(query)["facets"].Str?
    ensures SplitOn(FetchDefaults(query)["facets"].s, ',') == DefineFacets(query)
  {
    FacetsParameterSplits(DefineFacets(query));
  }

  /** The facets parameter, cut at commas, names each facet of the view. */
  lemma FacetsParameterSplits(facets: seq<string>)
    requires facets == Facets || facets == LeakFacets
    ensures SplitOn(Join(",", facets), ',') == facets
  {
    FacetNamesFreeOfComma();
    SplitJoin(facets, ',');
  }

  /** The request data of fetchProjects, for the filter and sort its query converts to. */
  method FetchProjectsData(query: RawQuery, filter: Option<string>, sort: SortParams, organization: Option<string>)
    returns (data: map<string, Value>)
    ensures "ps" in data && data["ps"] == Num(PageSizeOf(query))
    ensures "facets" in data && data["facets"].Str? && SplitOn(data["facets"].s, ',') == DefineFacets(query)
    ensures "f" in data && data["f"] == Str("analysisDate,leakPeriodDate")
    ensures "organization" in data && data["organization"] == OrganizationValue(organization)
  {
    FetchDefaultsContents(query);
    FetchDefaultsFacets(query);
    data := ConvertToQueryData(filter, sort, organization, FetchDefaults(query));
  }
}
