/** The three region tables of the dashboard: the driver's region-name to
    branch-prefix dictionary, the supervisor's upper-cased dictionary, and
    `map_region`, which labels a branch code by its prefix. */
module Regions {
  import opened Text

  /** The labels `map_region` returns (Arabic names of the four regions
      and "other"). */
  datatype RegionLabel = Riyadh | Taif | Jeddah | Qassim | OtherRegion

  /** The driver's prefix lookup: a case-sensitive dictionary `.get` with
      default "". */
  function DriverPrefix(region: string): (p: string)
    ensures p != "" <==> region in {"Riyadh", "Taif", "Jeddah", "Qassim", "Meccah"}
    ensures p != "" ==> |p| == 3 && StartsWith(p, "P0")
  {
    var table := map["Riyadh" := "P00", "Taif" := "P01", "Jeddah" := "P02",
                     "Qassim" := "P03", "Meccah" := "P04"];
    if region in table then table[region] else ""
  }

  /** The supervisor's prefix lookup, keyed by `region.upper()`; it has no
      entry for Meccah. */
  function SupervisorPrefix(region: string): (p: string)
    ensures p != "" ==> |p| == 3 && StartsWith(p, "P0")
  {
    var table := map["RIYADH" := "P00", "TAIF" := "P01", "JEDDAH" := "P02",
                     "QASSIM" := "P03"];
    var key := Upper(region);
    if key in table then table[key] else ""
  }

  /** `map_region`: the tag of the first of P00..P03 the code starts with. */
  function MapRegion(code: string): (tag: RegionLabel)
    ensures tag != OtherRegion ==> StartsWith(code, LabelPrefix(tag))
  {
    if StartsWith(code, "P00") then Riyadh
    else if StartsWith(code, "P01") then Taif
    else if StartsWith(code, "P02") then Jeddah
    else if StartsWith(code, "P03") then Qassim
    else OtherRegion
  }

  /** The prefix that `map_region` gives each of its four named labels. */
  function LabelPrefix(tag: RegionLabel): string
  {
    match tag
    case Riyadh => "P00"
    case Taif => "P01"
    case Jeddah => "P02"
    case Qassim => "P03"
    case OtherRegion => ""
  }

  /** `map_region` gives a named tag exactly to the codes that start with
      that tag's prefix, and "other" to every code that starts with none
      of P00..P03. */
  lemma {:induction false} MapRegionByPrefix(code: string, tag: RegionLabel)
    ensures tag != OtherRegion ==> (MapRegion(code) == tag <==> StartsWith(code, LabelPrefix(tag)))
    ensures MapRegion(code) == OtherRegion <==>
      (!StartsWith(code, "P00") && !StartsWith(code, "P01") &&
       !StartsWith(code, "P02") && !StartsWith(code, "P03"))
  {
    if tag != OtherRegion && StartsWith(code, LabelPrefix(tag)) {
      var p := LabelPrefix(tag);
      forall q | q in ["P00", "P01", "P02", "P03"] && StartsWith(code, q)
        ensures q == p
      {
        SameLengthPrefixesAgree(code, q, p);
      }
    }
  }

  /** Codes outside P00..P03, among them the warehouse code and Meccah's
      P04 branches, fall under "other". */
  lemma {:induction false} WarehouseAndMeccahAreOther(code: string)
    requires code == "WH" || StartsWith(code, "P04")
    ensures MapRegion(code) == OtherRegion
  {
    if StartsWith(code, "P04") {
      forall q | q in ["P00", "P01", "P02", "P03"]
        ensures !StartsWith(code, q)
      {
        if StartsWith(code, q) {
          SameLengthPrefixesAgree(code, q, "P04");
        }
      }
    }
  }

  /** A region with no dictionary entry gets the empty prefix, and the
      empty prefix matches every branch code. */
  lemma UnmappedDriverRegionMatchesAll(region: string, code: string)
    requires region !in {"Riyadh", "Taif", "Jeddah", "Qassim", "Meccah"}
    ensures DriverPrefix(region) == ""
    ensures StartsWith(code, DriverPrefix(region))
  {
  }

  /** The driver lookup is case-sensitive; the supervisor lookup is not. */
  lemma CaseSensitivity()
    ensures DriverPrefix("riyadh") == ""
    ensures SupervisorPrefix("riyadh") == "P00"
    ensures SupervisorPrefix("Riyadh") == "P00"
  {
    assert Upper("riyadh") == "RIYADH";
    assert Upper("Riyadh") == "RIYADH";
  }

  /** The supervisor's answer depends only on the upper-cased key. */
  lemma {:induction false} SupervisorPrefixIgnoresCase(region: string)
    ensures SupervisorPrefix(Upper(region)) == SupervisorPrefix(region)
  {
    UpperIdempotent(region);
  }

  /** A supervisor region whose upper-cased form is none of the four keys
      gets the empty prefix. */
  lemma SupervisorPrefixUnmapped(region: string)
    requires Upper(region) !in {"RIYADH", "TAIF", "JEDDAH", "QASSIM"}
    ensures SupervisorPrefix(region) == ""
  {
  }

  /** The two dictionaries differ on Meccah: a driver there is scoped to
      P04 while a supervisor there gets the empty prefix. */
  lemma MeccahOnlyForDrivers()
    ensures DriverPrefix("Meccah") == "P04"
    ensures SupervisorPrefix("Meccah") == ""
  {
    assert Upper("Meccah") == "MECCAH";
  }

  /** The region name the dictionaries use for each named tag. */
  function RegionName(tag: RegionLabel): string
  {
    match tag
    case Riyadh => "Riyadh"
    case Taif => "Taif"
    case Jeddah => "Jeddah"
    case Qassim => "Qassim"
    case OtherRegion => ""
  }

  /** For the four regions both dictionaries know, the driver and the
      supervisor lookups give the prefix `map_region` tests for that
      region. */
  lemma {:induction false} PrefixTablesAgree(tag: RegionLabel)
    requires tag != OtherRegion
    ensures DriverPrefix(RegionName(tag)) == LabelPrefix(tag)
    ensures SupervisorPrefix(RegionName(tag)) == LabelPrefix(tag)
  {
    SupervisorPrefixOfTag(tag);
  }

  /** The supervisor dictionary, looked up by each named tag's region
      name, gives that tag's prefix. */
  lemma {:induction false} SupervisorPrefixOfTag(tag: RegionLabel)
    requires tag != OtherRegion
    ensures SupervisorPrefix(RegionName(tag)) == LabelPrefix(tag)
  {
    match tag
    case Riyadh => assert Upper("Riyadh") == "RIYADH";
    case Taif => assert Upper("Taif") == "TAIF";
    case Jeddah => assert Upper("Jeddah") == "JEDDAH";
    case Qassim => assert Upper("Qassim") == "QASSIM";
  }

  /** A driver of one of the four regions is offered a branch code exactly
      when `map_region` gives that code the driver's region. */
  lemma {:induction false} DriverScopeMatchesMapRegion(tag: RegionLabel, code: string)
    requires tag != OtherRegion
    ensures StartsWith(code, DriverPrefix(RegionName(tag))) <==> MapRegion(code) == tag
  {
    PrefixTablesAgree(tag);
    MapRegionByPrefix(code, tag);
  }
}
