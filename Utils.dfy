/** The deterministic part of geocoding an address (the cache file name and the
    normalisation of a Google geocoding response into one flat dictionary), and
    the region tree handed to the dropdown widget. Reading and writing the cache
    file and calling the geocoding service are not modelled: the decoded
    response and how it was obtained are parameters. */
module Utils {
  import opened Wrappers
  import opened Strings
  import opened Models

  // ---------------------------------------------------------------------------
  // Cache file name

  /** `s.lstrip(" ")` */
  function StripLeadingSpaces(s: string): (r: string)
    ensures |r| <= |s| && r == s[|s| - |r|..]
    ensures r == [] || r[0] != ' '
    ensures forall i :: 0 <= i < |s| - |r| ==> s[i] == ' '
  {
    if s != [] && s[0] == ' ' then StripLeadingSpaces(s[1..]) else s
  }

  /** `re.sub("[^0-9a-zA-Z]+", "", s)`: the ASCII letters and digits of `s`, in order. */
  function KeepAlnum(s: string): (r: string)
    ensures |r| <= |s|
    ensures forall i :: 0 <= i < |r| ==> IsAsciiAlnum(r[i]) && r[i] in s
    ensures |s| == 1 ==> r == (if IsAsciiAlnum(s[0]) then s else [])
  {
    if s == [] then []
    else (if IsAsciiAlnum(s[0]) then [s[0]] else []) + KeepAlnum(s[1..])
  }

  /** The filter works piece by piece: with the single-character case above, this
      fixes `KeepAlnum` as "every ASCII letter and digit, in order". */
  lemma {:induction false} KeepAlnumAppend(a: string, b: string)
    ensures KeepAlnum(a + b) == KeepAlnum(a) + KeepAlnum(b)
    decreases |a|
  {
    if a == [] {
      assert a + b == b;
    } else {
      assert (a + b)[0] == a[0] && (a + b)[1..] == a[1..] + b;
      KeepAlnumAppend(a[1..], b);
    }
  }

  /** The part of the cache file name taken from the address. */
  function CacheKey(fullAddress: string): (k: string)
    ensures forall i :: 0 <= i < |k| ==> IsAsciiDigit(k[i]) || IsAsciiLower(k[i])
    ensures |k| <= |fullAddress|
  {
    var lowered := Lower(fullAddress);
    var stripped := StripLeadingSpaces(lowered);
    var k := KeepAlnum(stripped);
    assert forall i :: 0 <= i < |stripped| ==> stripped[i] == lowered[|lowered| - |stripped| + i];
    k
  }

  const CACHE_DIR := "meeting_guide_cache/"
  const CACHE_SUFFIX := ".json"

  /** The cache file of an address: one file inside the cache directory, whose
      name is made only of digits and lower-case letters. */
  function CacheFilename(fullAddress: string): (name: string)
    ensures |name| == |CACHE_DIR| + |CacheKey(fullAddress)| + |CACHE_SUFFIX|
    ensures name[..|CACHE_DIR|] == CACHE_DIR
    ensures name[|CACHE_DIR|..|name| - |CACHE_SUFFIX|] == CacheKey(fullAddress)
    ensures name[|name| - |CACHE_SUFFIX|..] == CACHE_SUFFIX
  {
    CACHE_DIR + CacheKey(fullAddress) + CACHE_SUFFIX
  }

  lemma {:induction false} KeepAlnumSkipsSpaces(s: string)
    ensures KeepAlnum(StripLeadingSpaces(s)) == KeepAlnum(s)
    decreases |s|
  {
    if s != [] && s[0] == ' ' {
      KeepAlnumSkipsSpaces(s[1..]);
    }
  }

  lemma {:induction false} KeepAlnumKeepsAlnum(s: string)
    requires forall i :: 0 <= i < |s| ==> IsAsciiAlnum(s[i])
    ensures KeepAlnum(s) == s
    decreases |s|
  {
    if s != [] {
      KeepAlnumKeepsAlnum(s[1..]);
    }
  }

  /** Stripping leading spaces is redundant: the key is the letters and digits of
      the lower-cased address. */
  lemma CacheKeyIsAlnumOfLower(fullAddress: string)
    ensures CacheKey(fullAddress) == KeepAlnum(Lower(fullAddress))
  {
    KeepAlnumSkipsSpaces(Lower(fullAddress));
  }

  /** Leading spaces do not change the key. */
  lemma CacheKeyIgnoresLeadingSpace(fullAddress: string)
    ensures CacheKey(" " + fullAddress) == CacheKey(fullAddress)
  {
    CacheKeyIsAlnumOfLower(" " + fullAddress);
    CacheKeyIsAlnumOfLower(fullAddress);
    assert Lower(" " + fullAddress) == " " + Lower(fullAddress);
    assert (" " + Lower(fullAddress))[1..] == Lower(fullAddress);
  }

  /** ASCII case does not change the key. */
  lemma CacheKeyIgnoresCase(a: string, b: string)
    requires |a| == |b| && forall i :: 0 <= i < |a| ==> LowerChar(a[i]) == LowerChar(b[i])
    ensures CacheKey(a) == CacheKey(b)
  {
    assert Lower(a) == Lower(b);
  }

  /** Normalising a key again gives the same key. */
  lemma CacheKeyIdempotent(fullAddress: string)
    ensures CacheKey(CacheKey(fullAddress)) == CacheKey(fullAddress)
  {
    var k := CacheKey(fullAddress);
    assert Lower(k) == k;
    KeepAlnumKeepsAlnum(k);
    CacheKeyIsAlnumOfLower(k);
  }

  // ---------------------------------------------------------------------------
  // Geocoding response

  datatype AddressComponent = AddressComponent(shortName: string, types: seq<string>)

  /** One entry of `results`; its `geometry` (latitude and longitude) is not modelled. */
  datatype GeocodeResult = GeocodeResult(formattedAddress: string, components: seq<AddressComponent>)

  /** The decoded response: `status` and `results`. */
  datatype AddressData = AddressData(status: string, results: seq<GeocodeResult>)

  /** How the response was obtained: from a valid cache file, by a request after
      a cache miss, or by a request after deleting an unreadable cache file. */
  datatype CacheStatus = Hit | Miss | Invalid

  function CacheStatusText(c: CacheStatus): string {
    match c
    case Hit => "HIT"
    case Miss => "MISS"
    case Invalid => "INVALID"
  }

  /** Reading `results[0]` of a response that has none raises IndexError. */
  datatype GeocodeError = NoFirstResult

  datatype Problem = ZeroResults | OverQueryLimit | NoStreetOrRoute | NoCounty | NoSubregion | NoCity

  const ZERO_RESULTS_TEXT := "returned \"ZERO_RESULTS\" for address "
  const OVER_QUERY_LIMIT_TEXT := "returned \"OVER_QUERY_LIMIT\"; have we hit the API too much?"
  const NO_STREET_OR_ROUTE_TEXT := "did not return \"street_number\" or \"route\" for address "
  const NO_COUNTY_TEXT := "did not return \"administrative_area_level_2\" (county / parish) for address "
  const NO_SUBREGION_TEXT := "did not return \"neighborhood\", \"locality\", \"sublocality\", \"city\", or "
    + "\"administrative_area_level_3\" for subregion field for address "
  const NO_CITY_TEXT := "did not return \"neighborhood\", \"locality\", \"city\", or "
    + "\"administrative_area_level_3\" for city field for address "
  /** What follows the address: a colon, the dictionary dump (rendered empty), a period. */
  const DUMP_TAIL := ":\n\n\n."

  /** The `problem` text for each failure. The dump of the dictionary that the
      messages embed after the address is rendered empty. */
  function ProblemText(p: Problem, fullAddress: string): (text: string)
    ensures |text| > 7 && text[..7] == "Google "
    ensures text != "OK"
  {
    "Google " +
    match p
    case ZeroResults => ZERO_RESULTS_TEXT + fullAddress + DUMP_TAIL
    case OverQueryLimit => OVER_QUERY_LIMIT_TEXT
    case NoStreetOrRoute => NO_STREET_OR_ROUTE_TEXT + fullAddress + DUMP_TAIL
    case NoCounty => NO_COUNTY_TEXT + fullAddress + DUMP_TAIL
    case NoSubregion => NO_SUBREGION_TEXT + fullAddress + DUMP_TAIL
    case NoCity => NO_CITY_TEXT + fullAddress + DUMP_TAIL
  }

  /** The dictionary before the components are copied in. */
  function Base(cacheStatus: CacheStatus, formattedAddress: string): map<string, string> {
    map["problem" := "OK", "cache_status" := CacheStatusText(cacheStatus), "formatted_address" := formattedAddress]
  }

  /** Every type of one component, mapped to its short name. */
  function TypeMap(c: AddressComponent): map<string, string> {
    map t | t in c.types :: c.shortName
  }

  /** The dictionary after copying the components in, one after the other. */
  function Flattened(base: map<string, string>, comps: seq<AddressComponent>): (r: map<string, string>)
    ensures base.Keys <= r.Keys
    decreases |comps|
  {
    if comps == [] then base else Flattened(base, comps[..|comps| - 1]) + TypeMap(comps[|comps| - 1])
  }

  /** The short name of the last component that lists type `t`. */
  function LastWithType(comps: seq<AddressComponent>, t: string): (r: Option<string>)
    ensures r.None? <==> forall i :: 0 <= i < |comps| ==> t !in comps[i].types
    ensures r.Some? ==> exists i :: 0 <= i < |comps| && t in comps[i].types && r.value == comps[i].shortName &&
                                   (forall j :: i < j < |comps| ==> t !in comps[j].types)
    decreases |comps|
  {
    if comps == [] then None
    else if t in comps[|comps| - 1].types then Some(comps[|comps| - 1].shortName)
    else
      var r := LastWithType(comps[..|comps| - 1], t);
      assert forall i :: 0 <= i < |comps| - 1 ==> comps[..|comps| - 1][i] == comps[i];
      r
  }

  /** Each type ends up mapped to the short name of the last component listing
      it; keys no component lists keep their earlier value. */
  lemma {:induction false} FlattenedLastWins(base: map<string, string>, comps: seq<AddressComponent>, t: string)
    ensures t in Flattened(base, comps) <==> t in base || LastWithType(comps, t).Some?
    ensures LastWithType(comps, t).Some? ==> Flattened(base, comps)[t] == LastWithType(comps, t).value
    ensures LastWithType(comps, t).None? && t in base ==> Flattened(base, comps)[t] == base[t]
    decreases |comps|
  {
    if comps != [] {
      FlattenedLastWins(base, comps[..|comps| - 1], t);
    }
  }

  /** `keys[i]` is in `m` and no key before it is. */
  predicate FirstAt(m: map<string, string>, keys: seq<string>, i: int) {
    0 <= i < |keys| && keys[i] in m && forall j :: 0 <= j < i ==> keys[j] !in m
  }

  lemma FirstAtShift(m: map<string, string>, keys: seq<string>)
    requires keys != [] && keys[0] !in m
    ensures forall i :: FirstAt(m, keys[1..], i) ==> FirstAt(m, keys, i + 1) && keys[i + 1] == keys[1..][i]
    ensures (forall i :: 0 <= i < |keys| - 1 ==> keys[1..][i] !in m) ==> forall i :: 0 <= i < |keys| ==> keys[i] !in m
  {
    forall i | FirstAt(m, keys[1..], i)
      ensures FirstAt(m, keys, i + 1)
    {
      forall j | 0 <= j < i + 1
        ensures keys[j] !in m
      {
        if j > 0 { assert keys[j] == keys[1..][j - 1]; }
      }
    }
    if forall i :: 0 <= i < |keys| - 1 ==> keys[1..][i] !in m {
      forall i | 0 <= i < |keys|
        ensures keys[i] !in m
      {
        if i > 0 { assert keys[i] == keys[1..][i - 1]; }
      }
    }
  }

  /** The value of the first of `keys` present in `m`. */
  function FirstPresent(m: map<string, string>, keys: seq<string>): (r: Option<string>)
    ensures r.None? <==> forall i :: 0 <= i < |keys| ==> keys[i] !in m
    ensures r.Some? ==> exists i :: FirstAt(m, keys, i) && r.value == m[keys[i]]
    decreases |keys|
  {
    if keys == [] then None
    else if keys[0] in m then
      assert FirstAt(m, keys, 0);
      Some(m[keys[0]])
    else
      FirstAtShift(m, keys);
      FirstPresent(m, keys[1..])
  }

  /** Subregion: most granular first. */
  const SUBREGION_KEYS := ["neighborhood", "sublocality", "locality", "administrative_area_level_3", "city"]
  /** City: least granular below the county first. */
  const CITY_KEYS := ["city", "administrative_area_level_3", "locality", "sublocality", "neighborhood"]

  /** Both chains look at the same five keys, so the subregion falls back to ""
      exactly when the city does; the subregion's problem text is then always
      replaced by the city's. */
  lemma SubregionAndCityFallBackTogether(m: map<string, string>)
    ensures FirstPresent(m, SUBREGION_KEYS).None? <==> FirstPresent(m, CITY_KEYS).None?
  {
    var s := FirstPresent(m, SUBREGION_KEYS);
    var c := FirstPresent(m, CITY_KEYS);
    if s.None? {
      assert forall i :: 0 <= i < 5 ==> SUBREGION_KEYS[i] !in m;
      assert forall i :: 0 <= i < 5 ==> CITY_KEYS[i] == SUBREGION_KEYS[4 - i];
    }
    if c.None? {
      assert forall i :: 0 <= i < 5 ==> CITY_KEYS[i] !in m;
      assert forall i :: 0 <= i < 5 ==> SUBREGION_KEYS[i] == CITY_KEYS[4 - i];
    }
  }

  /** The keys the normalisation writes after the components are copied in. */
  const DERIVED_KEYS := {"full_address", "region", "subregion", "city", "problem"}

  /** What the normalisation leaves in `a`, given the dictionary `f` the
      components were copied into. Without a street number and a route only the
      problem is recorded. Otherwise `full_address` joins the two, `region` is
      the county (or "" when there is none), `subregion` and `city` are the
      first present of their five keys (or ""), and `problem` is the last
      problem met: no city beats no county; the subregion's problem never
      survives. Every other key is left as it was. */
  predicate DerivedFrom(a: map<string, string>, f: map<string, string>, fullAddress: string)
    requires "problem" in f
  {
    if "street_number" !in f || "route" !in f then
      a == f["problem" := ProblemText(NoStreetOrRoute, fullAddress)]
    else
      var city := FirstPresent(f, CITY_KEYS);
      && a.Keys == f.Keys + DERIVED_KEYS
      && a["full_address"] == f["street_number"] + " " + f["route"]
      && a["region"] == (if "administrative_area_level_2" in f then f["administrative_area_level_2"] else "")
      && a["subregion"] == FirstPresent(f, SUBREGION_KEYS).GetOr("")
      && a["city"] == city.GetOr("")
      && a["problem"] == (if city.None? then ProblemText(NoCity, fullAddress)
                          else if "administrative_area_level_2" !in f then ProblemText(NoCounty, fullAddress)
                          else f["problem"])
      && forall k :: k in f && k !in DERIVED_KEYS ==> a[k] == f[k]
  }

  /** The inner loop of the copy: each type of one component becomes a key
      holding the component's short name. */
  method CopyTypes(ac0: map<string, string>, c: AddressComponent) returns (ac: map<string, string>)
    ensures ac == ac0 + TypeMap(c)
    ensures forall t :: t in c.types ==> t in ac && ac[t] == c.shortName
    ensures forall t :: t !in c.types ==> (t in ac <==> t in ac0) && (t in ac ==> ac[t] == ac0[t])
  {
    ac := ac0;
    var j := 0;
    while j < |c.types|
      invariant 0 <= j <= |c.types|
      invariant ac == ac0 + map t | t in c.types[..j] :: c.shortName
    {
      assert c.types[..j + 1] == c.types[..j] + [c.types[j]];
      ac := ac[c.types[j] := c.shortName];
      j := j + 1;
    }
    assert c.types[..j] == c.types;
  }

  /** The nested loop of `get_geocode_address`: every type of every component,
      in order, becomes a key holding the component's short name, so a later
      component wins over an earlier one. */
  method CopyComponents(ac0: map<string, string>, comps: seq<AddressComponent>) returns (ac: map<string, string>)
    ensures ac == Flattened(ac0, comps)
    ensures forall t :: t in ac <==> t in ac0 || LastWithType(comps, t).Some?
    ensures forall t :: LastWithType(comps, t).Some? ==> ac[t] == LastWithType(comps, t).value
  {
    ac := ac0;
    var i := 0;
    while i < |comps|
      invariant 0 <= i <= |comps|
      invariant ac == Flattened(ac0, comps[..i])
    {
      ac := CopyTypes(ac, comps[i]);
      assert comps[..i + 1][..i] == comps[..i];
      i := i + 1;
    }
    assert comps[..i] == comps;
    forall t {
      FlattenedLastWins(ac0, comps, t);
    }
  }

  /** `FirstPresent` on five keys, written out as the if-chain it stands for. */
  lemma FirstPresentOfFive(m: map<string, string>, k0: string, k1: string, k2: string, k3: string, k4: string)
    ensures FirstPresent(m, [k0, k1, k2, k3, k4]) ==
      if k0 in m then Some(m[k0]) else if k1 in m then Some(m[k1]) else if k2 in m then Some(m[k2])
      else if k3 in m then Some(m[k3]) else if k4 in m then Some(m[k4]) else None
  {
    assert [k4][1..] == [];
    assert FirstPresent(m, [k4]) == if k4 in m then Some(m[k4]) else None;
    assert [k3, k4][1..] == [k4];
    assert FirstPresent(m, [k3, k4]) == if k3 in m then Some(m[k3]) else FirstPresent(m, [k4]);
    assert [k2, k3, k4][1..] == [k3, k4];
    assert FirstPresent(m, [k2, k3, k4]) == if k2 in m then Some(m[k2]) else FirstPresent(m, [k3, k4]);
    assert [k1, k2, k3, k4][1..] == [k2, k3, k4];
    assert FirstPresent(m, [k1, k2, k3, k4]) == if k1 in m then Some(m[k1]) else FirstPresent(m, [k2, k3, k4]);
    assert [k0, k1, k2, k3, k4][1..] == [k1, k2, k3, k4];
  }

  /** The chains never read a key written before them: full_address, region,
      problem, and (for the city chain) subregion. */
  lemma ChainKeysNotWritten()
    ensures "full_address" !in SUBREGION_KEYS && "region" !in SUBREGION_KEYS && "problem" !in SUBREGION_KEYS
    ensures "full_address" !in CITY_KEYS && "region" !in CITY_KEYS && "problem" !in CITY_KEYS
    ensures "subregion" !in CITY_KEYS
  {
    forall i | 0 <= i < 5
      ensures SUBREGION_KEYS[i] !in {"full_address", "region", "problem"}
      ensures CITY_KEYS[i] !in {"full_address", "region", "problem", "subregion"}
    {
      assert |SUBREGION_KEYS[i]| in {4, 8, 11, 12, 27};
      assert |CITY_KEYS[i]| in {4, 8, 11, 12, 27};
      assert SUBREGION_KEYS[i][0] in {'n', 's', 'l', 'a', 'c'};
      assert CITY_KEYS[i][0] in {'n', 's', 'l', 'a', 'c'};
    }
  }

  /** Writing a key outside the list leaves the lookup unchanged. */
  lemma {:induction false} FirstPresentIgnoresWrite(m: map<string, string>, k: string, v: string, keys: seq<string>)
    requires k !in keys
    ensures FirstPresent(m[k := v], keys) == FirstPresent(m, keys)
    decreases |keys|
  {
    if keys != [] {
      FirstPresentIgnoresWrite(m, k, v, keys[1..]);
    }
  }

  /** The county step writes no key either chain reads. */
  lemma RegionStepKeepsChains(f: map<string, string>, fa: string, problem: string, region: string)
    ensures var m := f["full_address" := fa]["problem" := problem]["region" := region];
      FirstPresent(m, SUBREGION_KEYS) == FirstPresent(f, SUBREGION_KEYS) &&
      FirstPresent(m, CITY_KEYS) == FirstPresent(f, CITY_KEYS)
  {
    ChainKeysNotWritten();
    var m1 := f["full_address" := fa];
    var m2 := m1["problem" := problem];
    FirstPresentIgnoresWrite(f, "full_address", fa, SUBREGION_KEYS);
    FirstPresentIgnoresWrite(m1, "problem", problem, SUBREGION_KEYS);
    FirstPresentIgnoresWrite(m2, "region", region, SUBREGION_KEYS);
    FirstPresentIgnoresWrite(f, "full_address", fa, CITY_KEYS);
    FirstPresentIgnoresWrite(m1, "problem", problem, CITY_KEYS);
    FirstPresentIgnoresWrite(m2, "region", region, CITY_KEYS);
  }

  /** The subregion step writes no key the city chain reads. */
  lemma SubregionStepKeepsCity(m: map<string, string>, subregion: string, problem: string)
    ensures FirstPresent(m["subregion" := subregion]["problem" := problem], CITY_KEYS) == FirstPresent(m, CITY_KEYS)
  {
    ChainKeysNotWritten();
    FirstPresentIgnoresWrite(m, "subregion", subregion, CITY_KEYS);
    FirstPresentIgnoresWrite(m["subregion" := subregion], "problem", problem, CITY_KEYS);
  }

  /** The county step: `region` is administrative_area_level_2, or "" and a problem. */
  method PickRegion(ac0: map<string, string>, fullAddress: string) returns (ac: map<string, string>)
    requires "problem" in ac0
    ensures var county := "administrative_area_level_2" in ac0;
      ac == ac0["problem" := if county then ac0["problem"] else ProblemText(NoCounty, fullAddress)]
               ["region" := if county then ac0["administrative_area_level_2"] else ""]
  {
    ac := ac0;
    if "administrative_area_level_2" in ac {
      ac := ac["region" := ac["administrative_area_level_2"]];
    } else {
      ac := ac["problem" := ProblemText(NoCounty, fullAddress)];
      ac := ac["region" := ""];
    }
  }

  /** The subregion chain: the first of neighborhood, sublocality, locality,
      administrative_area_level_3 and city, or "" and a problem. */
  method PickSubregion(ac0: map<string, string>, fullAddress: string) returns (ac: map<string, string>)
    requires "problem" in ac0
    ensures var sub := FirstPresent(ac0, SUBREGION_KEYS);
      ac == ac0["subregion" := sub.GetOr("")]
               ["problem" := if sub.None? then ProblemText(NoSubregion, fullAddress) else ac0["problem"]]
  {
    FirstPresentOfFive(ac0, "neighborhood", "sublocality", "locality", "administrative_area_level_3", "city");
    ac := ac0;
    if "neighborhood" in ac {
      ac := ac["subregion" := ac["neighborhood"]];
    } else if "sublocality" in ac {
      ac := ac["subregion" := ac["sublocality"]];
    } else if "locality" in ac {
      ac := ac["subregion" := ac["locality"]];
    } else if "administrative_area_level_3" in ac {
      ac := ac["subregion" := ac["administrative_area_level_3"]];
    } else if "city" in ac {
      ac := ac["subregion" := ac["city"]];
    } else {
      ac := ac["subregion" := ""];
      ac := ac["problem" := ProblemText(NoSubregion, fullAddress)];
    }
  }

  /** The city chain: the first of city, administrative_area_level_3, locality,
      sublocality and neighborhood, or "" and a problem. */
  method PickCity(ac0: map<string, string>, fullAddress: string) returns (ac: map<string, string>)
    requires "problem" in ac0
    ensures var city := FirstPresent(ac0, CITY_KEYS);
      ac == ac0["city" := city.GetOr("")]
               ["problem" := if city.None? then ProblemText(NoCity, fullAddress) else ac0["problem"]]
  {
    FirstPresentOfFive(ac0, "city", "administrative_area_level_3", "locality", "sublocality", "neighborhood");
    ac := ac0;
    if "city" in ac {
      ac := ac["city" := ac["city"]];
    } else if "administrative_area_level_3" in ac {
      ac := ac["city" := ac["administrative_area_level_3"]];
    } else if "locality" in ac {
      ac := ac["city" := ac["locality"]];
    } else if "sublocality" in ac {
      ac := ac["city" := ac["sublocality"]];
    } else if "neighborhood" in ac {
      ac := ac["city" := ac["neighborhood"]];
    } else {
      ac := ac["city" := ""];
      ac := ac["problem" := ProblemText(NoCity, fullAddress)];
    }
  }

  /** The writes the branches make when street number and route are both
      present, in the order they make them. */
  ghost function AfterWrites(f: map<string, string>, fullAddress: string): map<string, string>
    requires "street_number" in f && "route" in f && "problem" in f
  {
    var county := "administrative_area_level_2" in f;
    var sub := FirstPresent(f, SUBREGION_KEYS);
    var city := FirstPresent(f, CITY_KEYS);
    var p1 := if county then f["problem"] else ProblemText(NoCounty, fullAddress);
    var p2 := if sub.None? then ProblemText(NoSubregion, fullAddress) else p1;
    var p3 := if city.None? then ProblemText(NoCity, fullAddress) else p2;
    f["full_address" := f["street_number"] + " " + f["route"]]
     ["problem" := p1]["region" := if county then f["administrative_area_level_2"] else ""]
     ["subregion" := sub.GetOr("")]["problem" := p2]
     ["city" := city.GetOr("")]["problem" := p3]
  }

  lemma AfterWritesIsDerived(f: map<string, string>, fullAddress: string)
    requires "street_number" in f && "route" in f && "problem" in f
    ensures DerivedFrom(AfterWrites(f, fullAddress), f, fullAddress)
  {
    SubregionAndCityFallBackTogether(f);
  }

  /** The branches of `get_geocode_address` that follow the copy. */
  method DeriveFields(f: map<string, string>, fullAddress: string) returns (ac: map<string, string>)
    requires "problem" in f
    ensures DerivedFrom(ac, f, fullAddress)
  {
    if "street_number" !in f || "route" !in f {
      ac := f["problem" := ProblemText(NoStreetOrRoute, fullAddress)];
      return;
    }
    ac := WriteAddressFields(f, fullAddress);
    AfterWritesIsDerived(f, fullAddress);
  }

  /** The county, subregion and city steps, run once street number and route
      are known to be present. */
  method WriteAddressFields(f: map<string, string>, fullAddress: string) returns (ac: map<string, string>)
    requires "street_number" in f && "route" in f && "problem" in f
    ensures ac == AfterWrites(f, fullAddress)
  {
    var fa := f["street_number"] + " " + f["route"];
    ac := f["full_address" := fa];
    ghost var county := "administrative_area_level_2" in f;
    assert ("administrative_area_level_2" in ac) == county;
    assert county ==> ac["administrative_area_level_2"] == f["administrative_area_level_2"];
    assert ac["problem"] == f["problem"];
    RegionStepKeepsChains(f, fa,
      if county then f["problem"] else ProblemText(NoCounty, fullAddress),
      if county then f["administrative_area_level_2"] else "");
    ac := PickRegion(ac, fullAddress);
    SubregionStepKeepsCity(ac, FirstPresent(ac, SUBREGION_KEYS).GetOr(""),
      if FirstPresent(ac, SUBREGION_KEYS).None? then ProblemText(NoSubregion, fullAddress) else ac["problem"]);
    ac := PickSubregion(ac, fullAddress);
    ac := PickCity(ac, fullAddress);
  }

  /** `get_geocode_address` once the response is in hand: start from problem
      "OK" and the cache status; on ZERO_RESULTS or OVER_QUERY_LIMIT record only
      the problem; otherwise copy the first result's address and components in
      and derive the fields. A response with no result raises. */
  method GetGeocodeAddress(fullAddress: string, cacheStatus: CacheStatus, data: AddressData)
    returns (r: Result<map<string, string>, GeocodeError>)
    ensures data.status == "ZERO_RESULTS" ==>
      r == Ok(map["problem" := ProblemText(ZeroResults, fullAddress), "cache_status" := CacheStatusText(cacheStatus)])
    ensures data.status == "OVER_QUERY_LIMIT" ==>
      r == Ok(map["problem" := ProblemText(OverQueryLimit, fullAddress), "cache_status" := CacheStatusText(cacheStatus)])
    ensures data.status != "ZERO_RESULTS" && data.status != "OVER_QUERY_LIMIT" ==>
      (r.Err? <==> data.results == [])
    ensures data.status != "ZERO_RESULTS" && data.status != "OVER_QUERY_LIMIT" && data.results != [] ==>
      var first := data.results[0];
      var f := Flattened(Base(cacheStatus, first.formattedAddress), first.components);
      "problem" in f && r.Ok? && DerivedFrom(r.value, f, fullAddress)
  {
    var ac: map<string, string> := map[];
    ac := ac["problem" := "OK"];
    ac := ac["cache_status" := CacheStatusText(cacheStatus)];

    if data.status == "ZERO_RESULTS" {
      ac := ac["problem" := ProblemText(ZeroResults, fullAddress)];
      assert ac == map["problem" := ProblemText(ZeroResults, fullAddress), "cache_status" := CacheStatusText(cacheStatus)];
      return Ok(ac);
    } else if data.status == "OVER_QUERY_LIMIT" {
      ac := ac["problem" := ProblemText(OverQueryLimit, fullAddress)];
      assert ac == map["problem" := ProblemText(OverQueryLimit, fullAddress), "cache_status" := CacheStatusText(cacheStatus)];
      return Ok(ac);
    }
    if |data.results| == 0 {
      return Err(NoFirstResult);
    }
    var first := data.results[0];
    ac := ac["formatted_address" := first.formattedAddress];
    assert ac == Base(cacheStatus, first.formattedAddress);
    ac := CopyComponents(ac, first.components);
    ac := DeriveFields(ac, fullAddress);
    return Ok(ac);
  }

  // ---------------------------------------------------------------------------
  // Region tree for the dropdown widget

  /** One entry of the widget's data: `{"label", "value", "children"}`, the label held in `text`. */
  datatype TreeItem = TreeItem(text: string, value: int, children: seq<TreeItem>)

  /** `build_tree`: one item per region, in order, each with its region's subtree. */
  function BuildTree(regions: seq<Region>): (items: seq<TreeItem>)
    ensures |items| == |regions|
    ensures forall i :: 0 <= i < |regions| ==> items[i].text == regions[i].name && items[i].value == regions[i].id
    decreases regions
  {
    if regions == [] then []
    else [BuildItem(regions[0])] + BuildTree(regions[1..])
  }

  function BuildItem(r: Region): (item: TreeItem)
    ensures item.text == r.name && item.value == r.id
    decreases r
  {
    TreeItem(r.name, r.id, if |r.children| > 0 then BuildTree(r.children) else [])
  }

  /** Number of regions in a forest. */
  function RegionCount(forest: seq<Region>): nat
    decreases forest
  {
    if forest == [] then 0 else 1 + RegionCount(forest[0].children) + RegionCount(forest[1..])
  }

  /** Number of items in a tree of items. */
  function ItemCount(items: seq<TreeItem>): nat
    decreases items
  {
    if items == [] then 0 else 1 + ItemCount(items[0].children) + ItemCount(items[1..])
  }

  /** Reads the regions back from the widget data. */
  function RegionsOf(items: seq<TreeItem>): seq<Region>
    decreases items
  {
    if items == [] then []
    else [Region(items[0].value, items[0].text, RegionsOf(items[0].children))] + RegionsOf(items[1..])
  }

  /** The tree has exactly one item per region. */
  lemma {:induction false} BuildTreeKeepsCount(forest: seq<Region>)
    ensures ItemCount(BuildTree(forest)) == RegionCount(forest)
    decreases forest
  {
    if forest != [] {
      BuildTreeKeepsCount(forest[0].children);
      BuildTreeKeepsCount(forest[1..]);
    }
  }

  /** Nothing is lost: the regions can be read back from the tree. */
  lemma {:induction false} BuildTreeLossless(forest: seq<Region>)
    ensures RegionsOf(BuildTree(forest)) == forest
    decreases forest
  {
    if forest != [] {
      BuildTreeLossless(forest[0].children);
      BuildTreeLossless(forest[1..]);
      assert forest == [forest[0]] + forest[1..];
    }
  }
}
