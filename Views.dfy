/** The meeting-list JSON API: which meetings are listed and in what order, the
    rules that turn one meeting into one JSON record, and the view that builds
    the whole list or fails on the first meeting it cannot render. */
module Views {
  import opened Wrappers
  import opened Strings
  import opened Models

  // ---------------------------------------------------------------------------
  // get_meetings: live, active meetings ordered by (day_of_week, start_time)

  /** `Meeting.objects.live().filter(status=Meeting.ACTIVE)` keeps this meeting. */
  predicate IsListed(m: Meeting) {
    m.live && m.status == ACTIVE
  }

  /** The filter, keeping the order and the repetitions of the input. */
  function Listed(all: seq<Meeting>): (r: seq<Meeting>)
    ensures forall m :: m in r <==> m in all && IsListed(m)
    ensures forall m :: multiset(r)[m] == if IsListed(m) then multiset(all)[m] else 0
  {
    if all == [] then []
    else
      assert all == [all[0]] + all[1..];
      (if IsListed(all[0]) then [all[0]] else []) + Listed(all[1..])
  }

  /** A missing start time sorts before any time. */
  predicate StartLeq(a: Option<Time>, b: Option<Time>) {
    a.None? || (b.Some? && TimeLeq(a.value, b.value))
  }

  /** `order_by("day_of_week", "start_time")`: may `a` come before `b`? */
  predicate MeetingLeq(a: Meeting, b: Meeting) {
    a.dayOfWeek < b.dayOfWeek || (a.dayOfWeek == b.dayOfWeek && StartLeq(a.startTime, b.startTime))
  }

  lemma MeetingOrderIsTotalPreorder(a: Meeting, b: Meeting, c: Meeting)
    ensures MeetingLeq(a, a)
    ensures MeetingLeq(a, b) || MeetingLeq(b, a)
    ensures MeetingLeq(a, b) && MeetingLeq(b, c) ==> MeetingLeq(a, c)
  {
  }

  predicate SortedMeetings(s: seq<Meeting>) {
    forall i, j :: 0 <= i < j < |s| ==> MeetingLeq(s[i], s[j])
  }

  /** A meeting that may precede every meeting of a sorted list may head it. */
  lemma SortedCons(x: Meeting, s: seq<Meeting>)
    requires SortedMeetings(s)
    requires forall y :: y in s ==> MeetingLeq(x, y)
    ensures SortedMeetings([x] + s)
  {
    var r := [x] + s;
    forall i, j | 0 <= i < j < |r| ensures MeetingLeq(r[i], r[j]) {
      if i > 0 {
        assert r[i] == s[i - 1] && r[j] == s[j - 1];
      } else {
        assert r[j] == s[j - 1];
      }
    }
  }

  /** Puts `m` before the first meeting it may precede. */
  function Insert(m: Meeting, s: seq<Meeting>): (r: seq<Meeting>)
    requires SortedMeetings(s)
    ensures SortedMeetings(r)
    ensures multiset(r) == multiset(s) + multiset{m}
  {
    if s == [] then [m]
    else if MeetingLeq(m, s[0]) then
      assert forall y :: y in s ==> MeetingLeq(m, y) by {
        forall y | y in s ensures MeetingLeq(m, y) {
          MeetingOrderIsTotalPreorder(m, s[0], y);
        }
      }
      SortedCons(m, s);
      [m] + s
    else
      MeetingOrderIsTotalPreorder(m, s[0], m);
      assert s == [s[0]] + s[1..];
      var t := Insert(m, s[1..]);
      assert forall y :: y in t ==> MeetingLeq(s[0], y) by {
        forall y | y in t ensures MeetingLeq(s[0], y) {
          assert y in multiset(t);
          if y != m {
            assert y in s[1..];
          }
        }
      }
      SortedCons(s[0], t);
      [s[0]] + t
  }

  /** Insertion sort by `MeetingLeq`. */
  function SortMeetings(s: seq<Meeting>): (r: seq<Meeting>)
    ensures SortedMeetings(r)
    ensures multiset(r) == multiset(s)
  {
    if s == [] then []
    else
      assert s == [s[0]] + s[1..];
      Insert(s[0], SortMeetings(s[1..]))
  }

  /** `MeetingsBaseView.get_meetings`: exactly the listed meetings, each as often
      as it occurs, ordered by day and then start time. */
  function GetMeetings(all: seq<Meeting>): (r: seq<Meeting>)
    ensures SortedMeetings(r)
    ensures multiset(r) == multiset(Listed(all))
    ensures forall m :: m in r <==> m in all && IsListed(m)
  {
    var r := SortMeetings(Listed(all));
    assert forall m :: m in r <==> m in multiset(r);
    r
  }

  // ---------------------------------------------------------------------------
  // The string fields of one record

  /** The `location` field: the location title, followed by " (D<district>)"
      when the meeting has a district. */
  function LocationTitle(title: string, district: string): (r: string)
    ensures |title| <= |r| && r[..|title|] == title
    ensures r == title <==> district == ""
    ensures district != "" ==> r[|title|..] == " (D" + district + ")"
  {
    if |district| > 0 then title + " (D" + district + ")" else title
  }

  /** Different districts give different titles for the same location. */
  lemma LocationTitleDeterminesDistrict(title: string, d1: string, d2: string)
    requires LocationTitle(title, d1) == LocationTitle(title, d2)
    ensures d1 == d2
  {
    var r := LocationTitle(title, d1);
    if d1 != "" && d2 != "" {
      var t1 := r[|title|..];
      assert t1 == " (D" + d1 + ")" == " (D" + d2 + ")";
      assert d1 == t1[3..|t1| - 1];
      assert d2 == t1[3..|t1| - 1];
    }
  }

  /** `getattr(meeting.group, "gso_number", None)`: no group means no number. */
  function GsoOf(group: Option<Group>): (gso: Option<string>)
    ensures group.None? ==> gso.None?
    ensures group.Some? ==> gso == group.value.gsoNumber
  {
    match group
    case None => None
    case Some(g) => g.gsoNumber
  }

  const GSO_SEPARATOR := " / GSO #"

  /** A GSO number that the `if gso_number and len(gso_number)` test lets through. */
  predicate HasGso(gso: Option<string>) {
    gso.Some? && |gso.value| > 0
  }

  /** The `group` field: "D<district>" when there is a district, then
      " / GSO #<number>" when the group has a non-empty GSO number. */
  function GroupInfo(district: string, gso: Option<string>): (r: string)
    ensures r == "" <==> district == "" && !HasGso(gso)
    ensures district != "" ==> |r| >= |district| + 1 && r[..|district| + 1] == "D" + district
    ensures district == "" && HasGso(gso) ==> r == GSO_SEPARATOR + gso.value
    ensures district != "" && HasGso(gso) ==> r == "D" + district + GSO_SEPARATOR + gso.value
    ensures !HasGso(gso) ==> r == (if district == "" then "" else "D" + district)
    ensures HasGso(gso) ==> |r| >= |gso.value| && r[|r| - |gso.value|..] == gso.value
  {
    var head := if |district| > 0 then "D" + district else "";
    if HasGso(gso) then head + GSO_SEPARATOR + gso.value else head
  }

  /** With no district but a GSO number, the field starts with the separator. */
  lemma GroupInfoWithoutDistrict(gso: string)
    requires gso != ""
    ensures var r := GroupInfo("", Some(gso));
      |r| >= |GSO_SEPARATOR| && r[..|GSO_SEPARATOR|] == GSO_SEPARATOR
  {
  }

  /** The field does not always tell district and number apart: the district
      "1 / GSO #2" (ten characters, within the column's limit) without a number
      reads the same as district "1" with number "2". */
  lemma GroupInfoCanCoincide()
    ensures GroupInfo("1 / GSO #2", None) == GroupInfo("1", Some("2"))
  {
  }

  const PAYPAL_ME := "https://paypal.me/"

  /** The `paypal` field: a paypal.me link for a non-empty username, else "". */
  function PayPalLink(paypal: string): (r: string)
    ensures r == "" <==> paypal == ""
    ensures paypal != "" ==> |r| == |PAYPAL_ME| + |paypal| && r[..|PAYPAL_ME|] == PAYPAL_ME
  {
    if |paypal| > 0 then PAYPAL_ME + paypal else ""
  }

  /** The username a `paypal` field carries. */
  function PayPalUserOf(link: string): string {
    if |link| >= |PAYPAL_ME| && link[..|PAYPAL_ME|] == PAYPAL_ME then link[|PAYPAL_ME|..] else ""
  }

  /** The username can be read back from the link. */
  lemma PayPalLinkRoundTrip(paypal: string)
    ensures PayPalUserOf(PayPalLink(paypal)) == paypal
  {
    if paypal != "" {
      assert PayPalLink(paypal)[|PAYPAL_ME|..] == paypal;
    }
  }

  // ---------------------------------------------------------------------------
  // "%H:%M"

  function DigitChar(n: nat): (c: char)
    requires n < 10
    ensures IsAsciiDigit(c)
  {
    ('0' as int + n) as char
  }

  function DigitValue(c: char): int {
    c as int - '0' as int
  }

  /** `n` with two decimal digits, zero-padded. */
  function TwoDigits(n: nat): (s: string)
    requires n < 100
    ensures |s| == 2 && IsAsciiDigit(s[0]) && IsAsciiDigit(s[1])
    ensures DigitValue(s[0]) * 10 + DigitValue(s[1]) == n
  {
    [DigitChar(n / 10), DigitChar(n % 10)]
  }

  /** `f"{t:%H:%M}"`: hours and minutes, two digits each, separated by a colon. */
  function HourMinute(t: Time): (s: string)
    requires IsClockTime(t)
    ensures |s| == 5 && s[2] == ':'
    ensures forall i :: 0 <= i < 5 && i != 2 ==> IsAsciiDigit(s[i])
  {
    TwoDigits(t.hour) + ":" + TwoDigits(t.minute)
  }

  /** Reads hours and minutes back from "HH:MM". */
  function ParseHourMinute(s: string): (hm: (int, int))
    requires |s| == 5
  {
    (DigitValue(s[0]) * 10 + DigitValue(s[1]), DigitValue(s[3]) * 10 + DigitValue(s[4]))
  }

  /** The formatted time gives back the hour and the minute (the seconds are dropped). */
  lemma HourMinuteRoundTrip(t: Time)
    requires IsClockTime(t)
    ensures ParseHourMinute(HourMinute(t)) == (t.hour, t.minute)
  {
    var h := TwoDigits(t.hour);
    var m := TwoDigits(t.minute);
    assert HourMinute(t) == h + ":" + m;
    assert HourMinute(t)[0] == h[0] && HourMinute(t)[1] == h[1];
    assert HourMinute(t)[3] == m[0] && HourMinute(t)[4] == m[1];
  }

  // ---------------------------------------------------------------------------
  // Meeting types in their default order

  predicate SortedTypes(s: seq<MeetingType>) {
    forall i, j :: 0 <= i < j < |s| ==> MeetingTypeLeq(s[i], s[j])
  }

  /** `s` lists every type of the set once. */
  predicate Enumerates(s: seq<MeetingType>, types: set<MeetingType>) {
    && (forall i :: 0 <= i < |s| ==> s[i] in types)
    && (forall x :: x in types ==> x in s)
    && (forall i, j :: 0 <= i < j < |s| ==> s[i] != s[j])
  }

  /** A non-empty set of types has a first one in the default order. */
  lemma {:induction false} MinExists(types: set<MeetingType>)
    requires types != {}
    ensures exists x :: x in types && forall y :: y in types ==> MeetingTypeLeq(x, y)
    decreases |types|
  {
    var x :| x in types;
    var rest := types - {x};
    if rest == {} {
      assert types == rest + {x};
      MeetingTypeOrderIsTotalPreorder(x, x, x);
    } else {
      MinExists(rest);
      var m :| m in rest && forall y :: y in rest ==> MeetingTypeLeq(m, y);
      MeetingTypeOrderIsTotalPreorder(m, x, m);
      if MeetingTypeLeq(m, x) {
        assert forall y :: y in types ==> MeetingTypeLeq(m, y);
      } else {
        forall y | y in types ensures MeetingTypeLeq(x, y) {
          MeetingTypeOrderIsTotalPreorder(x, y, y);
          if y != x {
            MeetingTypeOrderIsTotalPreorder(x, m, y);
          }
        }
      }
    }
  }

  /** The types of a meeting as the ORM returns them: each once, in
      (display_order, type_name) order. */
  method OrderedTypes(types: set<MeetingType>) returns (s: seq<MeetingType>)
    ensures Enumerates(s, types)
    ensures SortedTypes(s)
  {
    s := [];
    var rest := types;
    while rest != {}
      invariant rest <= types
      invariant forall x :: x in s <==> x in types && x !in rest
      invariant forall i, j :: 0 <= i < j < |s| ==> s[i] != s[j]
      invariant SortedTypes(s)
      invariant forall i, y :: 0 <= i < |s| && y in rest ==> MeetingTypeLeq(s[i], y)
      decreases |rest|
    {
      MinExists(rest);
      var x :| x in rest && forall y :: y in rest ==> MeetingTypeLeq(x, y);
      s := s + [x];
      rest := rest - {x};
    }
  }

  /** `values_list("spec_code", flat=True)` over a list of types. */
  function SpecCodes(s: seq<MeetingType>): (codes: seq<Option<string>>)
    ensures |codes| == |s|
    ensures forall i :: 0 <= i < |s| ==> codes[i] == s[i].specCode
  {
    seq(|s|, i requires 0 <= i < |s| => s[i].specCode)
  }

  /** `codes` are the spec codes of the meeting's types in the default order
      (types that tie in that order may come either way). */
  ghost predicate TypesListed(codes: seq<Option<string>>, types: set<MeetingType>) {
    exists s :: Enumerates(s, types) && SortedTypes(s) && codes == SpecCodes(s)
  }

  // ---------------------------------------------------------------------------
  // The API view

  /** One meeting as the JSON list shows it. `updated`, `latitude` and
      `longitude` are not part of the model. */
  datatype ApiMeeting = ApiMeeting(
    name: string,
    slug: string,
    notes: Option<string>,
    url: string,
    day: int,
    time: string,
    endTime: string,
    conferenceUrl: string,
    conferencePhone: string,
    types: seq<Option<string>>,
    location: string,
    formattedAddress: Option<string>,
    latitude: real,
    longitude: real,
    regions: seq<string>,
    group: string,
    paypal: string,
    venmo: string)

  /** Why the view fails for a meeting, in the order it finds out: the parent
      page is not a location (KeyError), the location's region is not in the
      region table (DoesNotExist), a missing start or end time cannot be
      formatted (TypeError), the location has no point to read `lat` and `lng`
      from. */
  datatype ApiError = LocationMissing | RegionMissing | TimeMissing | PointMissing

  /** The `locations` dictionary the view fills: every location by id, a later
      one with the same id replacing an earlier one. */
  function LocationIndex(locations: seq<Location>): (index: map<int, Location>)
    ensures forall i :: 0 <= i < |locations| ==> locations[i].id in index
    ensures forall id :: id in index ==> index[id].id == id && index[id] in locations
    ensures forall i :: 0 <= i < |locations| ==>
      ((forall j :: i < j < |locations| ==> locations[j].id != locations[i].id) ==> index[locations[i].id] == locations[i])
  {
    if locations == [] then map[]
    else
      var last := locations[|locations| - 1];
      var front := locations[..|locations| - 1];
      assert forall i :: 0 <= i < |front| ==> front[i] == locations[i];
      LocationIndex(front)[last.id := last]
  }

  /** Both of a meeting's times are clock times, as `datetime.time` guarantees. */
  predicate HasClockTimes(m: Meeting) {
    (m.startTime.Some? ==> IsClockTime(m.startTime.value)) && (m.endTime.Some? ==> IsClockTime(m.endTime.value))
  }

  /** What stops the view at this meeting, if anything. */
  function MeetingError(m: Meeting, index: map<int, Location>, regions: seq<Region>): (e: Option<ApiError>)
    ensures e == Some(LocationMissing) <==> m.parentId !in index
    ensures e == Some(RegionMissing) <==> m.parentId in index && !InForest(regions, index[m.parentId].regionId)
    ensures e == Some(TimeMissing) <==>
      m.parentId in index && InForest(regions, index[m.parentId].regionId) && (m.startTime.None? || m.endTime.None?)
    ensures e.None? <==>
      && m.parentId in index && InForest(regions, index[m.parentId].regionId)
      && m.startTime.Some? && m.endTime.Some?
      && index[m.parentId].point.Some?
  {
    if m.parentId !in index then Some(LocationMissing)
    else if AncestorPath(regions, index[m.parentId].regionId).None? then Some(RegionMissing)
    else if m.startTime.None? || m.endTime.None? then Some(TimeMissing)
    else if Latitude(index[m.parentId]).None? then Some(PointMissing)
    else None
  }

  /** `rec` is the record the view writes for meeting `m` at location `loc`,
      whose region has the ancestor path `path`. */
  ghost predicate ApiRecordFor(rec: ApiMeeting, m: Meeting, loc: Location, path: seq<Region>, baseUrl: string)
    requires m.startTime.Some? && m.endTime.Some? && HasClockTimes(m) && loc.point.Some?
  {
    && rec.name == m.title
    && rec.slug == m.slug
    && rec.notes == m.details
    && rec.url == baseUrl + m.urlPath
    && rec.day == m.dayOfWeek
    && rec.time == HourMinute(m.startTime.value)
    && rec.endTime == HourMinute(m.endTime.value)
    && rec.conferenceUrl == m.conferenceUrl
    && rec.conferencePhone == m.conferencePhone
    && TypesListed(rec.types, m.types)
    && rec.location == LocationTitle(loc.title, m.district)
    && rec.formattedAddress == loc.formattedAddress
    && Latitude(loc) == Some(rec.latitude)
    && Longitude(loc) == Some(rec.longitude)
    && rec.regions == Names(path)
    && rec.group == GroupInfo(m.district, GsoOf(m.group))
    && rec.paypal == PayPalLink(m.paypal)
    && rec.venmo == m.venmo
  }

  /** Meeting `k` is the first of `listed` the view cannot render. */
  predicate FirstFailure(listed: seq<Meeting>, index: map<int, Location>, regions: seq<Region>, k: int) {
    0 <= k < |listed| && MeetingError(listed[k], index, regions).Some? &&
    forall i :: 0 <= i < k ==> MeetingError(listed[i], index, regions).None?
  }

  /** The first loop of the view: fill the dictionary of locations by id. */
  method IndexLocations(locations: seq<Location>) returns (index: map<int, Location>)
    ensures index == LocationIndex(locations)
  {
    index := map[];
    var i := 0;
    while i < |locations|
      invariant 0 <= i <= |locations|
      invariant index == LocationIndex(locations[..i])
    {
      assert locations[..i + 1][..i] == locations[..i];
      index := index[locations[i].id := locations[i]];
      i := i + 1;
    }
    assert locations[..i] == locations;
  }

  /** The body of the second loop for one meeting: its record, or the error
      that stops the view. */
  method RenderMeeting(m: Meeting, index: map<int, Location>, regions: seq<Region>, baseUrl: string)
    returns (r: Result<ApiMeeting, ApiError>)
    requires HasClockTimes(m)
    ensures r.Err? <==> MeetingError(m, index, regions).Some?
    ensures r.Err? ==> MeetingError(m, index, regions) == Some(r.error)
    ensures r.Ok? ==>
      ApiRecordFor(r.value, m, index[m.parentId], AncestorPath(regions, index[m.parentId].regionId).value, baseUrl)
  {
    var types := OrderedTypes(m.types);
    if m.parentId !in index {
      return Err(LocationMissing);
    }
    var loc := index[m.parentId];
    var path := AncestorPath(regions, loc.regionId);
    if path.None? {
      return Err(RegionMissing);
    }
    if m.startTime.None? || m.endTime.None? {
      return Err(TimeMissing);
    }
    var lat := Latitude(loc);
    if lat.None? {
      return Err(PointMissing);
    }
    var lng := Longitude(loc);
    var rec := ApiMeeting(
      m.title, m.slug, m.details, baseUrl + m.urlPath, m.dayOfWeek,
      HourMinute(m.startTime.value), HourMinute(m.endTime.value),
      m.conferenceUrl, m.conferencePhone, SpecCodes(types),
      LocationTitle(loc.title, m.district), loc.formattedAddress, lat.value, lng.value, Names(path.value),
      GroupInfo(m.district, GsoOf(m.group)), PayPalLink(m.paypal), m.venmo);
    assert TypesListed(rec.types, m.types);
    return Ok(rec);
  }

  /** `MeetingsAPIView.get`: index the locations by id, then write one record per
      listed meeting, in listing order; the first meeting that cannot be
      rendered aborts the whole response. */
  method MeetingsApi(allMeetings: seq<Meeting>, locations: seq<Location>, regions: seq<Region>, baseUrl: string)
    returns (r: Result<seq<ApiMeeting>, ApiError>)
    requires forall m :: m in allMeetings ==> HasClockTimes(m)
    ensures var listed := GetMeetings(allMeetings); var index := LocationIndex(locations);
      r.Ok? <==> forall k :: 0 <= k < |listed| ==> MeetingError(listed[k], index, regions).None?
    ensures var listed := GetMeetings(allMeetings); var index := LocationIndex(locations);
      r.Err? ==> exists k :: FirstFailure(listed, index, regions, k) && MeetingError(listed[k], index, regions) == Some(r.error)
    ensures var listed := GetMeetings(allMeetings); var index := LocationIndex(locations);
      r.Ok? ==>
        && |r.value| == |listed|
        && forall k :: 0 <= k < |listed| ==> RenderedAs(r.value[k], listed[k], index, regions, baseUrl)
  {
    var listed := GetMeetings(allMeetings);
    var index := IndexLocations(locations);
    var out: seq<ApiMeeting> := [];
    var j := 0;
    while j < |listed|
      invariant 0 <= j <= |listed|
      invariant |out| == j
      invariant forall k :: 0 <= k < j ==> RenderedAs(out[k], listed[k], index, regions, baseUrl)
    {
      var m := listed[j];
      assert m in allMeetings;
      var rec := RenderMeeting(m, index, regions, baseUrl);
      if rec.Err? {
        assert FirstFailure(listed, index, regions, j);
        return Err(rec.error);
      }
      out := out + [rec.value];
      j := j + 1;
    }
    return Ok(out);
  }

  /** `rec` is what the view writes for `m`: the meeting renders, and the record
      is built from it, its location and its region's ancestor path. */
  ghost predicate RenderedAs(rec: ApiMeeting, m: Meeting, index: map<int, Location>, regions: seq<Region>, baseUrl: string) {
    && HasClockTimes(m)
    && MeetingError(m, index, regions).None?
    && ApiRecordFor(rec, m, index[m.parentId], AncestorPath(regions, index[m.parentId].regionId).value, baseUrl)
  }

  /** The records come out by day of the week, the order of the listing. */
  lemma RecordsFollowDayOrder(allMeetings: seq<Meeting>, index: map<int, Location>, regions: seq<Region>,
                              baseUrl: string, out: seq<ApiMeeting>)
    requires var listed := GetMeetings(allMeetings);
      |out| == |listed| && forall k :: 0 <= k < |listed| ==> RenderedAs(out[k], listed[k], index, regions, baseUrl)
    ensures forall i, j :: 0 <= i < j < |out| ==> out[i].day <= out[j].day
  {
    var listed := GetMeetings(allMeetings);
    forall i, j | 0 <= i < j < |out| ensures out[i].day <= out[j].day {
      assert MeetingLeq(listed[i], listed[j]);
      assert RenderedAs(out[i], listed[i], index, regions, baseUrl);
      assert RenderedAs(out[j], listed[j], index, regions, baseUrl);
    }
  }

  /** Every record's region list runs from a root region down to the location's
      own region, so it is non-empty and ends with that region's name. */
  lemma ApiRegionsEndWithOwnRegion(regions: seq<Region>, loc: Location, rec: ApiMeeting, m: Meeting, baseUrl: string)
    requires m.startTime.Some? && m.endTime.Some? && HasClockTimes(m) && loc.point.Some?
    requires InForest(regions, loc.regionId)
    requires ApiRecordFor(rec, m, loc, AncestorPath(regions, loc.regionId).value, baseUrl)
    ensures |rec.regions| >= 1
    ensures var p := AncestorPath(regions, loc.regionId).value;
      p[|p| - 1].id == loc.regionId && rec.regions[|rec.regions| - 1] == p[|p| - 1].name
    ensures rec.regions[0] == AncestorPath(regions, loc.regionId).value[0].name
  {
  }
}
