/** The records of the meeting directory and the rules the model classes
    attach to them: the region tree and its labels, the weekday sort order, the
    default orderings, field validation, and the save hook that keeps the
    online meeting type in step with the conference URL. */
module Models {
  import opened Wrappers
  import opened Strings
  import opened Validators

  // ---------------------------------------------------------------------------
  // Region: a forest of named regions

  datatype Region = Region(id: int, name: string, children: seq<Region>)

  /** Some region in the forest has this id. */
  predicate InForest(forest: seq<Region>, id: int)
    decreases forest
  {
    exists i :: 0 <= i < |forest| && InTree(forest[i], id)
  }

  predicate InTree(r: Region, id: int)
    decreases r
  {
    r.id == id || InForest(r.children, id)
  }

  /** Each region in the path is a child of the one before it. */
  predicate IsChain(path: seq<Region>) {
    forall i :: 0 <= i < |path| - 1 ==> path[i + 1] in path[i].children
  }

  /** `path` runs from a root of the forest down to a region with this id. */
  predicate IsAncestorPath(forest: seq<Region>, path: seq<Region>, id: int) {
    |path| >= 1 && path[0] in forest && IsChain(path) && path[|path| - 1].id == id
  }

  /** `get_ancestors(include_self=True)`: the regions from the root down to the
      first region (in forest order) with this id, or None when there is none. */
  function AncestorPath(forest: seq<Region>, id: int): (p: Option<seq<Region>>)
    ensures p.Some? <==> InForest(forest, id)
    ensures p.Some? ==> IsAncestorPath(forest, p.value, id)
    decreases forest
  {
    if forest == [] then None
    else match AncestorPathFrom(forest[0], id)
      case Some(q) => Some(q)
      case None =>
        var rest := AncestorPath(forest[1..], id);
        assert InForest(forest, id) <==> InTree(forest[0], id) || InForest(forest[1..], id) by {
          if InForest(forest[1..], id) {
            var i :| 0 <= i < |forest[1..]| && InTree(forest[1..][i], id);
            assert InTree(forest[i + 1], id);
          }
          if InForest(forest, id) && !InTree(forest[0], id) {
            var i :| 0 <= i < |forest| && InTree(forest[i], id);
            assert InTree(forest[1..][i - 1], id);
          }
        }
        if rest.Some? then
          assert rest.value[0] in forest;
          rest
        else None
  }

  function AncestorPathFrom(r: Region, id: int): (p: Option<seq<Region>>)
    ensures p.Some? <==> InTree(r, id)
    ensures p.Some? ==> |p.value| >= 1 && p.value[0] == r && IsChain(p.value) && p.value[|p.value| - 1].id == id
    decreases r
  {
    if r.id == id then Some([r])
    else match AncestorPath(r.children, id)
      case Some(q) =>
        Some([r] + q)
      case None => None
  }

  /** The names along a path, as `values_list("name", flat=True)` gives them. */
  function Names(path: seq<Region>): (names: seq<string>)
    ensures |names| == |path|
    ensures forall i :: 0 <= i < |path| ==> names[i] == path[i].name
  {
    seq(|path|, i requires 0 <= i < |path| => path[i].name)
  }

  /** `Region.__str__`: the ancestor names joined by " > ". A root region is
      shown as its own name; any other region as its parent's label, " > ",
      and its own name. */
  function RegionLabel(ancestors: seq<string>): (text: string)
    ensures |ancestors| == 1 ==> text == ancestors[0]
    ensures |ancestors| > 1 ==>
      text == RegionLabel(ancestors[..|ancestors| - 1]) + " > " + ancestors[|ancestors| - 1]
  {
    if |ancestors| > 1 then
      assert ancestors == ancestors[..|ancestors| - 1] + [ancestors[|ancestors| - 1]];
      JoinSnoc(ancestors[..|ancestors| - 1], " > ", ancestors[|ancestors| - 1]);
      Join(ancestors, " > ")
    else Join(ancestors, " > ")
  }

  /** A location may only be filed under a region that has a parent. */
  predicate LocationRegionAllowed(forest: seq<Region>, regionId: int) {
    match AncestorPath(forest, regionId)
    case Some(p) => |p| >= 2
    case None => false
  }

  /** An allowed location region sits under a parent region, and its label is the
      parent's label followed by " > " and its own name. */
  lemma LocationRegionHasParent(forest: seq<Region>, regionId: int)
    requires LocationRegionAllowed(forest, regionId)
    ensures var p := AncestorPath(forest, regionId).value; var n := |p|;
      p[n - 1].id == regionId && p[n - 1] in p[n - 2].children &&
      RegionLabel(Names(p)) == RegionLabel(Names(p[..n - 1])) + " > " + p[n - 1].name
  {
    var p := AncestorPath(forest, regionId).value;
    var n := |p|;
    assert Names(p)[..n - 1] == Names(p[..n - 1]);
  }

  // ---------------------------------------------------------------------------
  // Weekdays

  /** `day_of_week` counts from Sunday. */
  const SUNDAY := 0
  const SATURDAY := 6

  /** The `day_of_week` number of the day `datetime.weekday()` calls `weekday`
      (Python counts from Monday = 0). */
  function DayOfWeekOf(weekday: int): (d: int)
    requires 0 <= weekday <= 6
    ensures SUNDAY <= d <= SATURDAY
    ensures weekday == 6 <==> d == SUNDAY
  {
    (weekday + 1) % 7
  }

  /** `Meeting.day_sort_order`, with today's `weekday()` as a parameter: 0 for
      a meeting on today's day of the week, up to 6 for yesterday's. */
  function DaySortOrder(dayOfWeek: int, todayWeekday: int): (r: int)
    requires SUNDAY <= dayOfWeek <= SATURDAY && 0 <= todayWeekday <= 6
    ensures 0 <= r <= 6
    ensures r == (dayOfWeek - todayWeekday - 1) % 7
    ensures r == 0 <==> dayOfWeek == DayOfWeekOf(todayWeekday)
    ensures r == 6 <==> dayOfWeek == DayOfWeekOf((todayWeekday + 6) % 7)
  {
    var order := dayOfWeek - todayWeekday - 1;
    if order < 0 then order + 7 else order
  }

  /** Sorting by `day_sort_order` is a rotation of the week: two different days
      never share a position. */
  lemma DaySortOrderInjective(d1: int, d2: int, todayWeekday: int)
    requires SUNDAY <= d1 <= SATURDAY && SUNDAY <= d2 <= SATURDAY && 0 <= todayWeekday <= 6
    requires DaySortOrder(d1, todayWeekday) == DaySortOrder(d2, todayWeekday)
    ensures d1 == d2
  {
  }

  // ---------------------------------------------------------------------------
  // Meeting types, groups and contributions, with their default orderings

  datatype MeetingType = MeetingType(
    id: int,
    typeName: string,
    intergroupCode: Option<string>,
    specCode: Option<string>,
    displayOrder: nat)

  /** `MeetingType.Meta.ordering = ["display_order", "type_name"]`: may `a` come before `b`? */
  predicate MeetingTypeLeq(a: MeetingType, b: MeetingType) {
    a.displayOrder < b.displayOrder || (a.displayOrder == b.displayOrder && StrLeq(a.typeName, b.typeName))
  }

  lemma MeetingTypeOrderIsTotalPreorder(a: MeetingType, b: MeetingType, c: MeetingType)
    ensures MeetingTypeLeq(a, a)
    ensures MeetingTypeLeq(a, b) || MeetingTypeLeq(b, a)
    ensures MeetingTypeLeq(a, b) && MeetingTypeLeq(b, c) ==> MeetingTypeLeq(a, c)
  {
    StrLeqTotal(a.typeName, a.typeName);
    StrLeqTotal(a.typeName, b.typeName);
    if MeetingTypeLeq(a, b) && MeetingTypeLeq(b, c) && a.displayOrder == b.displayOrder == c.displayOrder {
      StrLeqTransitive(a.typeName, b.typeName, c.typeName);
    }
  }

  datatype Group = Group(id: int, name: string, gsoNumber: Option<string>, status: int)

  datatype Date = Date(year: int, month: int, day: int)

  predicate DateLeq(a: Date, b: Date) {
    a.year < b.year || (a.year == b.year && (a.month < b.month || (a.month == b.month && a.day <= b.day)))
  }

  /** A contribution; its decimal amount is not part of the model. */
  datatype GroupContribution = GroupContribution(group: Group, date: Date)

  /** `GroupContribution.Meta.ordering = ["group__name", "-date"]`: by group name,
      then the most recent first. */
  predicate ContributionLeq(a: GroupContribution, b: GroupContribution) {
    StrLt(a.group.name, b.group.name) || (a.group.name == b.group.name && DateLeq(b.date, a.date))
  }

  lemma ContributionOrderIsTotalPreorder(a: GroupContribution, b: GroupContribution, c: GroupContribution)
    ensures ContributionLeq(a, a)
    ensures ContributionLeq(a, b) || ContributionLeq(b, a)
    ensures ContributionLeq(a, b) && ContributionLeq(b, c) ==> ContributionLeq(a, c)
  {
    StrLeqTotal(a.group.name, b.group.name);
    if ContributionLeq(a, b) && ContributionLeq(b, c) {
      if StrLt(a.group.name, b.group.name) && StrLt(b.group.name, c.group.name) {
        StrLeqTransitive(a.group.name, b.group.name, c.group.name);
        if a.group.name == c.group.name {
          StrLeqAntisymmetric(a.group.name, b.group.name);
        }
      }
    }
  }

  /** A later contribution of the same group is listed first. */
  lemma NewerContributionFirst(a: GroupContribution, b: GroupContribution)
    requires a.group.name == b.group.name && DateLeq(b.date, a.date) && a.date != b.date
    ensures ContributionLeq(a, b) && !ContributionLeq(b, a)
  {
  }

  // ---------------------------------------------------------------------------
  // Meetings

  datatype Time = Time(hour: nat, minute: nat, second: nat)

  /** What a Python `datetime.time` guarantees of its fields. */
  predicate IsClockTime(t: Time) {
    t.hour < 24 && t.minute < 60 && t.second < 60
  }

  predicate TimeLeq(a: Time, b: Time) {
    a.hour < b.hour || (a.hour == b.hour && (a.minute < b.minute || (a.minute == b.minute && a.second <= b.second)))
  }

  const INACTIVE := 0
  const ACTIVE := 1

  /** A meeting page. `parentId` is the id of the location page it sits under. */
  datatype Meeting = Meeting(
    id: int,
    title: string,
    slug: string,
    urlPath: string,
    live: bool,
    parentId: int,
    group: Option<Group>,
    startTime: Option<Time>,
    endTime: Option<Time>,
    dayOfWeek: int,
    status: int,
    details: Option<string>,
    area: string,
    district: string,
    types: set<MeetingType>,
    conferenceUrl: string,
    conferencePhone: string,
    venmo: string,
    paypal: string,
    cashapp: string)

  /** A map point: `x` is the longitude, `y` the latitude. */
  datatype Point = Point(x: real, y: real)

  /** A location page. `point` is what the geometry library makes of the stored
      `lat_lng` text (that parser is not part of this model): `None` when it gives
      nothing with an `x` and a `y`, so that `lat` and `lng` fail. */
  datatype Location = Location(id: int, title: string, regionId: int, formattedAddress: Option<string>, point: Option<Point>)

  /** `Location.lat`. */
  function Latitude(loc: Location): (lat: Option<real>)
    ensures lat.Some? <==> loc.point.Some?
    ensures lat.Some? ==> lat.value == loc.point.value.y
  {
    if loc.point.None? then None else Some(loc.point.value.y)
  }

  /** `Location.lng`. */
  function Longitude(loc: Location): (lng: Option<real>)
    ensures lng.Some? <==> loc.point.Some?
    ensures lng.Some? ==> lng.value == loc.point.value.x
  {
    if loc.point.None? then None else Some(loc.point.value.x)
  }

  // ---------------------------------------------------------------------------
  // Field validation. Django runs a field's validators only when the field holds
  // a non-blank value (all four fields allow blank); a TextField's max_length
  // is not checked on the model, a CharField's is.

  predicate VenmoFieldValid(s: string) { s == "" || VenmoUsername(s) }

  predicate CashAppFieldValid(s: string) { s == "" || CashAppUsername(s) }

  predicate ConferencePhoneFieldValid(s: string) { s == "" || (ConferencePhone(s) && |s| <= 255) }

  /** The PayPal field runs the alphanumeric pattern and a minimum length of 3. */
  predicate PayPalFieldValid(s: string) { s == "" || (PayPalUsername(s) && |s| >= 3) }

  predicate MeetingFieldsValid(m: Meeting) {
    VenmoFieldValid(m.venmo) && CashAppFieldValid(m.cashapp) &&
    ConferencePhoneFieldValid(m.conferencePhone) && PayPalFieldValid(m.paypal)
  }

  /** A non-blank PayPal value is valid exactly when it is alphanumeric (up to one
      final newline, which counts toward the length) and at least 3 long. */
  lemma PayPalFieldExactly(s: string)
    requires s != ""
    ensures PayPalFieldValid(s) <==>
      |s| >= 3 && (IsAlnumLine(s) || (EndsWithNewline(s) && IsAlnumLine(Chomp(s))))
  {
    PayPalExactly(s);
  }

  /** A non-blank value in a valid PayPal field never looks like a Venmo or
      CashApp handle. */
  lemma PayPalFieldNotAHandle(m: Meeting)
    requires MeetingFieldsValid(m) && m.paypal != ""
    ensures !VenmoUsername(m.paypal) && !CashAppUsername(m.paypal)
  {
    PayPalExcludesHandles(m.paypal);
  }

  // ---------------------------------------------------------------------------
  // The online meeting type

  const ONLINE_SPEC_CODE := "ONL"

  /** What `MeetingType.objects.get(spec_code="ONL")` raises. */
  datatype LookupError = DoesNotExist | MultipleObjectsReturned

  /** The catalogue entries whose spec code is `code`, in catalogue order. */
  function WithSpecCode(catalogue: seq<MeetingType>, code: string): (r: seq<MeetingType>)
    ensures forall t :: t in r <==> t in catalogue && t.specCode == Some(code)
    ensures forall t :: multiset(r)[t] == if t.specCode == Some(code) then multiset(catalogue)[t] else 0
    ensures |r| <= |catalogue|
  {
    if catalogue == [] then []
    else
      assert catalogue == [catalogue[0]] + catalogue[1..];
      (if catalogue[0].specCode == Some(code) then [catalogue[0]] else []) + WithSpecCode(catalogue[1..], code)
  }

  /** Two catalogue positions hold types with this spec code. */
  predicate TwoWithSpecCode(catalogue: seq<MeetingType>, code: string) {
    exists i, j :: 0 <= i < j < |catalogue| && catalogue[i].specCode == Some(code) && catalogue[j].specCode == Some(code)
  }

  /** The filter keeps at least two entries exactly when two positions match. */
  lemma WithSpecCodeCountsMatches(catalogue: seq<MeetingType>, code: string)
    ensures |WithSpecCode(catalogue, code)| >= 2 <==> TwoWithSpecCode(catalogue, code)
  {
    if |WithSpecCode(catalogue, code)| >= 2 {
      var i, j := TwoMatchesFromCount(catalogue, code);
    }
    if TwoWithSpecCode(catalogue, code) {
      var i, j :| 0 <= i < j < |catalogue| && catalogue[i].specCode == Some(code) && catalogue[j].specCode == Some(code);
      CountFromTwoMatches(catalogue, code, i, j);
    }
  }

  lemma {:induction false} TwoMatchesFromCount(catalogue: seq<MeetingType>, code: string) returns (i: nat, j: nat)
    requires |WithSpecCode(catalogue, code)| >= 2
    ensures i < j < |catalogue| && catalogue[i].specCode == Some(code) && catalogue[j].specCode == Some(code)
    decreases |catalogue|
  {
    var tail := catalogue[1..];
    var rest := WithSpecCode(tail, code);
    if catalogue[0].specCode == Some(code) {
      assert rest[0] in tail;
      var k :| 0 <= k < |tail| && tail[k] == rest[0];
      i, j := 0, k + 1;
    } else {
      var i', j' := TwoMatchesFromCount(tail, code);
      i, j := i' + 1, j' + 1;
    }
  }

  lemma {:induction false} CountFromTwoMatches(catalogue: seq<MeetingType>, code: string, i: nat, j: nat)
    requires i < j < |catalogue| && catalogue[i].specCode == Some(code) && catalogue[j].specCode == Some(code)
    ensures |WithSpecCode(catalogue, code)| >= 2
    decreases |catalogue|
  {
    var tail := catalogue[1..];
    if i == 0 {
      assert tail[j - 1] in WithSpecCode(tail, code);
    } else {
      CountFromTwoMatches(tail, code, i - 1, j - 1);
    }
  }

  /** The single meeting type with spec code "ONL", or the lookup's error. */
  function OnlineType(catalogue: seq<MeetingType>): (r: Result<MeetingType, LookupError>)
    ensures r.Ok? ==> r.value in catalogue && r.value.specCode == Some(ONLINE_SPEC_CODE)
    ensures r == Err(DoesNotExist) <==> forall t :: t in catalogue ==> t.specCode != Some(ONLINE_SPEC_CODE)
    ensures r == Err(MultipleObjectsReturned) <==> TwoWithSpecCode(catalogue, ONLINE_SPEC_CODE)
  {
    var found := WithSpecCode(catalogue, ONLINE_SPEC_CODE);
    WithSpecCodeCountsMatches(catalogue, ONLINE_SPEC_CODE);
    if |found| == 0 then Err(DoesNotExist)
    else if |found| > 1 then
      assert found[0] in found;
      Err(MultipleObjectsReturned)
    else Ok(found[0])
  }

  /** The types after the save hook: the online type is added when there is a
      conference URL and removed when there is none. */
  function WithOnlineToggled(types: set<MeetingType>, online: MeetingType, conferenceUrl: string): (r: set<MeetingType>)
    ensures online in r <==> conferenceUrl != ""
    ensures forall t :: t != online ==> (t in r <==> t in types)
  {
    if conferenceUrl != "" then types + {online} else types - {online}
  }

  /** Running the hook a second time changes nothing. */
  lemma WithOnlineToggledIdempotent(types: set<MeetingType>, online: MeetingType, conferenceUrl: string)
    ensures var once := WithOnlineToggled(types, online, conferenceUrl);
      WithOnlineToggled(once, online, conferenceUrl) == once
  {
  }

  /** A meeting page as the admin edits it; `Save` mutates its record in place. */
  class MeetingPage {
    var meeting: Meeting

    constructor (m: Meeting)
      ensures meeting == m
    {
      meeting := m;
    }

    /** `Meeting.save`: look up the online type, then add it to or remove it from
        `types` according to `conference_url`. A failed lookup raises before
        anything changes. Writing the row to the database is not modelled. */
    method Save(catalogue: seq<MeetingType>) returns (r: Result<(), LookupError>)
      modifies this
      ensures OnlineType(catalogue).Err? ==> r == Err(OnlineType(catalogue).error) && meeting == old(meeting)
      ensures OnlineType(catalogue).Ok? ==>
        r.Ok? && meeting == old(meeting).(types := WithOnlineToggled(old(meeting.types), OnlineType(catalogue).value, old(meeting.conferenceUrl)))
    {
      var found := OnlineType(catalogue);
      if found.Err? {
        return Err(found.error);
      }
      var online := found.value;
      if meeting.conferenceUrl != "" {
        meeting := meeting.(types := meeting.types + {online});
      } else {
        meeting := meeting.(types := meeting.types - {online});
      }
      r := Ok(());
    }

    /** Saving twice leaves the types as saving once did. */
    method SaveTwice(catalogue: seq<MeetingType>)
      modifies this
      ensures OnlineType(catalogue).Err? ==> meeting == old(meeting)
      ensures OnlineType(catalogue).Ok? ==>
        meeting == old(meeting).(types := WithOnlineToggled(old(meeting.types), OnlineType(catalogue).value, old(meeting.conferenceUrl)))
    {
      var r1 := Save(catalogue);
      ghost var afterOnce := meeting;
      var r2 := Save(catalogue);
      if OnlineType(catalogue).Ok? {
        WithOnlineToggledIdempotent(old(meeting.types), OnlineType(catalogue).value, old(meeting.conferenceUrl));
        assert meeting == afterOnce;
      }
    }
  }
}
