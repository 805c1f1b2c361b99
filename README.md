# Wagtail meeting guide: a Dafny model

This project models the core of the Wagtail meeting-guide plugin. The plugin keeps a
directory of recovery meetings as Wagtail pages: meetings sit under locations, and
locations are filed in a tree of regions. It publishes the meetings as a JSON list
in the Meeting Guide format. The model covers five parts:

- **Validators** (`Validators.dfy`): the CashApp, Venmo, conference-phone and PayPal
  validators. The file contains a small matcher for the shapes `^ lit? [class]+ $` under
  Python's `re.search`, where `$` also matches before one final newline. Lemmas say in
  plain terms which strings each validator accepts.
- **Records** (`Models.dfy`):
  - the region forest, the ancestor path of a region, and its " > " label;
  - `day_sort_order`;
  - the default orderings of meeting types and group contributions;
  - which values of the payment and phone fields pass model validation;
  - the save hook that adds or removes the online meeting type. `MeetingPage` is a
    class whose `Save` updates the page's record in place.
- **Geocoding** (`Utils.dfy`):
  - the cache file name of an address;
  - the normalisation of a geocoding response into one flat dictionary, done by
    imperative methods that mirror the source's loops and if-chains;
  - `build_tree` for the region dropdown.
- **API** (`Views.dfy`):
  - which meetings are listed, and their order;
  - the string rules for the `location`, `group`, `paypal` and `time` fields;
  - the view method. It indexes the locations, renders one record per listed meeting,
    and fails on the first meeting it cannot render.
- `Strings.dfy` and `Wrappers.dfy` are shared helpers. They hold ASCII case mapping,
  Python's code-point string order, `str.join`, Option and Result.

Some behaviour in the code is worth knowing. Each item below is stated as a lemma:

- Validation is skipped for blank values. A PayPal value must also be at least 3 long.
  The PayPal docstring speaks of 8-16 characters, but the pattern has no length bound.
- The subregion chain and the city chain look at the same five keys. So the subregion's
  problem message can never survive: the city's message always replaces it.
- The docstring of `get_geocode_address` says it returns `None` when the geocoder finds
  no address. The code never does. A status other than ZERO_RESULTS or
  OVER_QUERY_LIMIT with an empty `results` list raises `IndexError`. The model follows
  the code: the method returns `Err(NoFirstResult)`.
- The API's `group` field cannot always be read back. The district "1 / GSO #2" with no
  GSO number gives the same text as district "1" with GSO number "2".

## Model

| member | source | states |
|---|---|---|
| Validators.CashAppExactly | meeting_guide/validators.py:13 | accepted exactly when `$` is followed by one or more of `[A-Za-z0-9_-]`, optionally with one final newline |
| Validators.VenmoExactly | meeting_guide/validators.py:58 | accepted exactly when `@` is followed by one or more of `[A-Za-z0-9_-]`, optionally with one final newline |
| Validators.ConferencePhoneExactly | meeting_guide/validators.py:27 | accepted exactly when the string is a non-empty run of digits, `+`, `,` and `#`, optionally with one final newline |
| Validators.PayPalExactly | meeting_guide/validators.py:43 | accepted exactly when the string is a non-empty ASCII-alphanumeric run, optionally with one final newline |
| Validators.WithoutNewline | meeting_guide/validators.py:13-58 | on input with no newline, each validator accepts exactly its plain character-class description |
| Validators.EmptyRejected | meeting_guide/validators.py:13-58 | no validator accepts the empty string |
| Validators.VenmoCashAppDisjoint | meeting_guide/validators.py:7-18 | no string is both a valid Venmo and a valid CashApp username |
| Validators.PayPalExcludesHandles | meeting_guide/validators.py:36-48 | a valid PayPal username is neither a Venmo nor a CashApp username |
| Validators.ZoomExampleAccepted | meeting_guide/validators.py:27-32 | the documented Zoom dial string is accepted |
| Validators.PayPalHasNoLengthBound | meeting_guide/validators.py:37-43 | one-character and seventeen-character names pass, despite the "8-16 characters" docstring |
| Validators.OneOrMoreMatches | meeting_guide/validators.py:27 | `[class]+` consumes exactly the non-empty strings drawn from the class |
| Validators.MatchesAll | meeting_guide/validators.py:13-58 | a pattern of literals and one-or-more character classes consumes the whole string |
| Validators.AnchoredSearch | meeting_guide/validators.py:13-58 | `re.search` with `^...$`: the pattern consumes the whole string, or the whole string less one final newline |
| Validators.CashAppUsername | meeting_guide/validators.py:13 | the CashApp pattern `^\$[a-zA-Z0-9_-]+$` under `re.search` |
| Validators.ConferencePhone | meeting_guide/validators.py:27 | the conference-phone pattern `^[0-9+,#]+$` under `re.search` |
| Validators.PayPalUsername | meeting_guide/validators.py:43 | the PayPal pattern `^[a-zA-Z0-9]+$` under `re.search` |
| Validators.VenmoUsername | meeting_guide/validators.py:58 | the Venmo pattern `^@[a-zA-Z0-9_-]+$` under `re.search` |
| Models.AncestorPath | meeting_guide/models.py:35 | `get_ancestors(include_self=True)`: a path exists exactly when the id is in the forest, and it runs from a root down a chain of children to that region |
| Models.Names | meeting_guide/models.py:35 | `values_list("name")`: the names of the path, in order |
| Models.RegionLabel | meeting_guide/models.py:34-36 | a root's label is its name; any other region's label is its parent's label, " > ", and its own name |
| Strings.Join | meeting_guide/models.py:36 | `sep.join(parts)`: the parts with the separator between neighbours |
| Models.LocationRegionHasParent | meeting_guide/models.py:83-88 | a region a location may use has a parent, and its label extends the parent's label |
| Models.LocationRegionAllowed | meeting_guide/models.py:83-88 | `limit_choices_to={"parent__isnull": False}`: the region is in the forest and is not a root |
| Models.Latitude | meeting_guide/models.py:103-109 | `lat` is the point's `y`, and fails exactly when there is no point |
| Models.Longitude | meeting_guide/models.py:103-113 | `lng` is the point's `x`, and fails exactly when there is no point |
| Models.DayOfWeekOf | meeting_guide/models.py:175-190 | maps Python's Monday-first weekday onto the Sunday-first `day_of_week` |
| Models.DaySortOrder | meeting_guide/models.py:257-267 | in 0..6, equal to (day - weekday - 1) mod 7, and 0 exactly for today's day of the week and 6 exactly for yesterday's |
| Models.DaySortOrderInjective | meeting_guide/models.py:257-267 | two different days never get the same sort position |
| Strings.StrLeq | meeting_guide/models.py:157 | Python's string order: code-point lexicographic, with a prefix first |
| Strings.StrLeqTotal | meeting_guide/models.py:157 | any two strings are comparable |
| Strings.StrLeqAntisymmetric | meeting_guide/models.py:157 | strings that each precede the other are equal |
| Strings.StrLeqTransitive | meeting_guide/models.py:157 | the string order is transitive |
| Models.MeetingTypeLeq | meeting_guide/models.py:157 | meeting type `a` may precede `b`: a smaller display_order, or the same one and a type_name no greater |
| Models.MeetingTypeOrderIsTotalPreorder | meeting_guide/models.py:157 | ordering by (display_order, type_name) is reflexive, total and transitive |
| Models.ContributionLeq | meeting_guide/models.py:72 | contribution `a` may precede `b`: a smaller group name, or the same one and a date no earlier |
| Models.ContributionOrderIsTotalPreorder | meeting_guide/models.py:72 | ordering by (group name, date descending) is reflexive, total and transitive |
| Models.NewerContributionFirst | meeting_guide/models.py:72 | of two contributions from one group, the newer one strictly comes first |
| Models.VenmoFieldValid | meeting_guide/models.py:232-239 | blank, or a valid Venmo username; `max_length` of a TextField is not checked |
| Models.CashAppFieldValid | meeting_guide/models.py:248-255 | blank, or a valid CashApp username; `max_length` of a TextField is not checked |
| Models.ConferencePhoneFieldValid | meeting_guide/models.py:223-231 | blank, or a valid conference phone of at most 255 characters |
| Models.PayPalFieldValid | meeting_guide/models.py:240-247 | blank, or a valid PayPal username of at least 3 characters |
| Models.MeetingFieldsValid | meeting_guide/models.py:223-255 | all four payment and phone fields pass model validation |
| Models.PayPalFieldExactly | meeting_guide/models.py:240-247 | a non-blank PayPal value passes the alphanumeric pattern and MinLengthValidator(3) exactly when it is alphanumeric (up to a final newline) and at least 3 long |
| Models.PayPalFieldNotAHandle | meeting_guide/models.py:232-255 | in a meeting with valid fields, a non-blank PayPal value is never a Venmo or CashApp handle |
| Models.WithSpecCode | meeting_guide/models.py:322 | `filter(spec_code=code)`: exactly the catalogue entries with the given spec code, each as often as in the catalogue |
| Models.WithSpecCodeCountsMatches | meeting_guide/models.py:322 | the filter keeps two or more entries exactly when two catalogue positions carry the code |
| Models.OnlineType | meeting_guide/models.py:322 | `get(spec_code="ONL")`: the matching type; DoesNotExist exactly when no type has the code; MultipleObjectsReturned exactly when two positions have it |
| Models.WithOnlineToggled | meeting_guide/models.py:323-326 | the online type is present exactly when the conference URL is non-empty, and no other type changes |
| Models.WithOnlineToggledIdempotent | meeting_guide/models.py:316-328 | applying the save hook twice gives the same types as once |
| Models.MeetingPage.Save | meeting_guide/models.py:316-328 | a failed lookup leaves the page unchanged and reports the error; otherwise only `types` changes, to the toggled set |
| Models.MeetingPage.SaveTwice | meeting_guide/models.py:316-328 | saving twice leaves the record as saving once does; when the lookup fails, the record is unchanged |
| Strings.LowerChar | meeting_guide/utils.py:24 | a capital becomes the letter 32 code points later, its lower-case form; any other character is kept |
| Strings.Lower | meeting_guide/utils.py:24 | `str.lower()` on ASCII: same length, each capital lowered, everything else kept |
| Utils.StripLeadingSpaces | meeting_guide/utils.py:24 | `lstrip(" ")`: a suffix of the input that does not start with a space, after only spaces |
| Utils.KeepAlnum | meeting_guide/utils.py:24 | `re.sub("[^0-9a-zA-Z]+", "", s)`: keeps only ASCII letters and digits of the input; one character is kept exactly when it is one |
| Utils.KeepAlnumAppend | meeting_guide/utils.py:24 | the filter distributes over concatenation, so it keeps every letter and digit, in order |
| Utils.CacheKey | meeting_guide/utils.py:22-26 | the key holds only digits and lower-case letters and is no longer than the address |
| Utils.CacheFilename | meeting_guide/utils.py:22-26 | the name is the cache directory, the key and ".json" |
| Utils.CacheKeyIsAlnumOfLower | meeting_guide/utils.py:24 | the key is the letters and digits of the lower-cased address, so stripping leading spaces is redundant |
| Utils.CacheKeyIgnoresLeadingSpace | meeting_guide/utils.py:24 | a leading space does not change the key |
| Utils.CacheKeyIgnoresCase | meeting_guide/utils.py:24 | addresses equal up to ASCII case share a key |
| Utils.CacheKeyIdempotent | meeting_guide/utils.py:22-26 | normalising a key again gives the same key |
| Utils.ProblemText | meeting_guide/utils.py:67-165 | every problem message starts with "Google " and so is never "OK" |
| Utils.Flattened | meeting_guide/utils.py:82-86 | copying components in keeps every key already present |
| Utils.LastWithType | meeting_guide/utils.py:82-86 | the short name of the last component that lists a type, or none exactly when no component lists it |
| Utils.FlattenedLastWins | meeting_guide/utils.py:82-86 | after the copy, each type maps to the last component listing it; other keys keep their value |
| Utils.CopyTypes | meeting_guide/utils.py:83-86 | the inner loop sets every type of the component to its short name and leaves other keys alone |
| Utils.CopyComponents | meeting_guide/utils.py:82-86 | the outer loop computes the copy, keywise as `FlattenedLastWins` describes |
| Utils.FirstPresent | meeting_guide/utils.py:126-165 | the value of the first listed key present, or none exactly when no listed key is present |
| Utils.SubregionAndCityFallBackTogether | meeting_guide/utils.py:125-165 | the subregion chain falls through exactly when the city chain does |
| Utils.FirstPresentIgnoresWrite | meeting_guide/utils.py:105-123 | writing a key outside a chain does not change that chain's result |
| Utils.RegionStepKeepsChains | meeting_guide/utils.py:105-123 | the full-address and county steps do not change what the subregion and city chains find |
| Utils.SubregionStepKeepsCity | meeting_guide/utils.py:125-144 | the subregion step does not change what the city chain finds |
| Utils.PickRegion | meeting_guide/utils.py:113-123 | `region` is the county, or "" with the county problem recorded |
| Utils.PickSubregion | meeting_guide/utils.py:125-144 | `subregion` is the first present of neighborhood, sublocality, locality, administrative_area_level_3 and city, or "" with the subregion problem |
| Utils.PickCity | meeting_guide/utils.py:146-165 | `city` is the first present of city, administrative_area_level_3, locality, sublocality and neighborhood, or "" with the city problem |
| Utils.WriteAddressFields | meeting_guide/utils.py:104-165 | the street branch makes exactly the writes of the full-address, county, subregion and city steps, in order |
| Utils.AfterWritesIsDerived | meeting_guide/utils.py:104-165 | those writes leave the derived keys as `DerivedFrom` describes: the last problem wins, no city beats no county, and other keys are untouched |
| Utils.DerivedFrom | meeting_guide/utils.py:95-165 | the keys the street branch derives: full address, county or "", subregion and city by their fallback chains, and the last problem recorded |
| Utils.DeriveFields | meeting_guide/utils.py:95-165 | without street number or route only the problem is recorded; otherwise full address, region, subregion, city and problem are derived, and no other key changes |
| Utils.GetGeocodeAddress | meeting_guide/utils.py:12-167 | ZERO_RESULTS and OVER_QUERY_LIMIT give only the problem and cache status; any other status fails exactly when there is no result, and otherwise the dictionary derives from the first result |
| Utils.BuildTree | meeting_guide/utils.py:170-185 | one item per region, in order, each labelled with the region's name and valued with its id |
| Utils.BuildItem | meeting_guide/utils.py:173-183 | an item carries its region's name and id |
| Utils.BuildTreeKeepsCount | meeting_guide/utils.py:170-185 | the tree has exactly as many items as the forest has regions |
| Utils.BuildTreeLossless | meeting_guide/utils.py:170-185 | the region forest can be read back from the tree |
| Views.Listed | meeting_guide/views.py:32-33 | exactly the live, active meetings, each kept as often as it occurs |
| Views.IsListed | meeting_guide/views.py:32-33 | a meeting is listed when it is live and active |
| Views.MeetingOrderIsTotalPreorder | meeting_guide/views.py:35 | ordering by (day_of_week, start_time) is reflexive, total and transitive |
| Views.MeetingLeq | meeting_guide/views.py:35 | `order_by("day_of_week", "start_time")`: a smaller day, or the same day and a start time no later |
| Views.SortedCons | meeting_guide/views.py:35 | a meeting that may precede every meeting of a sorted list may head it |
| Views.Insert | meeting_guide/views.py:35 | inserting into a sorted list keeps it sorted and adds exactly that meeting |
| Views.SortMeetings | meeting_guide/views.py:35 | the result is sorted by day and start time and is a permutation of the input |
| Views.GetMeetings | meeting_guide/views.py:30-36 | sorted by day and start time, a permutation of the listed meetings, and holding exactly the live, active ones |
| Views.LocationTitle | meeting_guide/views.py:62-67 | the title, then " (D<district>)" exactly when the district is non-empty |
| Views.LocationTitleDeterminesDistrict | meeting_guide/views.py:63-67 | for one location, different districts give different `location` texts |
| Views.GsoOf | meeting_guide/views.py:69 | no group gives no GSO number; otherwise the group's number |
| Views.GroupInfo | meeting_guide/views.py:62-71 | empty exactly when there is neither district nor GSO number; "D<district>" when there is only a district; "D<district> / GSO #<number>" when there are both; starts with " / GSO #" and ends with the number when there is only a number |
| Views.GroupInfoWithoutDistrict | meeting_guide/views.py:62-71 | with no district, a GSO number makes the field start with " / GSO #" |
| Views.GroupInfoCanCoincide | meeting_guide/views.py:62-71 | two different (district, GSO number) pairs can give the same text |
| Views.PayPalLink | meeting_guide/views.py:100 | "" exactly for an empty username; otherwise the paypal.me prefix and then the username |
| Views.PayPalLinkRoundTrip | meeting_guide/views.py:100 | the username can be read back from the link |
| Views.TwoDigits | meeting_guide/views.py:89-90 | two decimal digits that read back as the number |
| Views.HourMinute | meeting_guide/views.py:89-90 | `%H:%M`: five characters, digits around a colon |
| Views.HourMinuteRoundTrip | meeting_guide/views.py:89-90 | the hour and minute can be read back from the text |
| Views.MinExists | meeting_guide/models.py:157 | every non-empty set of meeting types has a first type in the default order |
| Views.OrderedTypes | meeting_guide/views.py:55-57 | the meeting's types, each once, in (display_order, type_name) order |
| Views.SpecCodes | meeting_guide/views.py:55-57 | the spec codes of the types, in the same order |
| Views.LocationIndex | meeting_guide/views.py:50-52 | every location is indexed by its id, and a later location with the same id replaces an earlier one |
| Views.IndexLocations | meeting_guide/views.py:50-52 | the first loop builds that index |
| Views.ApiRecordFor | meeting_guide/views.py:81-103 | the record's every field, from the meeting, its location and its region path |
| Views.MeetingError | meeting_guide/views.py:54-97 | the first failure in the order the view meets it: LocationMissing exactly when the parent is not a location; RegionMissing exactly when the location's region is not in the table; TimeMissing exactly when a time is unset after those pass; no error exactly when all pass and the location has a point |
| Views.RenderMeeting | meeting_guide/views.py:55-103 | one meeting fails exactly with its error, or gives the record built from the meeting, its location (including latitude and longitude) and its region path |
| Views.MeetingsApi | meeting_guide/views.py:44-103 | succeeds exactly when every listed meeting renders, with one record per listed meeting in listing order; otherwise fails with the first failing meeting's error |
| Views.RecordsFollowDayOrder | meeting_guide/views.py:35 | the records come out ordered by day of the week |
| Views.ApiRegionsEndWithOwnRegion | meeting_guide/views.py:73-77 | the `regions` list is non-empty, starts at a root, and ends with the location's own region |

## Left out

- Cache file I/O and the geocoding HTTP request in `get_geocode_address` are left out. The decoded response and the cache status are parameters; the cache is not written.
- Parsing the stored `lat_lng` text into a point is done by a geometry library outside this model: `Location.point` is its result, and the `geometry` of a geocoding result is not modelled.
- The problem messages embed the dictionary's Python `repr` after the address. The model renders that dump as the empty string.
- Utils.CacheKey: `str.lower()` is modelled on ASCII only. Unicode mappings, such as KELVIN SIGN becoming `k`, are not modelled.
- String order is Python's code-point order. Database collation is not modelled.
- Views.GetMeetings: the database leaves the order of ties unspecified; the model fixes one (insertion sort).
- Views.GetMeetings: meetings without a start time sort first. Where NULLs go is database-dependent.
- Views.OrderedTypes: types that tie on (display_order, type_name) may come in either order. `TypesListed` allows any such order.
- The API's `updated` field is left out, because it formats a clock reading with `strftime`.
- Response caching, GZip, `json.dumps` and `HttpResponse` are framework plumbing and are not modelled.
- `settings.BASE_URL` is a parameter.
- `live()` is a boolean field of the meeting. Page-tree lookup (`get_parent`) is the meeting's `parentId`.
- MPTT tree maintenance and ORM prefetching are not modelled.
- The decimal `amount` of a contribution, `Group.founded`/`history`, and every `__str__` except `Region.__str__` are not modelled.
- The admin hooks, admin registration, migrations, settings, template tags, URL routing and packaging are not part of this model.
- Utils.GetGeocodeAddress: a response missing `results`, `formatted_address` or a component key (a KeyError in Python) is not modelled. The response is a typed record.
- Models.MeetingPage.Save: writing the page to the database is not modelled; only the in-memory `types` change is.
