# NY Times Congress client: URL construction

A Dafny model of the part of the PHP `NYTimesCongress` client that builds
request URLs. The client is made with an API key, an API version and a
response format (`xml` by default). The constructor turns the version into
the base URI `http://api.nytimes.com/svc/politics/<version>/us/legislative/congress`.
Each of the 29 `get*` methods joins that base URI, the caller's identifiers
and fixed words into a resource path ending in `.` and the format. The path
goes to the transfer routine, and from one method the caller's parameter
array goes with it. Before fetching, `_prepareURI` appends `?api-key=` and
the key. When the parameter array is non-empty it also appends `&` and the
query string that PHP's `http_build_query` makes from it.

Files:

- `optional.dfy` (`Optional`): PHP's `null` next to a value.
- `text.dfy` (`Text`): joining with a separator, splitting, and the text
  after a character, with their round trips.
- `query.dfy` (`Query`): `http_build_query` on a flat array of string pairs.
  The URL escaping is a function parameter. A reference decoder is proved
  to recover the array.
- `congress.dfy` (`Congress`): the client as an immutable datatype, the
  path template, the 29 endpoints and `PrepareUri`. Each endpoint returns
  the path and parameter array it hands to the transfer routine.
- `properties.dfy` (`CongressProperties`): the base-URI facts, the
  template's read-back, the district rule, the `&` rule and worked examples.

The PHP fields are assigned once, in the constructor, and no method writes
them again, so the client is a datatype and `uri` is a constant computed
from the version. Every endpoint states its path as `Path(segments)`: the
base URI, each segment after a `/`, then `.` and the format.
`CongressProperties.SegmentsOfPath` shows that the segments can be read
back from the path, so that statement pins the path down exactly.

## Model

| member | source | states |
|---|---|---|
| CongressProperties.ConstructorFixesBaseUri | NYTimesCongress.php:15-21 | the base URI is exactly `http://api.nytimes.com/svc/politics/` + version + `/us/legislative/congress`, the version can be read back from it, and the format defaults to `xml` |
| CongressProperties.BaseUriDeterminesVersion | NYTimesCongress.php:20 | two clients have the same base URI if and only if they have the same API version |
| CongressProperties.PathShape | NYTimesCongress.php:30-352 | every templated resource path starts with the base URI and `/` and ends with `.` and the format |
| CongressProperties.SegmentsOfPath | NYTimesCongress.php:30-352 | the `/`-free segments a path was built from can be read back from it |
| CongressProperties.PathInjective | NYTimesCongress.php:30-352 | two lists of `/`-free segments give the same path if and only if they are equal |
| CongressProperties.AmpersandInPath | NYTimesCongress.php:30-352 | a path contains `&` if and only if the version, the format or a segment does; the template adds none |
| Congress.Client.GetMembersLists | NYTimesCongress.php:30-33 | the path is the base URI followed by the segments congress, chamber, `members`; the caller's parameter array is forwarded unchanged |
| Congress.Client.GetCurrentMembersByStateDistrict | NYTimesCongress.php:60-65 | the path has the segments `members`, chamber, state, district, `current` when the chamber is `house` and the district differs from `''`; otherwise it has `members`, chamber, state, `current`; a null district counts as `''` |
| Congress.Client.GetMemberBio | NYTimesCongress.php:40-43 | the path is the base URI followed by the segments `members`, member id, then `.` and the format; no parameter array is passed on |
| Congress.Client.GetNewMembers | NYTimesCongress.php:48-51 | the path is the base URI followed by the segments `members`, `new`, then `.` and the format; no parameter array is passed on |
| Congress.Client.GetMembersLeavingOffice | NYTimesCongress.php:73-76 | the path is the base URI followed by the segments congress, chamber, `members`, `leaving`, then `.` and the format; no parameter array is passed on |
| Congress.Client.GetMembersVotePositions | NYTimesCongress.php:83-86 | the path is the base URI followed by the segments `members`, member id, `votes`, then `.` and the format; no parameter array is passed on |
| Congress.Client.GetMembersVoteComparison | NYTimesCongress.php:98-101 | the path is the base URI followed by the segments `members`, first id, `votes`, second id, congress, chamber, then `.` and the format; no parameter array is passed on |
| Congress.Client.GetMemberCosponsoredBills | NYTimesCongress.php:109-112 | the path is the base URI followed by the segments `members`, member id, `bills`, bill type, then `.` and the format; no parameter array is passed on |
| Congress.Client.GetMemberSponsorshipComparison | NYTimesCongress.php:122-125 | the path is the base URI followed by the segments `members`, first id, `bills`, second id, congress, chamber, then `.` and the format; no parameter array is passed on |
| Congress.Client.GetMemberFloorAppearances | NYTimesCongress.php:132-135 | the path is the base URI followed by the segments `members`, member id, `floor_appearances`, then `.` and the format; no parameter array is passed on |
| Congress.Client.GetRollCallVotes | NYTimesCongress.php:145-148 | the path is the base URI followed by the segments congress, chamber, `sessions`, session, `votes`, roll-call number, then `.` and the format; no parameter array is passed on |
| Congress.Client.GetVotesByType | NYTimesCongress.php:157-160 | the path is the base URI followed by the segments congress, chamber, `votes`, vote type, then `.` and the format; no parameter array is passed on |
| Congress.Client.GetVotesByMonth | NYTimesCongress.php:169-172 | the path is the base URI followed by the segments chamber, `votes`, year, month, then `.` and the format; no parameter array is passed on |
| Congress.Client.GetVotesByDateRange | NYTimesCongress.php:181-184 | the path is the base URI followed by the segments chamber, `votes`, start date, end date, then `.` and the format; no parameter array is passed on |
| Congress.Client.GetNominationVotes | NYTimesCongress.php:192-195 | the path is the base URI followed by the segments congress, `nominations`, then `.` and the format; no parameter array is passed on |
| Congress.Client.GetRecentBills | NYTimesCongress.php:206-209 | the path is the base URI followed by the segments congress, chamber, `bills`, bill type, then `.` and the format; no parameter array is passed on |
| Congress.Client.GetBillsByMember | NYTimesCongress.php:218-221 | the path is the base URI followed by the segments `members`, member id, `bills`, bill type, then `.` and the format; no parameter array is passed on |
| Congress.Client.GetBillDetails | NYTimesCongress.php:229-232 | the path is the base URI followed by the segments congress, `bills`, bill id, then `.` and the format; no parameter array is passed on |
| Congress.Client.GetBillSubjects | NYTimesCongress.php:240-243 | the path is the base URI followed by the segments congress, `bills`, bill id, `subjects`, then `.` and the format; no parameter array is passed on |
| Congress.Client.GetBillAmendments | NYTimesCongress.php:251-254 | the path is the base URI followed by the segments congress, `bills`, bill id, `amendments`, then `.` and the format; no parameter array is passed on |
| Congress.Client.GetRelatedBills | NYTimesCongress.php:262-265 | the path is the base URI followed by the segments congress, `bills`, bill id, `related`, then `.` and the format; no parameter array is passed on |
| Congress.Client.GetBillCosponsors | NYTimesCongress.php:273-276 | the path is the base URI followed by the segments congress, `bills`, bill id, `cosponsors`, then `.` and the format; no parameter array is passed on |
| Congress.Client.GetNomineeLists | NYTimesCongress.php:284-287 | the path is the base URI followed by the segments congress, `nominees`, category, then `.` and the format; no parameter array is passed on |
| Congress.Client.GetNomineeDetails | NYTimesCongress.php:295-298 | the path is the base URI followed by the segments congress, `nominees`, nominee id, then `.` and the format; no parameter array is passed on |
| Congress.Client.GetNomineesByState | NYTimesCongress.php:306-309 | the path is the base URI followed by the segments congress, `nominees`, `state`, state, then `.` and the format; no parameter array is passed on |
| Congress.Client.GetStatePartyCounts | NYTimesCongress.php:314-317 | the path is the base URI followed by the segments `states`, `members`, `party`, then `.` and the format; no parameter array is passed on |
| Congress.Client.GetCommittees | NYTimesCongress.php:325-328 | the path is the base URI followed by the segments congress, chamber, `committees`, then `.` and the format; no parameter array is passed on |
| Congress.Client.GetCommitteeMembers | NYTimesCongress.php:337-340 | the path is the base URI followed by the segments congress, chamber, `committees`, committee id, then `.` and the format; no parameter array is passed on |
| Congress.Client.GetChamberSchedule | NYTimesCongress.php:349-352 | the path is the base URI followed by the segments chamber, `schedule`, then `.` and the format; no parameter array is passed on |
| CongressProperties.DistrictSegmentRule | NYTimesCongress.php:62-64 | for `/`-free arguments, the path read back has five segments if and only if the chamber is `house` and the district differs from `''`, and the segments are exactly the two lists above |
| CongressProperties.SenateIgnoresDistrict | NYTimesCongress.php:62 | for the Senate, any district gives the same request as no district |
| CongressProperties.EmptyDistrictIsNoDistrict | NYTimesCongress.php:60-62 | an empty district gives the same request as a null one, for every chamber |
| CongressProperties.CosponsoredBillsAreBillsByMember | NYTimesCongress.php:109-112 | cosponsored bills and bills by member give the same request for the same arguments |
| CongressProperties.SenateDistrictExample | NYTimesCongress.php:60-65 | the Senate in CA with district 5 gets `/members/senate/CA/current.` and the format |
| CongressProperties.HouseDistrictExample | NYTimesCongress.php:60-65 | the House in CA with district 5 gets `/members/house/CA/5/current.` and the format |
| CongressProperties.HouseEmptyDistrictExample | NYTimesCongress.php:60-65 | the House in CA with district `''` gets `/members/house/CA/current.` and the format |
| Congress.Client.PrepareUri | NYTimesCongress.php:357-366 | the URI starts with the path and `?api-key=` and the key; it is exactly that when the parameters are null or empty, and that plus `&` and the built query otherwise; it contains `&` if and only if the path or the key does or there are parameters |
| CongressProperties.QueryFieldsOfPreparedUri | NYTimesCongress.php:359-365 | after the `?`, the `&`-separated fields are `api-key=` with the key, then one `key=value` field per parameter, in order, and nothing more |
| CongressProperties.NoAmpersandWithoutParams | NYTimesCongress.php:40-352 | an endpoint that passes no parameters yields a URI with `&` only if the key, version, format or one of the caller's identifiers has one |
| CongressProperties.MemberBioExample | NYTimesCongress.php:40-43 | member 400180, version v3, json: the URI is the base URI, `/members/400180.json?api-key=KEY` |
| CongressProperties.StateDistrictQueryExample | NYTimesCongress.php:362 | the parameters state NY and district 10 build the query `state=NY&district=10` |
| CongressProperties.MembersListPathExample | NYTimesCongress.php:30-33 | the member list of the 111th House is the base URI, `/111/house/members.` and the format |
| CongressProperties.MembersListQueryExample | NYTimesCongress.php:30-33 | the 111th House filtered by state NY and district 10 gets `?api-key=`, the key and `&state=NY&district=10` after its path |
| Query.BuildQuery | NYTimesCongress.php:362 | the query is empty exactly when the parameter array is empty; otherwise it starts with the first entry's escaped key, `=` and escaped value, and for a single entry it is just that field |
| Query.BuildQueryCons | NYTimesCongress.php:362 | with several entries, the query is the first entry's field, `&`, then the query of the remaining entries, so the entries appear in array order |
| Query.SplitQuery | NYTimesCongress.php:362 | splitting the built query on `&` gives one `key=value` field per parameter, in order, when the escaping emits no `&` or `=` |
| Query.DecodeBuildQuery | NYTimesCongress.php:362 | decoding the built query with an inverse of the escaping gives back the parameter array, entry for entry |
| Text.SplitJoin | NYTimesCongress.php:362 | splitting a `&`-joined list of separator-free parts gives the parts back |
| Text.JoinSplit | NYTimesCongress.php:362 | joining the pieces of a split gives the original text back |

## Left out

- `_serviceCall` (NYTimesCongress.php:374-396) is not modelled. It does the
  network transfer through curl or `file_get_contents` and returns the
  response body. An endpoint here returns the `Request` it would hand to
  that routine, and `PrepareUri` gives the URI it would fetch.
- Response bodies and their XML or JSON content are not modelled. The client
  does not parse them.
- PHP's percent-encoding inside `http_build_query` is not modelled. The
  escaping is a parameter. The properties that depend on it assume only
  that it emits no `&` or `=`, and, for decoding, that it has an inverse.
- The parameter array is modelled as a sequence of string pairs.
  `http_build_query`'s handling of nested arrays, null values, numeric keys
  and its own separator setting is not modelled, nor are duplicate keys,
  which a PHP array cannot hold.
- Identifiers are strings. PHP also accepts integers and booleans, and
  concatenation turns them into text: decimal digits, `1` for `true`, the
  empty string for `false`. The model takes that text as the argument,
  which matches PHP wherever the value is only concatenated. The one place
  the code compares arguments is covered in the next line. The client
  validates nothing, and neither does the model.
- `Congress.Client.GetCurrentMembersByStateDistrict` takes the chamber as a
  string and the district as an optional string. It compares them with
  string equality. The comparisons at NYTimesCongress.php:62 are loose, and
  the model does not capture what that does for non-string arguments:
  - a boolean `true` chamber compares equal to `'house'` in every PHP
    version;
  - under PHP 7, an integer `0` chamber also compares equal to `'house'`,
    so `(0, 'CA', '5')` gets a district segment;
  - under PHP 7, an integer `0` district compares equal to `''`, so it gets
    no segment.
- `uri` is not a declared property of the PHP class, so PHP creates it as a
  public property that outside code could reassign. The model assumes
  nobody does, as the class itself never does.

## Notes

- The base URI uses `http://api.nytimes.com/svc/politics/` (NYTimesCongress.php:20).
- The format is any string. The client pastes it after the `.` of every
  path and does not restrict it to `xml` or `json`.
- The constructor (NYTimesCongress.php:15-21) checks nothing, so any key
  and any version make a client.
- The class has 29 `get*` methods, and all of them are modelled.
