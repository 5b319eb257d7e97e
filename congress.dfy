/**
 * The URL-construction layer of the NY Times Congress API client: the client
 * configuration fixed at construction, the catalog of resource paths (one
 * function per endpoint method of the client) and the assembly of the final
 * request URI with the API key and optional query parameters.
 *
 * An endpoint method of the client hands a resource path and (for one
 * endpoint) a parameter array to the transfer routine; here each endpoint
 * returns that pair as a `Request`, and `PrepareUri` gives the URI the
 * transfer routine fetches for it.
 */
module Congress {
  import opened Optional
  import opened Text
  import opened Query

  /** The fixed text before and after the API version in the base URI. */
  const ApiRoot: string := "http://api.nytimes.com/svc/politics/"
  const CongressRoot: string := "/us/legislative/congress"

  /** What an endpoint hands to the transfer routine: a resource path and the caller's parameter array, or null. */
  datatype Request = Request(path: string, params: Option<seq<Pair>>)

  /** Each segment preceded by a `/`, in order. */
  function Slashed(segments: seq<string>): string
  {
    if |segments| == 0 then "" else Slashed(segments[..|segments| - 1]) + "/" + segments[|segments| - 1]
  }

  /** The segments of a non-empty path are the parts of its `/`-join. */
  lemma {:induction false} SlashedIsJoin(segments: seq<string>)
    requires |segments| > 0
    ensures Slashed(segments) == "/" + Join('/', segments)
    decreases |segments|
  {
    var init, last := segments[..|segments| - 1], segments[|segments| - 1];
    if |segments| == 1 {
      assert init == [];
    } else {
      SlashedIsJoin(init);
      JoinSnoc('/', init, last);
      assert init + [last] == segments;
    }
  }

  /** `Slashed` written out for the segment counts of the catalog. */
  lemma {:induction false} SlashedSpelledOut(s: seq<string>)
    requires |s| <= 6
    ensures |s| == 1 ==> Slashed(s) == "/" + s[0]
    ensures |s| == 2 ==> Slashed(s) == "/" + s[0] + "/" + s[1]
    ensures |s| == 3 ==> Slashed(s) == "/" + s[0] + "/" + s[1] + "/" + s[2]
    ensures |s| == 4 ==> Slashed(s) == "/" + s[0] + "/" + s[1] + "/" + s[2] + "/" + s[3]
    ensures |s| == 5 ==> Slashed(s) == "/" + s[0] + "/" + s[1] + "/" + s[2] + "/" + s[3] + "/" + s[4]
    ensures |s| == 6 ==> Slashed(s) == "/" + s[0] + "/" + s[1] + "/" + s[2] + "/" + s[3] + "/" + s[4] + "/" + s[5]
    decreases |s|
  {
    if |s| > 0 {
      var init := s[..|s| - 1];
      SlashedSpelledOut(init);
      if |s| == 1 {
        assert init == [];
      }
    }
  }

  /** `is_array($params) && count($params) > 0`: there are extra query parameters to append. */
  predicate HasQuery(params: Option<seq<Pair>>)
  {
    params.Some? && |params.value| > 0
  }

  /**
   * `$district != ''` under PHP's loose comparison: a null district compares
   * equal to the empty string, so only a non-empty string differs from it.
   */
  predicate DiffersFromEmpty(district: Option<string>)
  {
    district.Some? && district.value != ""
  }

  /** The API version embedded in a base URI, if the text has the base URI's shape. */
  function ApiVersionOf(u: string): Option<string>
  {
    if |ApiRoot| + |CongressRoot| <= |u| && u[..|ApiRoot|] == ApiRoot && u[|u| - |CongressRoot|..] == CongressRoot
    then Some(u[|ApiRoot|..|u| - |CongressRoot|])
    else None
  }

  /**
   * The client. Key, version and format are set once, when the client is
   * made (the format defaults to "xml"), and so is the base URI `uri`, which
   * is computed from the version; nothing changes them afterwards.
   */
  datatype Client = Client(apikey: string, apiversion: string, format: string := "xml") {

    const uri: string := ApiRoot + apiversion + CongressRoot

    /** The resource-path template every endpoint follows: base URI, `/`-separated segments, `.` and the format. */
    function Path(segments: seq<string>): string
    {
      uri + Slashed(segments) + "." + format
    }

    /** The segments of a resource path, if it has the template's shape. */
    function Segments(path: string): Option<seq<string>>
    {
      var head, tail := uri + "/", "." + format;
      if |head| + |tail| <= |path| && path[..|head|] == head && path[|path| - |tail|..] == tail
      then Some(Split('/', path[|head|..|path| - |tail|]))
      else None
    }

    // ---------------------------------------------------------------------
    // Members

    function GetMembersLists(congress: string, chamber: string, params: Option<seq<Pair>> := None): (r: Request)
      ensures r.path == Path([congress, chamber, "members"])
      ensures r.params == params
    {
      SlashedSpelledOut([congress, chamber, "members"]);
      Request(uri + "/" + congress + "/" + chamber + "/members." + format, params)
    }

    function GetMemberBio(memberId: string): (r: Request)
      ensures r.path == Path(["members", memberId])
      ensures r.params == None
    {
      SlashedSpelledOut(["members", memberId]);
      Request(uri + "/members/" + memberId + "." + format, None)
    }

    function GetNewMembers(): (r: Request)
      ensures r.path == Path(["members", "new"])
      ensures r.params == None
    {
      SlashedSpelledOut(["members", "new"]);
      Request(uri + "/members/new." + format, None)
    }

    /**
     * The district becomes a segment only for the House and a district that
     * differs from '' (a null district does not).
     */
    function GetCurrentMembersByStateDistrict(chamber: string, state: string, district: Option<string> := None): (r: Request)
      ensures chamber == "house" && DiffersFromEmpty(district) ==> r.path == Path(["members", chamber, state, district.value, "current"])
      ensures !(chamber == "house" && DiffersFromEmpty(district)) ==> r.path == Path(["members", chamber, state, "current"])
      ensures r.params == None
    {
      var districtParam := if chamber == "house" && DiffersFromEmpty(district) then "/" + district.value else "";
      CurrentMembersWithDistrict(chamber, state, if district.Some? then district.value else "");
      CurrentMembersWithoutDistrict(chamber, state);
      Request(uri + "/members/" + chamber + "/" + state + districtParam + "/current." + format, None)
    }

    /** The current-members path with a district segment, matched against the template. */
    lemma CurrentMembersWithDistrict(chamber: string, state: string, district: string)
      ensures uri + "/members/" + chamber + "/" + state + ("/" + district) + "/current." + format
           == Path(["members", chamber, state, district, "current"])
    {
      SlashedSpelledOut(["members", chamber, state, district, "current"]);
    }

    /** The current-members path without a district segment, matched against the template. */
    lemma CurrentMembersWithoutDistrict(chamber: string, state: string)
      ensures uri + "/members/" + chamber + "/" + state + "" + "/current." + format
           == Path(["members", chamber, state, "current"])
    {
      SlashedSpelledOut(["members", chamber, state, "current"]);
    }

    function GetMembersLeavingOffice(congress: string, chamber: string): (r: Request)
      ensures r.path == Path([congress, chamber, "members", "leaving"])
      ensures r.params == None
    {
      SlashedSpelledOut([congress, chamber, "members", "leaving"]);
      Request(uri + "/" + congress + "/" + chamber + "/members/leaving." + format, None)
    }

    function GetMembersVotePositions(memberId: string): (r: Request)
      ensures r.path == Path(["members", memberId, "votes"])
      ensures r.params == None
    {
      SlashedSpelledOut(["members", memberId, "votes"]);
      Request(uri + "/members/" + memberId + "/votes." + format, None)
    }

    function GetMembersVoteComparison(firstMemberId: string, secondMemberId: string, congress: string, chamber: string): (r: Request)
      ensures r.path == Path(["members", firstMemberId, "votes", secondMemberId, congress, chamber])
      ensures r.params == None
    {
      SlashedSpelledOut(["members", firstMemberId, "votes", secondMemberId, congress, chamber]);
      Request(uri + "/members/" + firstMemberId + "/votes/" + secondMemberId + "/" + congress + "/" + chamber + "." + format, None)
    }

    function GetMemberCosponsoredBills(memberId: string, billType: string): (r: Request)
      ensures r.path == Path(["members", memberId, "bills", billType])
      ensures r.params == None
    {
      SlashedSpelledOut(["members", memberId, "bills", billType]);
      Request(uri + "/members/" + memberId + "/bills/" + billType + "." + format, None)
    }

    function GetMemberSponsorshipComparison(firstMemberId: string, secondMemberId: string, congress: string, chamber: string): (r: Request)
      ensures r.path == Path(["members", firstMemberId, "bills", secondMemberId, congress, chamber])
      ensures r.params == None
    {
      SlashedSpelledOut(["members", firstMemberId, "bills", secondMemberId, congress, chamber]);
      Request(uri + "/members/" + firstMemberId + "/bills/" + secondMemberId + "/" + congress + "/" + chamber + "." + format, None)
    }

    function GetMemberFloorAppearances(memberId: string): (r: Request)
      ensures r.path == Path(["members", memberId, "floor_appearances"])
      ensures r.params == None
    {
      SlashedSpelledOut(["members", memberId, "floor_appearances"]);
      Request(uri + "/members/" + memberId + "/floor_appearances." + format, None)
    }

    // ---------------------------------------------------------------------
    // Votes

    function GetRollCallVotes(congress: string, chamber: string, session: string, rollCall: string): (r: Request)
      ensures r.path == Path([congress, chamber, "sessions", session, "votes", rollCall])
      ensures r.params == None
    {
      SlashedSpelledOut([congress, chamber, "sessions", session, "votes", rollCall]);
      Request(uri + "/" + congress + "/" + chamber + "/sessions/" + session + "/votes/" + rollCall + "." + format, None)
    }

    function GetVotesByType(congress: string, chamber: string, voteType: string): (r: Request)
      ensures r.path == Path([congress, chamber, "votes", voteType])
      ensures r.params == None
    {
      SlashedSpelledOut([congress, chamber, "votes", voteType]);
      Request(uri + "/" + congress + "/" + chamber + "/votes/" + voteType + "." + format, None)
    }

    function GetVotesByMonth(chamber: string, year: string, month: string): (r: Request)
      ensures r.path == Path([chamber, "votes", year, month])
      ensures r.params == None
    {
      SlashedSpelledOut([chamber, "votes", year, month]);
      Request(uri + "/" + chamber + "/votes/" + year + "/" + month + "." + format, None)
    }

    function GetVotesByDateRange(chamber: string, startDate: string, endDate: string): (r: Request)
      ensures r.path == Path([chamber, "votes", startDate, endDate])
      ensures r.params == None
    {
      SlashedSpelledOut([chamber, "votes", startDate, endDate]);
      Request(uri + "/" + chamber + "/votes/" + startDate + "/" + endDate + "." + format, None)
    }

    function GetNominationVotes(congress: string): (r: Request)
      ensures r.path == Path([congress, "nominations"])
      ensures r.params == None
    {
      SlashedSpelledOut([congress, "nominations"]);
      Request(uri + "/" + congress + "/nominations." + format, None)
    }

    // ---------------------------------------------------------------------
    // Bills

    function GetRecentBills(congress: string, chamber: string, billType: string): (r: Request)
      ensures r.path == Path([congress, chamber, "bills", billType])
      ensures r.params == None
    {
      SlashedSpelledOut([congress, chamber, "bills", billType]);
      Request(uri + "/" + congress + "/" + chamber + "/bills/" + billType + "." + format, None)
    }

    function GetBillsByMember(memberId: string, billType: string): (r: Request)
      ensures r.path == Path(["members", memberId, "bills", billType])
      ensures r.params == None
    {
      SlashedSpelledOut(["members", memberId, "bills", billType]);
      Request(uri + "/members/" + memberId + "/bills/" + billType + "." + format, None)
    }

    function GetBillDetails(congress: string, billId: string): (r: Request)
      ensures r.path == Path([congress, "bills", billId])
      ensures r.params == None
    {
      SlashedSpelledOut([congress, "bills", billId]);
      Request(uri + "/" + congress + "/bills/" + billId + "." + format, None)
    }

    function GetBillSubjects(congress: string, billId: string): (r: Request)
      ensures r.path == Path([congress, "bills", billId, "subjects"])
      ensures r.params == None
    {
      SlashedSpelledOut([congress, "bills", billId, "subjects"]);
      Request(uri + "/" + congress + "/bills/" + billId + "/subjects." + format, None)
    }

    function GetBillAmendments(congress: string, billId: string): (r: Request)
      ensures r.path == Path([congress, "bills", billId, "amendments"])
      ensures r.params == None
    {
      SlashedSpelledOut([congress, "bills", billId, "amendments"]);
      Request(uri + "/" + congress + "/bills/" + billId + "/amendments." + format, None)
    }

    function GetRelatedBills(congress: string, billId: string): (r: Request)
      ensures r.path == Path([congress, "bills", billId, "related"])
      ensures r.params == None
    {
      SlashedSpelledOut([congress, "bills", billId, "related"]);
      Request(uri + "/" + congress + "/bills/" + billId + "/related." + format, None)
    }

    function GetBillCosponsors(congress: string, billId: string): (r: Request)
      ensures r.path == Path([congress, "bills", billId, "cosponsors"])
      ensures r.params == None
    {
      SlashedSpelledOut([congress, "bills", billId, "cosponsors"]);
      Request(uri + "/" + congress + "/bills/" + billId + "/cosponsors." + format, None)
    }

    // ---------------------------------------------------------------------
    // Nominees

    function GetNomineeLists(congress: string, category: string): (r: Request)
      ensures r.path == Path([congress, "nominees", category])
      ensures r.params == None
    {
      SlashedSpelledOut([congress, "nominees", category]);
      Request(uri + "/" + congress + "/nominees/" + category + "." + format, None)
    }

    function GetNomineeDetails(congress: string, nomineeId: string): (r: Request)
      ensures r.path == Path([congress, "nominees", nomineeId])
      ensures r.params == None
    {
      SlashedSpelledOut([congress, "nominees", nomineeId]);
      Request(uri + "/" + congress + "/nominees/" + nomineeId + "." + format, None)
    }

    function GetNomineesByState(congress: string, state: string): (r: Request)
      ensures r.path == Path([congress, "nominees", "state", state])
      ensures r.params == None
    {
      SlashedSpelledOut([congress, "nominees", "state", state]);
      Request(uri + "/" + congress + "/nominees/state/" + state + "." + format, None)
    }

    // ---------------------------------------------------------------------
    // States, committees, schedule

    function GetStatePartyCounts(): (r: Request)
      ensures r.path == Path(["states", "members", "party"])
      ensures r.params == None
    {
      SlashedSpelledOut(["states", "members", "party"]);
      Request(uri + "/states/members/party." + format, None)
    }

    function GetCommittees(congress: string, chamber: string): (r: Request)
      ensures r.path == Path([congress, chamber, "committees"])
      ensures r.params == None
    {
      SlashedSpelledOut([congress, chamber, "committees"]);
      Request(uri + "/" + congress + "/" + chamber + "/committees." + format, None)
    }

    function GetCommitteeMembers(congress: string, chamber: string, committeeId: string): (r: Request)
      ensures r.path == Path([congress, chamber, "committees", committeeId])
      ensures r.params == None
    {
      SlashedSpelledOut([congress, chamber, "committees", committeeId]);
      Request(uri + "/" + congress + "/" + chamber + "/committees/" + committeeId + "." + format, None)
    }

    function GetChamberSchedule(chamber: string): (r: Request)
      ensures r.path == Path([chamber, "schedule"])
      ensures r.params == None
    {
      SlashedSpelledOut([chamber, "schedule"]);
      Request(uri + "/" + chamber + "/schedule." + format, None)
    }

    // ---------------------------------------------------------------------
    // Request URI

    /**
     * The URI the transfer routine fetches: the path, `?api-key=` and the key
     * as given, then `&` and the built query only when there are parameters.
     */
    function PrepareUri(path: string, params: Option<seq<Pair>>, escape: string -> string): (r: string)
      ensures |path + "?api-key=" + apikey| <= |r| && r[..|path + "?api-key=" + apikey|] == path + "?api-key=" + apikey
      ensures !HasQuery(params) ==> r == path + "?api-key=" + apikey
      ensures HasQuery(params) ==> r == path + "?api-key=" + apikey + "&" + BuildQuery(params.value, escape)
      ensures '&' in r <==> '&' in path || '&' in apikey || HasQuery(params)
    {
      var querystring := if HasQuery(params) then "&" + BuildQuery(params.value, escape) else "";
      assert '&' !in "?api-key=";
      path + "?api-key=" + apikey + querystring
    }
  }
}
