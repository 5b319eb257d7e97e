/**
 * What the URL-construction layer guarantees: the base URI is fixed by the
 * API version, every catalog path follows one template from which its
 * segments can be read back, the district rule of the current-members
 * endpoint, and the shape of the final request URI.
 */
module CongressProperties {
  import opened Optional
  import opened Text
  import opened Query
  import opened Congress

  // -------------------------------------------------------------------------
  // Base URI

  /**
   * Making a client fixes the base URI from the version alone, and the version
   * can be read back from it; the format defaults to "xml".
   */
  lemma ConstructorFixesBaseUri(apikey: string, apiversion: string, format: string)
    ensures Client(apikey, apiversion, format).uri
         == "http://api.nytimes.com/svc/politics/" + apiversion + "/us/legislative/congress"
    ensures ApiVersionOf(Client(apikey, apiversion, format).uri) == Some(apiversion)
    ensures Client(apikey, apiversion).format == "xml"
  {
  }

  /** Two clients share a base URI exactly when they share an API version. */
  lemma BaseUriDeterminesVersion(c: Client, d: Client)
    ensures c.uri == d.uri <==> c.apiversion == d.apiversion
  {
    ConstructorFixesBaseUri(c.apikey, c.apiversion, c.format);
    ConstructorFixesBaseUri(d.apikey, d.apiversion, d.format);
  }

  // -------------------------------------------------------------------------
  // The path template

  /** Every templated path starts with the base URI and `/`, and ends with `.` and the format. */
  lemma PathShape(c: Client, segments: seq<string>)
    requires |segments| > 0
    ensures |c.uri| + 1 + 1 + |c.format| <= |c.Path(segments)|
    ensures c.Path(segments)[..|c.uri| + 1] == c.uri + "/"
    ensures c.Path(segments)[|c.Path(segments)| - |c.format| - 1..] == "." + c.format
  {
    SlashedIsJoin(segments);
    var p := c.Path(segments);
    assert p == (c.uri + "/") + Join('/', segments) + ("." + c.format);
  }

  /** Reading the segments back from a templated path gives the segments it was built from. */
  lemma SegmentsOfPath(c: Client, segments: seq<string>)
    requires |segments| > 0 && Free('/', segments)
    ensures c.Segments(c.Path(segments)) == Some(segments)
  {
    SlashedIsJoin(segments);
    var head, middle, tail := c.uri + "/", Join('/', segments), "." + c.format;
    var p := c.Path(segments);
    assert p == head + middle + tail;
    assert p[..|head|] == head;
    assert p[|p| - |tail|..] == tail;
    assert p[|head|..|p| - |tail|] == middle;
    SplitJoin('/', segments);
  }

  /** Different `/`-free segment lists never produce the same path. */
  lemma PathInjective(c: Client, s: seq<string>, t: seq<string>)
    requires |s| > 0 && Free('/', s) && |t| > 0 && Free('/', t)
    ensures c.Path(s) == c.Path(t) <==> s == t
  {
    SegmentsOfPath(c, s);
    SegmentsOfPath(c, t);
  }

  /**
   * A path contains `&` only if the version, the format or one of the
   * segments does: the template adds none.
   */
  lemma {:induction false} AmpersandInPath(c: Client, segments: seq<string>)
    ensures '&' in c.Path(segments) <==> '&' in c.apiversion || '&' in c.format || !Free('&', segments)
    decreases |segments|
  {
    assert '&' !in ApiRoot && '&' !in CongressRoot;
    if |segments| > 0 {
      var init, last := segments[..|segments| - 1], segments[|segments| - 1];
      AmpersandInPath(c, init);
      assert c.Path(segments) == c.uri + Slashed(init) + "/" + last + "." + c.format;
      assert c.Path(init) == c.uri + Slashed(init) + "." + c.format;
      assert !Free('&', segments) <==> !Free('&', init) || '&' in last by {
        assert segments == init + [last];
      }
    }
  }

  // -------------------------------------------------------------------------
  // The catalog

  /**
   * The district rule: the path of the current-members endpoint carries a
   * district segment exactly when the chamber is "house" and the district
   * differs from ''; otherwise it has the four segments members, chamber,
   * state, current.
   */
  lemma DistrictSegmentRule(c: Client, chamber: string, state: string, district: Option<string>)
    requires '/' !in chamber && '/' !in state && (district.Some? ==> '/' !in district.value)
    ensures var segments := c.Segments(c.GetCurrentMembersByStateDistrict(chamber, state, district).path);
      && segments.Some?
      && (|segments.value| == 5 <==> chamber == "house" && DiffersFromEmpty(district))
      && (|segments.value| == 5 ==> segments.value == ["members", chamber, state, district.value, "current"])
      && (|segments.value| != 5 ==> segments.value == ["members", chamber, state, "current"])
  {
    if chamber == "house" && DiffersFromEmpty(district) {
      SegmentsOfPath(c, ["members", chamber, state, district.value, "current"]);
    } else {
      SegmentsOfPath(c, ["members", chamber, state, "current"]);
    }
  }

  /** The Senate never gets a district segment, whatever district is given. */
  lemma SenateIgnoresDistrict(c: Client, state: string, district: Option<string>)
    ensures c.GetCurrentMembersByStateDistrict("senate", state, district)
         == c.GetCurrentMembersByStateDistrict("senate", state)
  {
  }

  /** An empty district is the same as no district at all (PHP's `null == ''`). */
  lemma EmptyDistrictIsNoDistrict(c: Client, chamber: string, state: string)
    ensures c.GetCurrentMembersByStateDistrict(chamber, state, Some(""))
         == c.GetCurrentMembersByStateDistrict(chamber, state, None)
  {
  }

  /** Cosponsored bills and bills by member are one resource under two names. */
  lemma CosponsoredBillsAreBillsByMember(c: Client, memberId: string, billType: string)
    ensures c.GetMemberCosponsoredBills(memberId, billType) == c.GetBillsByMember(memberId, billType)
  {
  }

  /**
   * The URI of an endpoint that forwards no parameters (every endpoint but
   * the member list) has no `&` unless the key, the version, the format or
   * one of the caller's identifiers has one.
   */
  lemma NoAmpersandWithoutParams(c: Client, segments: seq<string>, escape: string -> string)
    ensures '&' in c.PrepareUri(c.Path(segments), None, escape)
        <==> '&' in c.apikey || '&' in c.apiversion || '&' in c.format || !Free('&', segments)
  {
    AmpersandInPath(c, segments);
  }

  // -------------------------------------------------------------------------
  // The request URI

  /**
   * After the first `?` of the request URI come `&`-separated fields: first
   * `api-key=` with the key, then one field per parameter, in order, and
   * nothing else.
   */
  lemma QueryFieldsOfPreparedUri(c: Client, path: string, params: Option<seq<Pair>>, escape: string -> string)
    requires '?' !in path && '&' !in c.apikey && Delimiting(escape)
    ensures Split('&', After('?', c.PrepareUri(path, params, escape)))
         == ["api-key=" + c.apikey] + (if HasQuery(params) then Fields(params.value, escape) else [])
  {
    var key := "api-key=" + c.apikey;
    assert '&' !in key by {
      assert '&' !in "api-key=";
    }
    if HasQuery(params) {
      var query := BuildQuery(params.value, escape);
      assert c.PrepareUri(path, params, escape) == path + ['?'] + (key + "&" + query);
      FieldsAfterKey(path, key, query);
      SplitQuery(params.value, escape);
    } else {
      assert c.PrepareUri(path, params, escape) == path + ['?'] + key;
      KeyFieldAlone(path, key);
    }
  }

  /** The fields after the `?` when a query follows the key field. */
  lemma FieldsAfterKey(path: string, key: string, query: string)
    requires '?' !in path && '&' !in key
    ensures Split('&', After('?', path + ['?'] + (key + "&" + query))) == [key] + Split('&', query)
  {
    AfterPrefix('?', path, key + "&" + query);
    SplitAtSeparator('&', key, query);
  }

  /** The fields after the `?` when the key field is all there is. */
  lemma KeyFieldAlone(path: string, key: string)
    requires '?' !in path && '&' !in key
    ensures Split('&', After('?', path + ['?'] + key)) == [key]
  {
    AfterPrefix('?', path, key);
    SplitAppend('&', key, "");
    assert key + "" == key;
  }

  // -------------------------------------------------------------------------
  // Worked examples

  /** The biography of member 400180 under version v3, as json. */
  lemma MemberBioExample(escape: string -> string)
    ensures var c := Client("KEY", "v3", "json");
      c.PrepareUri(c.GetMemberBio("400180").path, c.GetMemberBio("400180").params, escape)
      == ApiRoot + "v3" + CongressRoot + "/members/400180.json?api-key=KEY"
  {
  }

  /** The Senate's current members: the district is dropped. */
  lemma SenateDistrictExample(c: Client)
    ensures c.GetCurrentMembersByStateDistrict("senate", "CA", Some("5")).path
         == c.uri + "/members/senate/CA/current." + c.format
  {
  }

  /** The House's current members for district 5 of California. */
  lemma HouseDistrictExample(c: Client)
    ensures c.GetCurrentMembersByStateDistrict("house", "CA", Some("5")).path
         == c.uri + "/members/house/CA/5/current." + c.format
  {
  }

  /** The House with an empty district: no district segment. */
  lemma HouseEmptyDistrictExample(c: Client)
    ensures c.GetCurrentMembersByStateDistrict("house", "CA", Some("")).path
         == c.uri + "/members/house/CA/current." + c.format
  {
  }

  /** The query string of a state and a district filter, under an escaping that leaves their letters and digits alone. */
  lemma StateDistrictQueryExample(escape: string -> string)
    requires escape("state") == "state" && escape("NY") == "NY"
    requires escape("district") == "district" && escape("10") == "10"
    ensures BuildQuery([Pair("state", "NY"), Pair("district", "10")], escape) == "state=NY&district=10"
  {
    var fields := Fields([Pair("state", "NY"), Pair("district", "10")], escape);
    assert fields[0] == "state" + "=" + "NY" == "state=NY";
    assert fields[1] == "district" + "=" + "10" == "district=10";
    assert fields[1..] == ["district=10"];
    assert Join('&', fields[1..]) == "district=10";
  }

  /** The member list of the 111th House. */
  lemma MembersListPathExample(c: Client, params: Option<seq<Pair>>)
    ensures c.GetMembersLists("111", "house", params).path == c.uri + "/111/house/members." + c.format
  {
  }

  /** A member list filtered by state and district: the filters follow the key. */
  lemma MembersListQueryExample(c: Client, escape: string -> string)
    requires escape("state") == "state" && escape("NY") == "NY"
    requires escape("district") == "district" && escape("10") == "10"
    ensures var r := c.GetMembersLists("111", "house", Some([Pair("state", "NY"), Pair("district", "10")]));
      c.PrepareUri(r.path, r.params, escape)
      == c.uri + "/111/house/members." + c.format + "?api-key=" + c.apikey + "&state=NY&district=10"
  {
    var ps := [Pair("state", "NY"), Pair("district", "10")];
    StateDistrictQueryExample(escape);
    MembersListPathExample(c, Some(ps));
    var path := c.uri + "/111/house/members." + c.format;
    var query := BuildQuery(ps, escape);
    assert "&" + query == "&state=NY&district=10";
    assert c.PrepareUri(path, Some(ps), escape) == path + "?api-key=" + c.apikey + ("&" + query);
  }
}
