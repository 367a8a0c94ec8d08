/** The query string `getLeads` in src/lib/api.ts builds from its optional filters. */
module LeadsQuery {
  import opened Wrappers
  import opened Seqs
  import opened Strings

  // ---------------------------------------------------------------------------
  // getLeads
  // ---------------------------------------------------------------------------

  /** The optional filters of `getLeads`. Only integral limits are modelled. */
  datatype LeadFilters = LeadFilters(
    start_date: Option<string>,
    end_date: Option<string>,
    status: Option<string>,
    advogado_id: Option<string>,
    limit: Option<int>)

  /** The order in which `getLeads` appends its parameters. */
  const ParamOrder: seq<string> := ["start_date", "end_date", "status", "advogado_id", "limit"]

  /** The text a string filter contributes: "" when it is unset. */
  function Text(v: Option<string>): string
  {
    if v.Some? then v.value else ""
  }

  /** The text the limit contributes: its decimal form, "" when it is unset or 0. */
  function LimitText(v: Option<int>): string
  {
    if v.Some? && v.value != 0 then IntToString(v.value) else ""
  }

  /** Every parameter name, in `ParamOrder`, paired with its filter's text. */
  function CandidateParams(filters: Option<LeadFilters>): (c: seq<(string, string)>)
    ensures |c| == |ParamOrder| && forall i :: 0 <= i < |c| ==> c[i].0 == ParamOrder[i]
  {
    match filters
    case None => [("start_date", ""), ("end_date", ""), ("status", ""), ("advogado_id", ""), ("limit", "")]
    case Some(f) =>
      [ ("start_date", Text(f.start_date)), ("end_date", Text(f.end_date)), ("status", Text(f.status)),
        ("advogado_id", Text(f.advogado_id)), ("limit", LimitText(f.limit)) ]
  }

  /** Keeps a parameter when its text is non-empty. */
  predicate IsSent(p: (string, string))
  {
    p.1 != ""
  }

  function Sent(p: (string, string)): seq<(string, string)>
  {
    if IsSent(p) then [p] else []
  }

  lemma FilterFive(a: (string, string), b: (string, string), c: (string, string), d: (string, string), e: (string, string))
    ensures Filter([a, b, c, d, e], IsSent) == Sent(a) + (Sent(b) + (Sent(c) + (Sent(d) + Sent(e))))
  {
    FilterCons(e, [], IsSent);
    FilterCons(d, [e], IsSent);
    FilterCons(c, [d, e], IsSent);
    FilterCons(b, [c, d, e], IsSent);
    FilterCons(a, [b, c, d, e], IsSent);
    assert [a] + [b, c, d, e] == [a, b, c, d, e];
    assert [b] + [c, d, e] == [b, c, d, e];
    assert [c] + [d, e] == [c, d, e];
    assert [d] + [e] == [d, e];
    assert [e] + [] == [e];
  }

  /** The parameters that are sent: the candidates whose text is non-empty. */
  function SelectedParams(filters: Option<LeadFilters>): seq<(string, string)>
  {
    Filter(CandidateParams(filters), IsSent)
  }

  /** The candidates up to `k`, filtered, extended by candidate `k`. */
  lemma SentStep(c: seq<(string, string)>, k: nat)
    requires k < |c|
    ensures Filter(c[..k + 1], IsSent) == Filter(c[..k], IsSent) + Sent(c[k])
  {
    assert c[..k + 1] == c[..k] + [c[k]];
    FilterSnoc(c[..k], c[k], IsSent);
  }

  /** `if (value) params.append(key, value)` */
  method AppendIfPresent(params: seq<(string, string)>, key: string, value: Option<string>)
    returns (r: seq<(string, string)>)
    ensures r == params + Sent((key, Text(value)))
  {
    if Present(value) {
      r := params + [(key, value.value)];
    } else {
      r := params;
    }
  }

  /** `if (limit) params.append('limit', limit.toString())` */
  method AppendLimit(params: seq<(string, string)>, limit: Option<int>)
    returns (r: seq<(string, string)>)
    ensures r == params + Sent(("limit", LimitText(limit)))
  {
    if limit.Some? && limit.value != 0 {
      r := params + [("limit", IntToString(limit.value))];
    } else {
      r := params;
    }
  }

  /** The `params.append` sequence of `getLeads`. */
  method LeadsQueryParams(filters: Option<LeadFilters>) returns (params: seq<(string, string)>)
    ensures params == SelectedParams(filters)
  {
    ghost var c := CandidateParams(filters);
    if filters.Some? {
      var f := filters.value;
      assert c[..0] == [];
      SentStep(c, 0);
      params := AppendIfPresent([], "start_date", f.start_date);
      SentStep(c, 1);
      params := AppendIfPresent(params, "end_date", f.end_date);
      SentStep(c, 2);
      params := AppendIfPresent(params, "status", f.status);
      SentStep(c, 3);
      params := AppendIfPresent(params, "advogado_id", f.advogado_id);
      SentStep(c, 4);
      params := AppendLimit(params, f.limit);
      assert c[..5] == c;
    } else {
      params := [];
      FilterFive(c[0], c[1], c[2], c[3], c[4]);
      assert c == [c[0], c[1], c[2], c[3], c[4]];
    }
  }

  /** `params.toString()`, given the form encoder. */
  function QueryString(params: seq<(string, string)>, encode: string -> string): string
  {
    Join(seq(|params|, i requires 0 <= i < |params| => encode(params[i].0) + "=" + encode(params[i].1)), "&")
  }

  /** The endpoint `getLeads` requests. */
  function LeadsEndpoint(params: seq<(string, string)>, encode: string -> string): string
  {
    var qs := QueryString(params, encode);
    "/api/analytics/leads" + (if qs != "" then "?" + qs else "")
  }


  lemma {:induction false} JoinNonEmpty(parts: seq<string>, sep: string)
    requires |parts| > 0 && parts[0] != ""
    ensures Join(parts, sep) != ""
  {
    if |parts| > 1 {
      assert (parts[0] + sep + Join(parts[1..], sep))[0] == parts[0][0];
    }
  }

  /** The endpoint carries a `?` exactly when some parameter is sent. */
  lemma NoQueryWithoutParams(params: seq<(string, string)>, encode: string -> string)
    ensures LeadsEndpoint(params, encode) == "/api/analytics/leads" <==> params == []
  {
    if params != [] {
      var parts := seq(|params|, i requires 0 <= i < |params| => encode(params[i].0) + "=" + encode(params[i].1));
      assert '=' in parts[0];
      JoinNonEmpty(parts, "&");
      assert |LeadsEndpoint(params, encode)| > |"/api/analytics/leads"|;
    }
  }

  /**
   * The parameters sent are the candidates, in `ParamOrder`, whose filter is set: a name
   * is present iff its filter is truthy, and then with that filter's text.
   */
  lemma {:induction false} SelectedParamsSpec(filters: Option<LeadFilters>)
    ensures IsSubsequence(SelectedParams(filters), CandidateParams(filters))
    ensures forall p: (string, string) :: p in SelectedParams(filters) <==> p in CandidateParams(filters) && p.1 != ""
    ensures |SelectedParams(filters)| <= |ParamOrder|
  {
    var c := CandidateParams(filters);
    FilterSubsequence(c, IsSent);
    FilterMembers(c, IsSent);
    FilterLength(c, IsSent);
  }

  /** With no filters, or only falsy ones, the bare path is requested. */
  lemma UnsetFiltersSendNoQuery(encode: string -> string)
    ensures LeadsEndpoint(SelectedParams(None), encode) == "/api/analytics/leads"
    ensures LeadsEndpoint(SelectedParams(Some(LeadFilters(Some(""), None, Some(""), None, Some(0)))), encode)
         == "/api/analytics/leads"
  {
    var c := CandidateParams(None);
    FilterFive(c[0], c[1], c[2], c[3], c[4]);
    assert c == [c[0], c[1], c[2], c[3], c[4]];
    var c' := CandidateParams(Some(LeadFilters(Some(""), None, Some(""), None, Some(0))));
    FilterFive(c'[0], c'[1], c'[2], c'[3], c'[4]);
    assert c' == [c'[0], c'[1], c'[2], c'[3], c'[4]];
  }

  /** `getLeads({status: "Novo", limit: 10})` sends exactly `status` and `limit`, in that order. */
  lemma StatusAndLimitParams()
    ensures SelectedParams(Some(LeadFilters(None, None, Some("Novo"), None, Some(10))))
         == [("status", "Novo"), ("limit", "10")]
  {
    var f := Some(LeadFilters(None, None, Some("Novo"), None, Some(10)));
    assert NatToString(10) == "10" by {
      assert NatToString(10) == NatToString(1) + [DigitChar(0)];
    }
    var c := CandidateParams(f);
    assert c == [("start_date", ""), ("end_date", ""), ("status", "Novo"), ("advogado_id", ""), ("limit", "10")];
    FilterFive(c[0], c[1], c[2], c[3], c[4]);
  }

  /** ... and so requests `?status=Novo&limit=10`. */
  lemma StatusAndLimitScenario(encode: string -> string)
    requires forall s :: s in ["status", "limit", "Novo", "10"] ==> encode(s) == s
    ensures LeadsEndpoint(SelectedParams(Some(LeadFilters(None, None, Some("Novo"), None, Some(10)))), encode)
         == "/api/analytics/leads" + "?" + "status=Novo" + "&" + "limit=10"
  {
    StatusAndLimitParams();
    var params := SelectedParams(Some(LeadFilters(None, None, Some("Novo"), None, Some(10))));
    assert params[0] == ("status", "Novo") && params[1] == ("limit", "10");
    assert encode("status") == "status" && encode("Novo") == "Novo";
    assert encode("limit") == "limit" && encode("10") == "10";
    var parts := seq(|params|, i requires 0 <= i < |params| => encode(params[i].0) + "=" + encode(params[i].1));
    assert |parts| == 2;
    assert parts[0] == "status" + "=" + "Novo";
    assert parts[1] == "limit" + "=" + "10";
    assert parts[1..] == ["limit" + "=" + "10"];
    assert Join(parts[1..], "&") == "limit=10";
    assert Join(parts, "&") == "status=Novo" + "&" + "limit=10";
  }

}
