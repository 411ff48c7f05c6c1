/** What the account client's requests hold, stated on `RequestFor`: which parameters a
    query carries and in which order, how a path reads back, which call posts and what
    it posts. */
module AccountProperties {
  import opened Common
  import opened Text
  import opened Queries
  import opened AccountApi

  /** A key written into a query holds none of the characters that delimit one. */
  predicate Delimiterless(k: string)
  {
    '&' !in k && '=' !in k && '?' !in k
  }

  lemma CallKeysDelimiterless(c: Call)
    ensures forall i :: 0 <= i < |FixedParams(c)| ==> Delimiterless(FixedParams(c)[i].0)
    ensures forall i :: 0 <= i < |Filters(c)| ==> Delimiterless(Filters(c)[i].0)
  {
  }

  /** A call sends a pair exactly when it is one of its fixed parameters or one of its
      filters supplied with that value. */
  lemma ParamsMember(c: Call, k: string, v: string)
    ensures (k, v) in Params(c) <==> (k, v) in FixedParams(c) || (k, Some(v)) in Filters(c)
  {
    SuppliedMember(Filters(c), k, v);
  }

  /** Every key a call sends holds no `&`, `=` or `?`. */
  lemma ParamsDelimiterless(c: Call)
    ensures forall i :: 0 <= i < |Params(c)| ==> Delimiterless(Params(c)[i].0)
  {
    CallKeysDelimiterless(c);
    forall i | 0 <= i < |Params(c)|
      ensures Delimiterless(Params(c)[i].0)
    {
      var p := Params(c)[i];
      ParamsMember(c, p.0, p.1);
    }
  }

  lemma EndpointPathWithout(prefix: string, c: Call, ch: char)
    requires ch == '?' || ch == '&'
    requires ch !in prefix
    ensures ch !in EndpointPath(prefix, c)
  {
  }

  /** Reading a request's path back yields the endpoint path and exactly the parameters
      the call sends, in order, provided no value holds `&` (values are sent verbatim). */
  lemma RequestRoundTrip(prefix: string, c: Call)
    requires '?' !in prefix
    requires ValuesWithout(Params(c), '&')
    ensures ParsePath(RequestFor(prefix, c).path) == (EndpointPath(prefix, c), Params(c))
  {
    EndpointPathWithout(prefix, c, '?');
    ParamsDelimiterless(c);
    ParseWithQuery(EndpointPath(prefix, c), Params(c));
  }

  /** A path with k parameters holds one `?`, and one without parameters holds none,
      when neither the prefix nor any value holds `?`. */
  lemma RequestQuestionMarks(prefix: string, c: Call)
    requires '?' !in prefix
    requires ValuesWithout(Params(c), '?')
    ensures Count('?', RequestFor(prefix, c).path) == if Params(c) == [] then 0 else 1
  {
    EndpointPathWithout(prefix, c, '?');
    ParamsDelimiterless(c);
    QuestionMarkCount(EndpointPath(prefix, c), Params(c));
  }

  /** A path with k parameters holds k - 1 `&`, and one without parameters holds none,
      when neither the prefix nor any value holds `&`. */
  lemma RequestAmpersands(prefix: string, c: Call)
    requires '&' !in prefix
    requires ValuesWithout(Params(c), '&')
    ensures Count('&', RequestFor(prefix, c).path) == if Params(c) == [] then 0 else |Params(c)| - 1
  {
    var base := EndpointPath(prefix, c);
    EndpointPathWithout(prefix, c, '&');
    if Params(c) == [] {
      CountAbsent('&', base);
    } else {
      ParamsDelimiterless(c);
      SeparatorCount(base, Params(c));
    }
  }

  /** The `get_positions` query carries exactly the supplied filters under `instType`,
      `instId` and `posId`, in that order, one parameter per supplied filter. */
  lemma PositionsQuery(instType: Option<string>, instId: Option<string>, posId: Option<string>,
                       k: string, v: string)
    ensures (k, v) in Params(PositionsCall(instType, instId, posId)) <==>
            (k == "instType" && instType == Some(v)) || (k == "instId" && instId == Some(v)) ||
            (k == "posId" && posId == Some(v))
    ensures IsSubsequence(Keys(Params(PositionsCall(instType, instId, posId))),
                          ["instType", "instId", "posId"])
    ensures |Params(PositionsCall(instType, instId, posId))| ==
            (if instType.Some? then 1 else 0) + (if instId.Some? then 1 else 0) +
            (if posId.Some? then 1 else 0)
  {
    var c := PositionsCall(instType, instId, posId);
    ParamsMember(c, k, v);
    SuppliedOrder(Filters(c));
    assert Params(c) == Supplied(Filters(c));
    assert FilterKeys(Filters(c)) == ["instType", "instId", "posId"];
    PositionsRendered(instType, instId, posId);
    assert |Render(Params(c))| == |Params(c)|;
  }

  /** In the `get_bills` query, `start_time` is sent under `begin` and `end_time` under
      `end`, the limit as its decimal digits, and no other key than the seven filters'. */
  lemma BillsKeys(instType: Option<string>, ccy: Option<string>, marginMode: Option<string>,
                  typ: Option<string>, startTime: Option<string>, endTime: Option<string>,
                  limit: Option<U32>, k: string, v: string)
    ensures ("begin", v) in Params(BillsCall(instType, ccy, marginMode, typ, startTime, endTime, limit))
            <==> startTime == Some(v)
    ensures ("end", v) in Params(BillsCall(instType, ccy, marginMode, typ, startTime, endTime, limit))
            <==> endTime == Some(v)
    ensures ("limit", v) in Params(BillsCall(instType, ccy, marginMode, typ, startTime, endTime, limit))
            <==> limit.Some? && v == DecimalText(limit.value as nat)
    ensures (k, v) in Params(BillsCall(instType, ccy, marginMode, typ, startTime, endTime, limit))
            ==> k in ["instType", "ccy", "mgnMode", "type", "begin", "end", "limit"]
  {
    var c := BillsCall(instType, ccy, marginMode, typ, startTime, endTime, limit);
    assert ("begin", v) in Params(c) <==> startTime == Some(v) by { ParamsMember(c, "begin", v); }
    assert ("end", v) in Params(c) <==> endTime == Some(v) by { ParamsMember(c, "end", v); }
    assert ("limit", v) in Params(c) <==> limit.Some? && v == DecimalText(limit.value as nat) by {
      ParamsMember(c, "limit", v);
    }
    assert (k, v) in Params(c) ==> k in ["instType", "ccy", "mgnMode", "type", "begin", "end", "limit"] by {
      ParamsMember(c, k, v);
    }
  }

  /** The `get_bills` query sends the supplied filters in the order `instType`, `ccy`,
      `mgnMode`, `type`, `begin`, `end`, `limit`, and is empty exactly when none is
      supplied. */
  lemma BillsOrder(instType: Option<string>, ccy: Option<string>, marginMode: Option<string>,
                   typ: Option<string>, startTime: Option<string>, endTime: Option<string>,
                   limit: Option<U32>)
    ensures IsSubsequence(Keys(Params(BillsCall(instType, ccy, marginMode, typ, startTime, endTime, limit))),
                          ["instType", "ccy", "mgnMode", "type", "begin", "end", "limit"])
    ensures Params(BillsCall(instType, ccy, marginMode, typ, startTime, endTime, limit)) == [] <==>
            instType.None? && ccy.None? && marginMode.None? && typ.None? && startTime.None? &&
            endTime.None? && limit.None?
  {
    var c := BillsCall(instType, ccy, marginMode, typ, startTime, endTime, limit);
    SuppliedOrder(Filters(c));
    assert Params(c) == Supplied(Filters(c));
    assert FilterKeys(Filters(c)) == ["instType", "ccy", "mgnMode", "type", "begin", "end", "limit"];
    BillsRendered(instType, ccy, marginMode, typ, startTime, endTime, limit);
    assert |Render(Params(c))| == |Params(c)|;
  }

  /** The limit is sent as the decimal digits of the number, which read back as it. */
  lemma LimitDecimal(limit: U32)
    ensures LimitText(Some(limit)).Some?
    ensures DecimalValue(LimitText(Some(limit)).value) == limit as int
    ensures forall i :: 0 <= i < |LimitText(Some(limit)).value| ==> IsDigit(LimitText(Some(limit)).value[i])
  {
    DecimalRoundTrip(limit as nat);
  }

  /** The `get_max_size` path starts with its fixed head: the endpoint, then `instId`
      and `tdMode`. */
  lemma MaxSizeHeadFirst(prefix: string, instId: string, tdMode: string, ccy: Option<string>,
                         px: Option<string>, leverage: Option<string>)
    ensures prefix + "/max-size?instId=" + instId + "&tdMode=" + tdMode <=
            RequestFor(prefix, MaxSizeCall(instId, tdMode, ccy, px, leverage)).path
  {
    var head := prefix + "/max-size?instId=" + instId + "&tdMode=" + tdMode;
    var base, query := MaxSizeHead(prefix, instId, tdMode, head);
    var tail := AmpPiece(("ccy", ccy)) + AmpPiece(("px", px)) + AmpPiece(("leverage", leverage));
    var path := base + (query + AmpPiece(("ccy", ccy)) + AmpPiece(("px", px)) + AmpPiece(("leverage", leverage)));
    MaxSizePath(prefix, instId, tdMode, ccy, px, leverage, path);
    var a1, a2, a3 := AmpPiece(("ccy", ccy)), AmpPiece(("px", px)), AmpPiece(("leverage", leverage));
    ConcatAssoc(query, a1, a2);
    ConcatAssoc(query, a1 + a2, a3);
    ConcatAssoc(base, query, tail);
    assert path == head + tail;
    assert (head + tail)[..|head|] == head;
  }

  /** After its two fixed parameters, the `get_max_size` query carries exactly the
      supplied `ccy`, `px` and `leverage`, in that order. */
  lemma MaxSizeFilters(instId: string, tdMode: string, ccy: Option<string>,
                       px: Option<string>, leverage: Option<string>, k: string, v: string)
    ensures |Params(MaxSizeCall(instId, tdMode, ccy, px, leverage))| >= 2
    ensures Params(MaxSizeCall(instId, tdMode, ccy, px, leverage))[..2] ==
            [("instId", instId), ("tdMode", tdMode)]
    ensures (k, v) in Params(MaxSizeCall(instId, tdMode, ccy, px, leverage))[2..] <==>
            (k == "ccy" && ccy == Some(v)) || (k == "px" && px == Some(v)) ||
            (k == "leverage" && leverage == Some(v))
    ensures IsSubsequence(Keys(Params(MaxSizeCall(instId, tdMode, ccy, px, leverage))[2..]),
                          ["ccy", "px", "leverage"])
  {
    var c := MaxSizeCall(instId, tdMode, ccy, px, leverage);
    assert Params(c)[2..] == Supplied(Filters(c));
    SuppliedMember(Filters(c), k, v);
    SuppliedOrder(Filters(c));
    assert FilterKeys(Filters(c)) == ["ccy", "px", "leverage"];
  }

  /** The `set_leverage` request: a POST to the endpoint with no query, whose body is
      the `LeverageFields` object of its arguments. */
  lemma LeverageRequest(prefix: string, instId: string, leverage: string, marginMode: string,
                        posSide: Option<string>)
    ensures RequestFor(prefix, LeverageCall(instId, leverage, marginMode, posSide)).verb == Post
    ensures RequestFor(prefix, LeverageCall(instId, leverage, marginMode, posSide)).path ==
            prefix + "/set-leverage"
    ensures RequestFor(prefix, LeverageCall(instId, leverage, marginMode, posSide)).body ==
            Json(LeverageFields(instId, leverage, marginMode, posSide))
  {
  }

  /** `get_config` sends a GET with no query and the empty body to `config`. */
  lemma ConfigRequest(prefix: string)
    ensures RequestFor(prefix, ConfigCall) == Request(Get, prefix + "/config", NoBody)
  {
  }

  /** `get_account_risk` sends a GET with no query and the empty body to `account-risk`. */
  lemma RiskRequest(prefix: string)
    ensures RequestFor(prefix, RiskCall) == Request(Get, prefix + "/account-risk", NoBody)
  {
  }
}
