/** The request-construction layer of the account client. Each façade method turns its
    arguments into one request (HTTP method, path with query, body) for the network
    client and hands back the client's reply; only the balance call reshapes the reply.

    `RequestFor` states what request each call means on the wire; the methods build
    the same request step by step, as the client does, and are proved equal to it. The
    account path prefix is a parameter, and the network client is the function `send`. */
module AccountApi {
  import opened Common
  import opened Text
  import opened Queries
  import opened AccountModel

  /** A Rust `u32`. */
  newtype U32 = x: int | 0 <= x < 0x1_0000_0000

  datatype HttpMethod = Get | Post

  /** The body handed to the client: the empty text for every GET, and for a POST the
      JSON object, kept as its key/value map (serialising it is not part of this model). */
  datatype Body = NoBody | Json(fields: map<string, string>)

  datatype Request = Request(verb: HttpMethod, path: string, body: Body)

  /** One façade call with its arguments, in the order the methods take them. Both
      `get_positions` and `get_account_positions` are a `PositionsCall`. */
  datatype Call =
    | BalanceCall(Option<string>)
    | PositionsCall(Option<string>, Option<string>, Option<string>)
    | ConfigCall
    | LeverageCall(string, string, string, Option<string>)
    | MaxSizeCall(string, string, Option<string>, Option<string>, Option<string>)
    | RiskCall
    | BillsCall(Option<string>, Option<string>, Option<string>, Option<string>,
                Option<string>, Option<string>, Option<U32>)

  /** The last path segment each call is sent to. */
  function EndpointSegment(c: Call): string
  {
    match c
    case BalanceCall(_) => "/balance"
    case PositionsCall(_, _, _) => "/positions"
    case ConfigCall => "/config"
    case LeverageCall(_, _, _, _) => "/set-leverage"
    case MaxSizeCall(_, _, _, _, _) => "/max-size"
    case RiskCall => "/account-risk"
    case BillsCall(_, _, _, _, _, _, _) => "/bills"
  }

  /** The path before any query: the account prefix followed by the endpoint's segment,
      as each `format!("{}/name", API_ACCOUNT_PATH)` writes it. */
  function EndpointPath(prefix: string, c: Call): string
  {
    prefix + EndpointSegment(c)
  }

  /** The `limit` filter as text: the decimal digits of the number. */
  function LimitText(limit: Option<U32>): Option<string>
  {
    match limit
    case None => None
    case Some(l) => Some(DecimalText(l as nat))
  }

  /** The parameters a call always sends, first. */
  function FixedParams(c: Call): seq<Param>
  {
    match c
    case MaxSizeCall(instId, tdMode, _, _, _) => [("instId", instId), ("tdMode", tdMode)]
    case _ => []
  }

  /** The optional filters of a call, under their wire keys, in the order they are
      considered. `get_bills` sends `start_time` as `begin` and `end_time` as `end`. */
  function Filters(c: Call): seq<Filter>
  {
    match c
    case BalanceCall(ccy) => [("ccy", ccy)]
    case PositionsCall(instType, instId, posId) =>
      [("instType", instType), ("instId", instId), ("posId", posId)]
    case MaxSizeCall(_, _, ccy, px, leverage) =>
      [("ccy", ccy), ("px", px), ("leverage", leverage)]
    case BillsCall(instType, ccy, marginMode, typ, startTime, endTime, limit) =>
      [("instType", instType), ("ccy", ccy), ("mgnMode", marginMode), ("type", typ),
       ("begin", startTime), ("end", endTime), ("limit", LimitText(limit))]
    case _ => []
  }

  /** Everything the call puts in its query, in order. */
  function Params(c: Call): seq<Param>
  {
    FixedParams(c) + Supplied(Filters(c))
  }

  /** The `set_leverage` body: three fixed keys, and `posSide` only when supplied. */
  function LeverageFields(instId: string, leverage: string, marginMode: string,
                          posSide: Option<string>): (fields: map<string, string>)
    ensures fields.Keys == {"instId", "lever", "mgnMode"} + (if posSide.Some? then {"posSide"} else {})
    ensures fields["instId"] == instId && fields["lever"] == leverage && fields["mgnMode"] == marginMode
    ensures posSide.Some? ==> fields["posSide"] == posSide.value
  {
    var fields := map["instId" := instId, "lever" := leverage, "mgnMode" := marginMode];
    if posSide.Some? then fields["posSide" := posSide.value] else fields
  }

  /** `set_leverage` posts; every other call is a GET. */
  function Verb(c: Call): HttpMethod
  {
    if c.LeverageCall? then Post else Get
  }

  function BodyOf(c: Call): Body
  {
    match c
    case LeverageCall(instId, leverage, marginMode, posSide) =>
      Json(LeverageFields(instId, leverage, marginMode, posSide))
    case _ => NoBody
  }

  /** The request a call means on the wire. */
  function RequestFor(prefix: string, c: Call): (r: Request)
    ensures r.verb == Post <==> c.LeverageCall?
    ensures r.body == NoBody <==> r.verb == Get
  {
    Request(Verb(c), WithQuery(EndpointPath(prefix, c), Params(c)), BodyOf(c))
  }

  /** `.map(|re| re[0].details.clone())`: a failed reply is passed on unchanged; a
      successful one yields the details of its first record, and an empty one is the
      out-of-bounds index of that `re[0]`. */
  function BalanceDetails(reply: Result<seq<AccountBalanceInfo>, Error>): (r: Result<seq<Balance>, Error>)
    ensures r.Ok? <==> reply.Ok? && |reply.value| > 0
    ensures r.Ok? ==> r.value == reply.value[0].details
    ensures reply.Err? ==> r == Err(reply.error)
    ensures reply == Ok([]) ==> r == Err(IndexOutOfBounds(0, 0))
  {
    match reply
    case Err(e) => Err(e)
    case Ok(re) => if |re| == 0 then Err(IndexOutOfBounds(0, 0)) else Ok(re[0].details)
  }

  method GetBalance(prefix: string, ccy: Option<string>,
                    send: Request -> Result<seq<AccountBalanceInfo>, Error>)
    returns (req: Request, result: Result<seq<Balance>, Error>)
    ensures req == RequestFor(prefix, BalanceCall(ccy))
    ensures result == BalanceDetails(send(req))
  {
    var path := prefix + "/balance";
    if ccy.Some? {
      path := path + "?ccy=" + ccy.value;
    }
    assert path == RequestFor(prefix, BalanceCall(ccy)).path by {
      BalancePath(prefix, ccy);
    }
    req := Request(Get, path, NoBody);
    result := BalanceDetails(send(req));
  }

  method GetPositions<P>(prefix: string, instType: Option<string>, instId: Option<string>,
                         posId: Option<string>, send: Request -> Result<seq<P>, Error>)
    returns (req: Request, result: Result<seq<P>, Error>)
    ensures req == RequestFor(prefix, PositionsCall(instType, instId, posId))
    ensures result == send(req)
  {
    var path := prefix + "/positions";
    var queryParams: seq<string> := [];
    queryParams := PushSupplied(queryParams, ("instType", instType));
    assert queryParams == Piece(("instType", instType));
    queryParams := PushSupplied(queryParams, ("instId", instId));
    queryParams := PushSupplied(queryParams, ("posId", posId));
    if queryParams != [] {
      path := path + "?" + Join(queryParams, '&');
    }
    assert path == RequestFor(prefix, PositionsCall(instType, instId, posId)).path by {
      PositionsPieces(prefix, instType, instId, posId, queryParams);
    }
    req := Request(Get, path, NoBody);
    result := send(req);
  }

  method GetConfig(prefix: string, send: Request -> Result<seq<AccountConfig>, Error>)
    returns (req: Request, result: Result<seq<AccountConfig>, Error>)
    ensures req == RequestFor(prefix, ConfigCall)
    ensures result == send(req)
  {
    var path := prefix + "/config";
    req := Request(Get, path, NoBody);
    result := send(req);
  }

  /** The reply is an untyped JSON document, of type `V` here. */
  method SetLeverage<V>(prefix: string, instId: string, leverage: string, marginMode: string,
                        posSide: Option<string>, send: Request -> Result<V, Error>)
    returns (req: Request, result: Result<V, Error>)
    ensures req == RequestFor(prefix, LeverageCall(instId, leverage, marginMode, posSide))
    ensures result == send(req)
  {
    var path := prefix + "/set-leverage";
    var body := map["instId" := instId, "lever" := leverage, "mgnMode" := marginMode];
    if posSide.Some? {
      body := body["posSide" := posSide.value];
    }
    req := Request(Post, path, Json(body));
    result := send(req);
  }

  /** The reply is an untyped JSON document, of type `V` here. */
  method GetMaxSize<V>(prefix: string, instId: string, tdMode: string, ccy: Option<string>,
                       px: Option<string>, leverage: Option<string>, send: Request -> Result<V, Error>)
    returns (req: Request, result: Result<V, Error>)
    ensures req == RequestFor(prefix, MaxSizeCall(instId, tdMode, ccy, px, leverage))
    ensures result == send(req)
  {
    var path := prefix + "/max-size?instId=" + instId + "&tdMode=" + tdMode;
    if ccy.Some? {
      path := path + ("&ccy=" + ccy.value);
    }
    if px.Some? {
      path := path + ("&px=" + px.value);
    }
    if leverage.Some? {
      path := path + ("&leverage=" + leverage.value);
    }
    MaxSizePieces(prefix, instId, tdMode, ccy, px, leverage, path);
    req := Request(Get, path, NoBody);
    result := send(req);
  }

  /** `if let Some(v) = value { query_params.push(format!("key={}", v)); }`: the piece
      of a supplied filter is appended, and an absent one leaves the list as it was. */
  method PushSupplied(queryParams: seq<string>, f: Filter) returns (r: seq<string>)
    ensures r == queryParams + Piece(f)
  {
    r := queryParams;
    if f.1.Some? {
      r := r + [Pair((f.0, f.1.value))];
    }
  }

  method GetAccountRisk(prefix: string, send: Request -> Result<seq<AccountRisk>, Error>)
    returns (req: Request, result: Result<seq<AccountRisk>, Error>)
    ensures req == RequestFor(prefix, RiskCall)
    ensures result == send(req)
  {
    var path := prefix + "/account-risk";
    req := Request(Get, path, NoBody);
    result := send(req);
  }

  /** The reply is an untyped JSON document, of type `V` here. */
  method GetBills<V>(prefix: string, instType: Option<string>, ccy: Option<string>,
                     marginMode: Option<string>, typ: Option<string>, startTime: Option<string>,
                     endTime: Option<string>, limit: Option<U32>, send: Request -> Result<V, Error>)
    returns (req: Request, result: Result<V, Error>)
    ensures req == RequestFor(prefix, BillsCall(instType, ccy, marginMode, typ, startTime, endTime, limit))
    ensures result == send(req)
  {
    var path := prefix + "/bills";
    var queryParams: seq<string> := [];
    queryParams := PushSupplied(queryParams, ("instType", instType));
    assert queryParams == Piece(("instType", instType));
    queryParams := PushSupplied(queryParams, ("ccy", ccy));
    queryParams := PushSupplied(queryParams, ("mgnMode", marginMode));
    queryParams := PushSupplied(queryParams, ("type", typ));
    queryParams := PushSupplied(queryParams, ("begin", startTime));
    queryParams := PushSupplied(queryParams, ("end", endTime));
    queryParams := PushSupplied(queryParams, ("limit", LimitText(limit)));
    if queryParams != [] {
      path := path + "?" + Join(queryParams, '&');
    }
    assert path == RequestFor(prefix, BillsCall(instType, ccy, marginMode, typ, startTime, endTime, limit)).path by {
      BillsPieces(prefix, instType, ccy, marginMode, typ, startTime, endTime, limit, queryParams);
    }
    req := Request(Get, path, NoBody);
    result := send(req);
  }

  method GetAccountPositions<P>(prefix: string, instType: Option<string>, instId: Option<string>,
                                posId: Option<string>, send: Request -> Result<seq<P>, Error>)
    returns (req: Request, result: Result<seq<P>, Error>)
    ensures req == RequestFor(prefix, PositionsCall(instType, instId, posId))
    ensures result == send(req)
  {
    var path := prefix + "/positions";
    var queryParams: seq<string> := [];
    queryParams := PushSupplied(queryParams, ("instType", instType));
    assert queryParams == Piece(("instType", instType));
    queryParams := PushSupplied(queryParams, ("instId", instId));
    queryParams := PushSupplied(queryParams, ("posId", posId));
    if queryParams != [] {
      path := path + "?" + Join(queryParams, '&');
    }
    assert path == RequestFor(prefix, PositionsCall(instType, instId, posId)).path by {
      PositionsPieces(prefix, instType, instId, posId, queryParams);
    }
    req := Request(Get, path, NoBody);
    result := send(req);
  }

  // The lemmas below connect the step-by-step construction in the methods above to
  // `RequestFor`, one endpoint at a time.

  lemma BalanceRendered(ccy: Option<string>)
    ensures Render(Params(BalanceCall(ccy))) == Piece(("ccy", ccy))
  {
    RenderSuppliedSnoc([], ("ccy", ccy));
    assert [] + [("ccy", ccy)] == Filters(BalanceCall(ccy));
  }

  lemma BalancePath(prefix: string, ccy: Option<string>)
    ensures RequestFor(prefix, BalanceCall(ccy)).path ==
            if ccy.None? then prefix + "/balance" else prefix + "/balance" + "?ccy=" + ccy.value
  {
    var c := BalanceCall(ccy);
    var q := Piece(("ccy", ccy));
    BalanceRendered(ccy);
    WithRenderedQuery(EndpointPath(prefix, c), Params(c), q);
    if ccy.Some? {
      assert q == [Pair(("ccy", ccy.value))];
      assert Join(q, '&') == "ccy=" + ccy.value;
    }
  }

  lemma PositionsRendered(instType: Option<string>, instId: Option<string>, posId: Option<string>)
    ensures Render(Params(PositionsCall(instType, instId, posId))) ==
            Piece(("instType", instType)) + Piece(("instId", instId)) + Piece(("posId", posId))
  {
    var c := PositionsCall(instType, instId, posId);
    assert Params(c) == Supplied(Filters(c));
    RenderSuppliedThree(("instType", instType), ("instId", instId), ("posId", posId));
  }

  lemma PositionsPieces(prefix: string, instType: Option<string>, instId: Option<string>,
                        posId: Option<string>, pieces: seq<string>)
    requires pieces == Piece(("instType", instType)) + Piece(("instId", instId)) + Piece(("posId", posId))
    ensures RequestFor(prefix, PositionsCall(instType, instId, posId)).path ==
            if pieces == [] then prefix + "/positions" else prefix + "/positions" + "?" + Join(pieces, '&')
  {
    var c := PositionsCall(instType, instId, posId);
    var base := EndpointPath(prefix, c);
    assert RequestFor(prefix, c).path == WithQuery(base, Params(c));
    PositionsRendered(instType, instId, posId);
    WithRenderedQuery(base, Params(c), pieces);
  }

  lemma MaxSizeRendered(instId: string, tdMode: string, ccy: Option<string>,
                        px: Option<string>, leverage: Option<string>)
    ensures Render(Params(MaxSizeCall(instId, tdMode, ccy, px, leverage))) ==
            [Pair(("instId", instId)), Pair(("tdMode", tdMode))] +
            Piece(("ccy", ccy)) + Piece(("px", px)) + Piece(("leverage", leverage))
  {
    var c := MaxSizeCall(instId, tdMode, ccy, px, leverage);
    var fixed := [Pair(("instId", instId)), Pair(("tdMode", tdMode))];
    var supplied := Render(Supplied(Filters(c)));
    assert Render(Params(c)) == fixed + supplied by {
      assert Render(FixedParams(c) + Supplied(Filters(c))) ==
             Render(FixedParams(c)) + Render(Supplied(Filters(c)));
    }
    RenderSuppliedThree(("ccy", ccy), ("px", px), ("leverage", leverage));
  }

  lemma MaxSizeQuery(instId: string, tdMode: string, ccy: Option<string>,
                     px: Option<string>, leverage: Option<string>)
    ensures QueryString(Params(MaxSizeCall(instId, tdMode, ccy, px, leverage))) ==
            Pair(("instId", instId)) + "&" + Pair(("tdMode", tdMode)) +
            AmpPiece(("ccy", ccy)) + AmpPiece(("px", px)) + AmpPiece(("leverage", leverage))
  {
    MaxSizeRendered(instId, tdMode, ccy, px, leverage);
    var fixed := [Pair(("instId", instId)), Pair(("tdMode", tdMode))];
    assert fixed[1..] == [fixed[1]];
    JoinPiece(fixed, ("ccy", ccy));
    JoinPiece(fixed + Piece(("ccy", ccy)), ("px", px));
    JoinPiece(fixed + Piece(("ccy", ccy)) + Piece(("px", px)), ("leverage", leverage));
  }

  /** The head `format!` of `get_max_size` is the endpoint path, `?`, and the two fixed
      parameters. */
  lemma MaxSizeHead(prefix: string, instId: string, tdMode: string, path: string)
    returns (base: string, query: string)
    requires path == prefix + "/max-size?instId=" + instId + "&tdMode=" + tdMode
    ensures base == EndpointPath(prefix, MaxSizeCall(instId, tdMode, None, None, None)) + "?"
    ensures query == Pair(("instId", instId)) + "&" + Pair(("tdMode", tdMode))
    ensures path == base + query
  {
    var k1, k2 := "instId" + "=", "tdMode" + "=";
    base := prefix + "/max-size" + "?";
    var x := k1 + instId;
    query := x + "&" + (k2 + tdMode);
    assert "/max-size?instId=" == "/max-size" + "?" + ("instId" + "=");
    assert "&tdMode=" == "&" + ("tdMode" + "=");
    calc {
      path;
      prefix + ("/max-size" + "?" + k1) + instId + ("&" + k2) + tdMode;
      { ConcatAssoc(prefix + "/max-size", "?", k1);
        ConcatAssoc(prefix, "/max-size", "?" + k1);
        ConcatAssoc("/max-size", "?", k1); }
      base + k1 + instId + ("&" + k2) + tdMode;
      { ConcatAssoc(base, k1, instId); }
      base + x + ("&" + k2) + tdMode;
      { ConcatAssoc(base, x, "&" + k2); ConcatAssoc(x, "&", k2); }
      base + (x + "&" + k2) + tdMode;
      { ConcatAssoc(base, x + "&" + k2, tdMode); ConcatAssoc(x + "&", k2, tdMode); }
      base + query;
    }
  }

  /** One `push_str(&format!("&key={}", value))` step, taken only when the filter was
      supplied, extends the query by the filter's `&key=value`. */
  lemma PushFilter(base: string, query: string, before: string, f: Filter, text: string,
                   after: string)
    requires before == base + query
    requires text == "&" + f.0 + "="
    requires after == if f.1.Some? then before + (text + f.1.value) else before
    ensures after == base + (query + AmpPiece(f))
  {
    if f.1.Some? {
      assert text + f.1.value == AmpPiece(f);
    }
  }

  lemma MaxSizePath(prefix: string, instId: string, tdMode: string, ccy: Option<string>,
                    px: Option<string>, leverage: Option<string>, path: string)
    requires path == EndpointPath(prefix, MaxSizeCall(instId, tdMode, None, None, None)) + "?" +
                     (Pair(("instId", instId)) + "&" + Pair(("tdMode", tdMode)) +
                      AmpPiece(("ccy", ccy)) + AmpPiece(("px", px)) + AmpPiece(("leverage", leverage)))
    ensures RequestFor(prefix, MaxSizeCall(instId, tdMode, ccy, px, leverage)).path == path
  {
    var c := MaxSizeCall(instId, tdMode, ccy, px, leverage);
    MaxSizeQuery(instId, tdMode, ccy, px, leverage);
    assert Params(c) != [];
  }

  /** The path `get_max_size` builds, its head followed by each supplied `&key=value`,
      is the max-size path of `RequestFor`. */
  lemma MaxSizePieces(prefix: string, instId: string, tdMode: string, ccy: Option<string>,
                      px: Option<string>, leverage: Option<string>, path: string)
    requires path == prefix + "/max-size?instId=" + instId + "&tdMode=" + tdMode +
                     (if ccy.Some? then "&ccy=" + ccy.value else "") +
                     (if px.Some? then "&px=" + px.value else "") +
                     (if leverage.Some? then "&leverage=" + leverage.value else "")
    ensures RequestFor(prefix, MaxSizeCall(instId, tdMode, ccy, px, leverage)).path == path
  {
    var head := prefix + "/max-size?instId=" + instId + "&tdMode=" + tdMode;
    var base, query := MaxSizeHead(prefix, instId, tdMode, head);
    var p1 := head + (if ccy.Some? then "&ccy=" + ccy.value else "");
    PushFilter(base, query, head, ("ccy", ccy), "&ccy=", p1);
    var q1 := query + AmpPiece(("ccy", ccy));
    var p2 := p1 + (if px.Some? then "&px=" + px.value else "");
    PushFilter(base, q1, p1, ("px", px), "&px=", p2);
    var q2 := q1 + AmpPiece(("px", px));
    PushFilter(base, q2, p2, ("leverage", leverage), "&leverage=", path);
    MaxSizePath(prefix, instId, tdMode, ccy, px, leverage, path);
  }

  lemma BillsRendered(instType: Option<string>, ccy: Option<string>, marginMode: Option<string>,
                      typ: Option<string>, startTime: Option<string>, endTime: Option<string>,
                      limit: Option<U32>)
    ensures Render(Params(BillsCall(instType, ccy, marginMode, typ, startTime, endTime, limit))) ==
      Piece(("instType", instType)) + Piece(("ccy", ccy)) + Piece(("mgnMode", marginMode)) +
      Piece(("type", typ)) + Piece(("begin", startTime)) + Piece(("end", endTime)) +
      Piece(("limit", LimitText(limit)))
  {
    var c := BillsCall(instType, ccy, marginMode, typ, startTime, endTime, limit);
    var f1, f2, f3, f4 := ("instType", instType), ("ccy", ccy), ("mgnMode", marginMode), ("type", typ);
    var f5, f6, f7 := ("begin", startTime), ("end", endTime), ("limit", LimitText(limit));
    var front := [f1, f2, f3, f4];
    RenderSuppliedFour(f1, f2, f3, f4);
    RenderSuppliedSnoc(front, f5);
    RenderSuppliedSnoc(front + [f5], f6);
    RenderSuppliedSnoc(front + [f5] + [f6], f7);
    assert front + [f5] + [f6] + [f7] == Filters(c);
  }

  lemma BillsPieces(prefix: string, instType: Option<string>, ccy: Option<string>,
                    marginMode: Option<string>, typ: Option<string>, startTime: Option<string>,
                    endTime: Option<string>, limit: Option<U32>, pieces: seq<string>)
    requires pieces ==
      Piece(("instType", instType)) + Piece(("ccy", ccy)) + Piece(("mgnMode", marginMode)) +
      Piece(("type", typ)) + Piece(("begin", startTime)) + Piece(("end", endTime)) +
      Piece(("limit", LimitText(limit)))
    ensures RequestFor(prefix, BillsCall(instType, ccy, marginMode, typ, startTime, endTime, limit)).path ==
            if pieces == [] then prefix + "/bills" else prefix + "/bills" + "?" + Join(pieces, '&')
  {
    var c := BillsCall(instType, ccy, marginMode, typ, startTime, endTime, limit);
    var base := EndpointPath(prefix, c);
    assert RequestFor(prefix, c).path == WithQuery(base, Params(c));
    BillsRendered(instType, ccy, marginMode, typ, startTime, endTime, limit);
    WithRenderedQuery(base, Params(c), pieces);
  }
}
