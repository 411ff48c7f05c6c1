# okx_rs account client, request construction

The account client of okx_rs (`OkxAccount`) sends the OKX v5 account endpoints through a
shared network client. Each of its façade methods builds one request:
- the HTTP method;
- the path under the account prefix, with a query string when filters are supplied;
- the body: empty for a GET, a JSON object for `set_leverage`.

The method hands that request to the client and returns the client's reply. Only
`get_balance` reshapes the reply: it keeps `re[0].details`.

This project models that request construction:

- `Common`: option, result and the error type.
- `Text`: joining, splitting and counting characters in strings, and the decimal text of a
  number. `DecimalText` is Rust's `Display` for unsigned integers.
- `Queries`: query strings the way the client writes them:
  - each supplied filter becomes `key=value`, with the value copied verbatim;
  - pieces are joined with `&`;
  - the query is appended after `?` only when there is at least one piece.

  `ParsePath` reads a path back and is the partner of `WithQuery`.
- `AccountModel`: the reply records `AccountBalanceInfo`, `Balance`, `AccountConfig` and
  `AccountRisk`.
- `AccountApi`: the calls.
  - `RequestFor(prefix, call)` states which request each call means on the wire.
  - Each façade method (`GetBalance`, `GetPositions`, …) builds its path the way the
    source does, with `push_str` onto the path or `push` onto `query_params`, and is proved
    to produce exactly `RequestFor`.
  - The account path prefix (`API_ACCOUNT_PATH`) is a parameter.
  - The network client is the function parameter `send`.
- `AccountProperties`: what those requests hold:
  - which parameters each query carries, and in which order;
  - separator counts;
  - the path round trip;
  - which call posts, and what it posts.

In the source, `re[0]` panics on an empty reply. `BalanceDetails` makes that panic a
defined failure: `Err(IndexOutOfBounds(0, 0))`.

## Model

| member | source | states |
|---|---|---|
| AccountApi.GetBalance | src/api/account/account_api.rs:39-50 | sends a GET to `prefix/balance`, with `?ccy=` only when a currency is given, and an empty body. It returns the `re[0].details` projection of the client's reply |
| AccountApi.BalanceDetails | src/api/account/account_api.rs:46-49 | the result succeeds iff the reply succeeded with at least one record, and is then that first record's `details`. A failed reply passes through unchanged. An empty reply is the out-of-bounds index 0 of length 0 |
| AccountApi.BalancePath | src/api/account/account_api.rs:40-44 | the balance path is exactly `prefix/balance` without a currency, and `prefix/balance?ccy=<ccy>` with one |
| AccountApi.GetPositions | src/api/account/account_api.rs:53-81 | the path that `query_params` and `join("&")` build is `RequestFor` of the positions call. It is a GET with an empty body |
| AccountApi.PositionsPieces | src/api/account/account_api.rs:59-76 | the positions path is `prefix/positions` when no piece was pushed; otherwise it is followed by `?` and the pieces joined with `&` |
| AccountApi.GetConfig | src/api/account/account_api.rs:84-89 | sends a GET to `prefix/config` with an empty body and returns the reply |
| AccountApi.SetLeverage | src/api/account/account_api.rs:92-115 | sends a POST to `prefix/set-leverage` whose JSON body holds `instId`, `lever` and `mgnMode`, plus `posSide` when it is supplied |
| AccountApi.GetMaxSize | src/api/account/account_api.rs:118-146 | the path built from its fixed head, followed by `&ccy=`, `&px=` and `&leverage=` when supplied, is `RequestFor` of the max-size call. It is a GET with an empty body |
| AccountApi.MaxSizeHead | src/api/account/account_api.rs:126-129 | the head `format!` is the endpoint path, `?`, and the pairs `instId=…&tdMode=…` |
| AccountApi.PushFilter | src/api/account/account_api.rs:131-133 | a conditional `push_str` of `&key=value` extends the query by that filter's piece, or by nothing when the filter is absent |
| AccountApi.MaxSizePath | src/api/account/account_api.rs:126-141 | the head followed by the three optional `&key=value` pieces is the max-size path of `RequestFor` |
| AccountApi.MaxSizePieces | src/api/account/account_api.rs:126-141 | the path the head `format!` and the three conditional `push_str` calls build is the max-size path of `RequestFor` |
| AccountApi.GetAccountRisk | src/api/account/account_api.rs:149-154 | sends a GET to `prefix/account-risk` with an empty body and returns the reply |
| AccountApi.GetBills | src/api/account/account_api.rs:157-205 | the path that the seven conditional pushes and `join("&")` build is `RequestFor` of the bills call. It is a GET with an empty body |
| AccountApi.PushSupplied | src/api/account/account_api.rs:170-172 | `if let Some(v)` followed by a push appends `key=v` for a supplied filter, and leaves the list unchanged otherwise |
| AccountApi.BillsPieces | src/api/account/account_api.rs:167-200 | the bills path is `prefix/bills` when no piece was pushed; otherwise it is followed by `?` and the pieces joined with `&` |
| AccountApi.GetAccountPositions | src/api/account/account_api.rs:208-236 | builds the same request as `get_positions` for the same arguments: `RequestFor` of the same positions call |
| AccountApi.RequestFor | src/api/account/account_api.rs:39-236 | the request each call means on the wire: the endpoint path with its query, the method and the body. It is a POST iff the call is `set_leverage`, and its body is empty iff it is a GET |
| AccountApi.LeverageFields | src/api/account/account_api.rs:101-109 | the `set_leverage` body has exactly the keys `instId`, `lever` and `mgnMode`, plus `posSide` iff it is supplied. Each key holds its argument |
| AccountProperties.RequestRoundTrip | src/api/account/account_api.rs:74-76 | reading any call's path back gives its endpoint path and exactly the parameters it sends, in order. It requires that the prefix holds no `?` and that no value sent holds `&` |
| AccountProperties.RequestQuestionMarks | src/api/account/account_api.rs:229-231 | when neither the prefix nor any value sent holds `?`, a path with parameters holds exactly one `?`, and a path without parameters holds none |
| AccountProperties.RequestAmpersands | src/api/account/account_api.rs:229-231 | when neither the prefix nor any value sent holds `&`, a path with k parameters holds exactly k − 1 `&`, and a path without parameters holds none. Values are not escaped, so each `&` inside a value adds one more |
| AccountProperties.ParamsMember | src/api/account/account_api.rs:62-72 | a call sends `(k, v)` iff that pair is one of its fixed parameters or one of its filters supplied with `v` |
| AccountProperties.PositionsQuery | src/api/account/account_api.rs:59-76 | the positions query carries a pair iff it is `instType`, `instId` or `posId` with its supplied value. The keys keep that order, and there is one parameter per supplied filter |
| AccountProperties.BillsKeys | src/api/account/account_api.rs:167-196 | `start_time` is sent under `begin`, `end_time` under `end`, and the limit under `limit` as its decimal digits. No key outside the seven filter keys is sent |
| AccountProperties.BillsOrder | src/api/account/account_api.rs:167-200 | the bills keys follow the order `instType`, `ccy`, `mgnMode`, `type`, `begin`, `end`, `limit`. The query is empty iff no filter is supplied |
| AccountProperties.LimitDecimal | src/api/account/account_api.rs:194-196 | the limit text is all decimal digits and reads back as the number |
| AccountProperties.MaxSizeHeadFirst | src/api/account/account_api.rs:126-129 | every max-size path starts with `prefix/max-size?instId=<instId>&tdMode=<tdMode>` |
| AccountProperties.MaxSizeFilters | src/api/account/account_api.rs:131-141 | after `instId` and `tdMode`, the max-size query carries exactly the supplied `ccy`, `px` and `leverage`, in that order |
| AccountProperties.LeverageRequest | src/api/account/account_api.rs:99-113 | `set_leverage` posts to `prefix/set-leverage` without a query, and its body is the `LeverageFields` object of its arguments |
| AccountProperties.ConfigRequest | src/api/account/account_api.rs:85 | `get_config` is a GET to `prefix/config` with no query and the empty body |
| AccountProperties.RiskRequest | src/api/account/account_api.rs:150 | `get_account_risk` is a GET to `prefix/account-risk` with no query and the empty body |
| Queries.ParseWithQuery | src/api/account/account_api.rs:74-76 | `ParsePath` inverts `WithQuery`: it returns the base and the parameters. It requires that the base holds no `?`, that keys hold no `&` or `=`, and that no value holds `&` |
| Queries.SuppliedMember | src/api/account/account_api.rs:62-72 | a pair is sent iff a filter under that key was supplied with that value |
| Queries.SuppliedOrder | src/api/account/account_api.rs:62-72 | the keys sent are a subsequence of the filter keys, in the order the filters are considered |
| Queries.SeparatorCount | src/api/account/account_api.rs:74-76 | joining k ≥ 1 pieces with `&` puts exactly k − 1 `&` into the path. It requires that neither the base nor any key or value holds `&` |
| Queries.QuestionMarkCount | src/api/account/account_api.rs:74-76 | the path holds one `?` iff it has parameters, and none otherwise. It requires that neither the base nor any key or value holds `?` |
| Queries.WithQuery | src/api/account/account_api.rs:74-76 | the path with its query starts with the base. It is the base alone iff there are no parameters; otherwise the next character is `?` |
| Text.DecimalRoundTrip | src/api/account/account_api.rs:194-196 | the decimal text of a number reads back as that number |
| Text.DecimalText | src/api/account/account_api.rs:194-196 | the `Display` text of a number is at least one character, all decimal digits, and starts with `0` only for 0 |
| Text.JoinSnoc | src/api/account/account_api.rs:75 | for a non-empty list, `join("&")` of the list with one more part is the join of the list, then `&`, then that part |
| Text.JoinSeparators | src/api/account/account_api.rs:75 | `join("&")` of k ≥ 1 parts without `&` holds exactly k − 1 `&` |
| Text.SplitJoin | src/api/account/account_api.rs:75 | for k ≥ 1 pieces without `&`, splitting their `&`-join gives back the pieces |

## Left out

- The network and `async`: `send_request` is the function parameter `send`. Signing, headers, HTTP status handling and retries belong to the network client, which is not part of this model.
- Reply decoding: serde deserialisation and the DTOs' field renames are not modelled. The records keep their fields; only `details` of the first balance record is used.
- `serde_json::to_string` of the `set_leverage` body, and its `JsonError` path, are not modelled. The body is kept as its key/value map, so the text order of its keys is not modelled either.
- `PositionRespDto` is the type parameter `P`, and untyped JSON replies are the type parameter `V`. `MarginMode` is only its wire name.
- `API_ACCOUNT_PATH` is the parameter `prefix`. Its value is not part of this model.
- `new`, `from_env` and `client` only construct the client or hand it out; they are not modelled.
- The two tests at the end of the file call the live service; they are not modelled.
- Percent-encoding: the client copies values verbatim, and so does the model. Reading a path back (`RequestRoundTrip`) needs a prefix without `?` and values without `&`. The `&` count (`RequestAmpersands`) needs a prefix and values without `&`, and the `?` count (`RequestQuestionMarks`) a prefix and values without `?`. A value holding `?` still reads back. Only a value holding `&` or a prefix holding `?` breaks the read-back: `get_balance(Some("a&b"))` sends `…/balance?ccy=a&b`, which reads back as the two pairs `("ccy", "a")` and `("b", "")`.
- `get_positions` and `get_account_positions` are the same call, `PositionsCall`. The source does not distinguish the two requests either.
- The panic at `re[0]` on an empty balance reply is not modelled as an abort: `BalanceDetails` returns `Err(IndexOutOfBounds(0, 0))` instead.
