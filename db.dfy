/** The Supabase (PostgREST) tools: percent-encoding of the query with the
    PostgREST operators kept (`_enc`, section 2.1 of RFC 3986), the header
    dict (`_hdrs`), body normalisation (`_to_list`), the request each tool
    sends and the result it builds from the dispatcher's response. */
module Db {
  import opened Wrappers
  import Strings
  import Json
  import Dispatch

  type Byte = Strings.Byte

  /** Characters `quote(q, safe="=&,.*-_~:")` leaves alone: ASCII letters and
      digits, `_.-~` (always safe) and the extra safe set.  `/` is not safe,
      since an explicit `safe` replaces the default `/`. */
  predicate IsSafe(c: char) {
    ('A' <= c <= 'Z') || ('a' <= c <= 'z') || ('0' <= c <= '9') ||
    c == '=' || c == '&' || c == ',' || c == '.' || c == '*' || c == '-' || c == '_' || c == '~' || c == ':'
  }

  /** Upper-case hexadecimal digit, as `quote` writes them. */
  function HexDigit(d: int): (c: char)
    requires 0 <= d < 16
    ensures IsHex(c) && HexValue(c) == d && IsSafe(c)
  {
    if d < 10 then (48 + d) as char else (55 + d) as char
  }

  predicate IsHex(c: char) {
    ('0' <= c <= '9') || ('A' <= c <= 'F') || ('a' <= c <= 'f')
  }

  function HexValue(c: char): (d: int)
    requires IsHex(c)
    ensures 0 <= d < 16
  {
    if '0' <= c <= '9' then c as int - 48
    else if 'A' <= c <= 'F' then c as int - 55
    else c as int - 87
  }

  /** The UTF-8 encoding of one character (`str.encode("utf-8")`). */
  function Utf8(c: char): (bytes: seq<Byte>)
    ensures 1 <= |bytes| <= 4
    ensures c as int < 128 ==> bytes == [c as int]
    ensures c as int >= 128 ==> forall i | 0 <= i < |bytes| :: bytes[i] >= 128
  {
    var n := c as int;
    if n < 0x80 then [n]
    else if n < 0x800 then [0xC0 + n / 64, 0x80 + n % 64]
    else if n < 0x10000 then [0xE0 + n / 4096, 0x80 + (n / 64) % 64, 0x80 + n % 64]
    else [0xF0 + n / 262144, 0x80 + (n / 4096) % 64, 0x80 + (n / 64) % 64, 0x80 + n % 64]
  }

  /** The UTF-8 encoding of a string. */
  function Utf8Bytes(s: string): seq<Byte>
    decreases |s|
  {
    if |s| == 0 then [] else Utf8(s[0]) + Utf8Bytes(s[1..])
  }

  /** `%XX` for each byte. */
  function PercentBytes(bytes: seq<Byte>): (s: string)
    ensures |s| == 3 * |bytes|
    ensures forall i | 0 <= i < |s| :: IsSafe(s[i]) || s[i] == '%'
    decreases |bytes|
  {
    if |bytes| == 0 then "" else ['%', HexDigit(bytes[0] / 16), HexDigit(bytes[0] % 16)] + PercentBytes(bytes[1..])
  }

  function EncodeChar(c: char): string {
    if IsSafe(c) then [c] else PercentBytes(Utf8(c))
  }

  /** `_enc`: safe characters stay, every other character becomes the `%XX` of each of its UTF-8 bytes. */
  function Enc(q: string): (r: string)
    ensures forall i | 0 <= i < |r| :: IsSafe(r[i]) || r[i] == '%'
    decreases |q|
  {
    if |q| == 0 then "" else EncodeChar(q[0]) + Enc(q[1..])
  }

  /** A string of safe characters is returned unchanged. */
  lemma {:induction false} EncSafeUnchanged(q: string)
    requires forall i | 0 <= i < |q| :: IsSafe(q[i])
    ensures Enc(q) == q
    decreases |q|
  {
    if |q| > 0 {
      EncSafeUnchanged(q[1..]);
      assert [q[0]] + q[1..] == q;
    }
  }

  /** One character: kept when safe, otherwise the `%XX` of each of its UTF-8 bytes. */
  lemma EncChar(c: char)
    ensures Enc([c]) == if IsSafe(c) then [c] else PercentBytes(Utf8(c))
  {
    assert [c][1..] == "";
  }

  /** `_enc` works character by character: the encoding of a concatenation is
      the concatenation of the encodings, so a safe character stays literal
      whatever surrounds it. */
  lemma {:induction false} EncAppend(a: string, b: string)
    ensures Enc(a + b) == Enc(a) + Enc(b)
    decreases |a|
  {
    if |a| == 0 {
      assert a + b == b;
    } else {
      assert (a + b)[0] == a[0];
      assert (a + b)[1..] == a[1..] + b;
      EncAppend(a[1..], b);
    }
  }

  /** A safe and an unsafe character side by side: `a/` becomes `a%2F`, and
      `eq.a b` becomes `eq.a%20b`, with the operator characters kept. */
  lemma EncMixed()
    ensures Enc("a/") == "a%2F"
    ensures Enc("eq.a b") == "eq.a%20b"
  {
    EncAppend("a", "/");
    EncChar('a');
    UnsafeAsciiEncoded('/');
    assert "a" + "/" == "a/";
    EncSafeUnchanged("eq.a");
    EncAppend("eq.a", " b");
    EncAppend(" ", "b");
    EncChar('b');
    UnsafeAsciiEncoded(' ');
    assert " " + "b" == " b";
    assert "eq.a" + " b" == "eq.a b";
    assert "eq.a" + ("%20" + "b") == "eq.a%20b";
  }

  /** An ASCII character outside the safe set becomes exactly `%XX`; so `/` is `%2F` and `%` is `%25`. */
  lemma UnsafeAsciiEncoded(c: char)
    requires c as int < 128 && !IsSafe(c)
    ensures Enc([c]) == ['%', HexDigit(c as int / 16), HexDigit(c as int % 16)]
    ensures Enc("/") == "%2F" && Enc("%") == "%25" && Enc(" ") == "%20"
  {
    assert [c][1..] == "";
    assert "/"[1..] == "" && "%"[1..] == "" && " "[1..] == "";
  }

  /** Percent-decoding: `%XX` gives that byte; any other character gives its UTF-8 bytes. */
  function PercentDecode(s: string): Option<seq<Byte>>
    decreases |s|
  {
    if |s| == 0 then Some([])
    else if s[0] == '%' then
      if |s| >= 3 && IsHex(s[1]) && IsHex(s[2]) then
        match PercentDecode(s[3..])
        case None => None
        case Some(rest) => Some([HexValue(s[1]) * 16 + HexValue(s[2])] + rest)
      else None
    else
      match PercentDecode(s[1..])
      case None => None
      case Some(rest) => Some(Utf8(s[0]) + rest)
  }

  /** Decoding a run of `%XX` followed by more text yields those bytes followed by the rest's. */
  lemma {:induction false} DecodePercentBytes(bytes: seq<Byte>, t: string)
    ensures PercentDecode(PercentBytes(bytes) + t) ==
      match PercentDecode(t)
      case None => None
      case Some(rest) => Some(bytes + rest)
    decreases |bytes|
  {
    if |bytes| > 0 {
      var s := PercentBytes(bytes) + t;
      var b := bytes[0];
      assert s[0] == '%' && s[1] == HexDigit(b / 16) && s[2] == HexDigit(b % 16);
      assert s[3..] == PercentBytes(bytes[1..]) + t;
      assert HexValue(s[1]) * 16 + HexValue(s[2]) == b;
      DecodePercentBytes(bytes[1..], t);
      match PercentDecode(t)
      case None =>
      case Some(rest) => assert [b] + (bytes[1..] + rest) == bytes + rest;
    } else {
      assert PercentBytes(bytes) + t == t;
      match PercentDecode(t)
      case None =>
      case Some(rest) => assert bytes + rest == rest;
    }
  }

  /** Percent-decoding what `_enc` produces gives back the UTF-8 bytes of the input. */
  lemma {:induction false} EncRoundTrip(q: string)
    ensures PercentDecode(Enc(q)) == Some(Utf8Bytes(q))
    decreases |q|
  {
    if |q| > 0 {
      var c := q[0];
      var t := Enc(q[1..]);
      EncRoundTrip(q[1..]);
      if IsSafe(c) {
        var s := [c] + t;
        assert s[1..] == t;
      } else {
        DecodePercentBytes(Utf8(c), t);
      }
    }
  }

  /** For ASCII input the UTF-8 bytes are the character codes, so decoding returns the input itself. */
  lemma {:induction false} AsciiBytes(q: string)
    requires forall i | 0 <= i < |q| :: q[i] as int < 128
    ensures Utf8Bytes(q) == seq(|q|, i requires 0 <= i < |q| => q[i] as int)
    decreases |q|
  {
    if |q| > 0 {
      AsciiBytes(q[1..]);
    }
  }

  /** `_hdrs(prefer)`: JSON content type, plus `Prefer` when a non-empty prefer string is given. */
  method Hdrs(prefer: Option<string>) returns (h: map<string, string>)
    ensures "Content-Type" in h && h["Content-Type"] == "application/json"
    ensures "Prefer" in h <==> prefer.Some? && prefer.value != ""
    ensures "Prefer" in h ==> h["Prefer"] == prefer.value
    ensures h.Keys <= {"Content-Type", "Prefer"}
  {
    h := map["Content-Type" := "application/json"];
    if prefer.Some? && prefer.value != "" {
      h := h["Prefer" := prefer.value];
    }
  }

  /** `_to_list`: a list stays, a truthy non-list is wrapped, anything falsy is `[]`. */
  function ToList(body: Json.Value): (rows: seq<Json.Value>)
    ensures body.Arr? ==> rows == body.items
    ensures !body.Arr? && Json.Truthy(body) ==> rows == [body]
    ensures !body.Arr? && !Json.Truthy(body) ==> rows == []
  {
    if body.Arr? then body.items else if Json.Truthy(body) then [body] else []
  }

  /** Normalising an already normalised body changes nothing. */
  lemma ToListIdempotent(body: Json.Value)
    ensures ToList(Json.Arr(ToList(body))) == ToList(body)
  {
  }


  /** The clauses of `db_select`'s query, in their fixed order, each only when truthy. */
  function SelectClauses(columns: string, filters: Option<string>, order: Option<string>,
                         limit: Option<int>, offset: Option<int>): seq<string> {
    ["select=" + columns] + FilterClause(filters) + OrderClause(order)
    + PagingClause("limit=", limit) + PagingClause("offset=", offset)
  }

  function FilterClause(filters: Option<string>): seq<string> {
    if Json.GivenText(filters) then [filters.value] else []
  }

  function OrderClause(order: Option<string>): seq<string> {
    if Json.GivenText(order) then ["order=" + order.value] else []
  }

  function PagingClause(name: string, n: Option<int>): seq<string> {
    if Json.GivenInt(n) then [name + Strings.IntToString(n.value)] else []
  }

  function SelectQuery(columns: string, filters: Option<string>, order: Option<string>,
                       limit: Option<int>, offset: Option<int>): string {
    Strings.Join(SelectClauses(columns, filters, order, limit, offset), '&')
  }

  /** One `+=` step: appending `&clause` to a join extends the joined list. */
  lemma JoinSnoc(parts: seq<string>, clause: string)
    requires |parts| >= 1
    ensures Strings.Join(parts + [clause], '&') == Strings.Join(parts, '&') + "&" + clause
  {
    Strings.JoinAppend(parts, [clause], '&');
  }

  /** `db_select`'s query built with successive `+=`. */
  method BuildSelectQuery(columns: string, filters: Option<string>, order: Option<string>,
                          limit: Option<int>, offset: Option<int>) returns (q: string)
    ensures q == SelectQuery(columns, filters, order, limit, offset)
  {
    ghost var parts := ["select=" + columns];
    q := "select=" + columns;
    if filters.Some? && filters.value != "" {
      JoinSnoc(parts, filters.value);
      q := q + "&" + filters.value;
      parts := parts + [filters.value];
    }
    ghost var afterFilter := parts;
    assert afterFilter == ["select=" + columns] + FilterClause(filters);
    if order.Some? && order.value != "" {
      var clause := "order=" + order.value;
      JoinSnoc(parts, clause);
      q := q + "&" + clause;
      parts := parts + [clause];
    }
    ghost var afterOrder := parts;
    assert afterOrder == afterFilter + OrderClause(order);
    if limit.Some? && limit.value != 0 {
      var clause := "limit=" + Strings.IntToString(limit.value);
      JoinSnoc(parts, clause);
      q := q + "&" + clause;
      parts := parts + [clause];
    }
    ghost var afterLimit := parts;
    assert afterLimit == afterOrder + PagingClause("limit=", limit);
    if offset.Some? && offset.value != 0 {
      var clause := "offset=" + Strings.IntToString(offset.value);
      JoinSnoc(parts, clause);
      q := q + "&" + clause;
      parts := parts + [clause];
    }
    assert parts == afterLimit + PagingClause("offset=", offset);
    assert parts == SelectClauses(columns, filters, order, limit, offset);
  }

  /** The query always begins with `select=<columns>`. */
  lemma SelectQueryStartsWithColumns(columns: string, filters: Option<string>, order: Option<string>,
                                     limit: Option<int>, offset: Option<int>)
    ensures var q := SelectQuery(columns, filters, order, limit, offset);
      |q| >= 7 + |columns| && q[..7 + |columns|] == "select=" + columns
  {
    var clauses := SelectClauses(columns, filters, order, limit, offset);
    Strings.JoinAppend([clauses[0]], clauses[1..], '&');
    assert [clauses[0]] + clauses[1..] == clauses;
  }

  /** A limit or offset of 0 is falsy and is left out, exactly as if none were given. */
  lemma ZeroPagingOmitted(columns: string, filters: Option<string>, order: Option<string>,
                          limit: Option<int>, offset: Option<int>)
    ensures SelectQuery(columns, filters, order, Some(0), offset) == SelectQuery(columns, filters, order, None, offset)
    ensures SelectQuery(columns, filters, order, limit, Some(0)) == SelectQuery(columns, filters, order, limit, None)
  {
  }

  /** With no filter, order or paging the query is just the column selection. */
  lemma BareSelect(columns: string)
    ensures SelectQuery(columns, None, None, None, None) == "select=" + columns
  {
    assert SelectClauses(columns, None, None, None, None) == ["select=" + columns];
  }

  const JsonContent := map["Content-Type" := "application/json"]

  /** `db_select`'s request: GET `/<table>?<_enc(q)>` with `Prefer: count=exact`. */
  method SelectRequest(table: string, columns: string, filters: Option<string>, order: Option<string>,
                       limit: Option<int>, offset: Option<int>) returns (req: Dispatch.Request)
    ensures req.verb == Dispatch.GET && req.body == None
    ensures req.path == "/" + table + "?" + Enc(SelectQuery(columns, filters, order, limit, offset))
    ensures req.headers == JsonContent["Prefer" := "count=exact"]
  {
    var q := BuildSelectQuery(columns, filters, order, limit, offset);
    var h := Hdrs(Some("count=exact"));
    req := Dispatch.Request(Dispatch.GET, "/" + table + "?" + Enc(q), h, None);
  }

  /** `"return=representation" if return_data else "return=minimal"`. */
  function Prefer(returnData: bool): (p: string)
    ensures returnData <==> p == "return=representation"
    ensures !returnData <==> p == "return=minimal"
  {
    if returnData then "return=representation" else "return=minimal"
  }

  /** Upsert adds the merge-duplicates resolution to the same choice. */
  function UpsertPrefer(returnData: bool): (p: string)
    ensures returnData ==> p == "return=representation,resolution=merge-duplicates"
    ensures !returnData ==> p == "return=minimal,resolution=merge-duplicates"
  {
    MergeSuffix();
    Prefer(returnData) + ",resolution=merge-duplicates"
  }

  lemma MergeSuffix()
    ensures "return=representation" + ",resolution=merge-duplicates" == "return=representation,resolution=merge-duplicates"
    ensures "return=minimal" + ",resolution=merge-duplicates" == "return=minimal,resolution=merge-duplicates"
  {
  }

  /** `db_insert`'s request: POST `/<table>` with the rows as body. */
  method InsertRequest(table: string, rows: seq<Json.Value>, returnData: bool) returns (req: Dispatch.Request)
    ensures req == Dispatch.Request(Dispatch.POST, "/" + table, JsonContent["Prefer" := Prefer(returnData)],
                                    Some(Json.Arr(rows)))
  {
    var h := Hdrs(Some(Prefer(returnData)));
    req := Dispatch.Request(Dispatch.POST, "/" + table, h, Some(Json.Arr(rows)));
  }

  /** `db_update`'s request: PATCH `/<table>?<_enc(filters)>` with the updates as body. */
  method UpdateRequest(table: string, updates: map<string, Json.Value>, filters: string, returnData: bool)
    returns (req: Dispatch.Request)
    ensures req == Dispatch.Request(Dispatch.PATCH, "/" + table + "?" + Enc(filters),
                                    JsonContent["Prefer" := Prefer(returnData)], Some(Json.Obj(updates)))
  {
    var h := Hdrs(Some(Prefer(returnData)));
    req := Dispatch.Request(Dispatch.PATCH, "/" + table + "?" + Enc(filters), h, Some(Json.Obj(updates)));
  }

  /** `db_delete`'s request: DELETE `/<table>?<_enc(filters)>`, no body. */
  method DeleteRequest(table: string, filters: string, returnData: bool) returns (req: Dispatch.Request)
    ensures req == Dispatch.Request(Dispatch.DELETE, "/" + table + "?" + Enc(filters),
                                    JsonContent["Prefer" := Prefer(returnData)], None)
  {
    var h := Hdrs(Some(Prefer(returnData)));
    req := Dispatch.Request(Dispatch.DELETE, "/" + table + "?" + Enc(filters), h, None);
  }

  /** `db_upsert`'s request: POST `/<table>?on_conflict=<column>`; this path is not percent-encoded. */
  method UpsertRequest(table: string, rows: seq<Json.Value>, onConflict: string, returnData: bool)
    returns (req: Dispatch.Request)
    ensures req == Dispatch.Request(Dispatch.POST, "/" + table + "?on_conflict=" + onConflict,
                                    JsonContent["Prefer" := UpsertPrefer(returnData)], Some(Json.Arr(rows)))
  {
    var h := Hdrs(Some(UpsertPrefer(returnData)));
    req := Dispatch.Request(Dispatch.POST, "/" + table + "?on_conflict=" + onConflict, h, Some(Json.Arr(rows)));
  }

  /** A primary-key value: `str | int`, rendered with `str()`. */
  datatype IdValue = IdText(s: string) | IdInt(i: int) {
    function Render(): string {
      match this
      case IdText(s) => s
      case IdInt(i) => Strings.IntToString(i)
    }
  }

  /** `db_get_by_id`'s request: GET with `select=<columns>&<column>=eq.<id>`, encoded. */
  method GetByIdRequest(table: string, idColumn: string, idValue: IdValue, columns: string)
    returns (req: Dispatch.Request)
    ensures req == Dispatch.Request(Dispatch.GET,
                                    "/" + table + "?" + Enc("select=" + columns + "&" + idColumn + "=eq." + idValue.Render()),
                                    JsonContent["Prefer" := "return=representation"], None)
  {
    var q := "select=" + columns + "&" + idColumn + "=eq." + idValue.Render();
    var h := Hdrs(Some("return=representation"));
    req := Dispatch.Request(Dispatch.GET, "/" + table + "?" + Enc(q), h, None);
  }

  /** `db_rpc`'s request: POST `/rpc/<name>`, no `Prefer`, body `params or {}`. */
  method RpcRequest(functionName: string, params: Option<map<string, Json.Value>>) returns (req: Dispatch.Request)
    ensures req == Dispatch.Request(Dispatch.POST, "/rpc/" + functionName, JsonContent,
                                    Some(Json.Obj(params.GetOr(map[]))))
  {
    var h := Hdrs(None);
    req := Dispatch.Request(Dispatch.POST, "/rpc/" + functionName, h, Some(Json.Obj(params.GetOr(map[]))));
  }

  datatype DbResult = DbResult(success: bool, data: seq<Json.Value>, count: Option<int>, error: Option<string>)

  /** The failure result every tool builds: no rows, no count, the dispatcher's message or the tool's own. */
  function Failed(resp: Dispatch.Response, fallback: string): (r: DbResult)
    ensures !r.success && r.data == [] && r.count.None? && r.error == Some(Dispatch.ErrorMessage(resp, fallback))
  {
    DbResult(false, [], None, Some(Dispatch.ErrorMessage(resp, fallback)))
  }

  /** How a tool reports `count` on success. */
  datatype CountRule =
    | CountReturned     // `len(data)`: select, update
    | CountSent(n: nat) // `len(rows)` of the rows sent: insert, upsert
    | NoCount           // delete, rpc

  /** The result every database tool builds: on success the normalised body and the count its
      rule gives; on failure no rows, no count, and the dispatcher's message or the tool's own. */
  function ResultOf(resp: Dispatch.Response, rule: CountRule, fallback: string): (r: DbResult)
    ensures r.success == resp.success
    ensures r.success ==> r.data == ToList(resp.body) && r.error.None?
    ensures r.success && rule.CountReturned? ==> r.count == Some(|r.data|)
    ensures r.success && rule.CountSent? ==> r.count == Some(rule.n)
    ensures rule.NoCount? ==> r.count.None?
    ensures !r.success ==> r == Failed(resp, fallback)
  {
    if !resp.success then Failed(resp, fallback)
    else
      var data := ToList(resp.body);
      var count := match rule
        case CountReturned => Some(|data|)
        case CountSent(n) => Some(n)
        case NoCount => None;
      DbResult(true, data, count, None)
  }

  function SelectResult(resp: Dispatch.Response): DbResult {
    ResultOf(resp, CountReturned, "Query failed")
  }

  function InsertResult(rows: seq<Json.Value>, resp: Dispatch.Response): DbResult {
    ResultOf(resp, CountSent(|rows|), "Insert failed")
  }

  function UpdateResult(resp: Dispatch.Response): DbResult {
    ResultOf(resp, CountReturned, "Update failed")
  }

  function DeleteResult(resp: Dispatch.Response): DbResult {
    ResultOf(resp, NoCount, "Delete failed")
  }

  function UpsertResult(rows: seq<Json.Value>, resp: Dispatch.Response): DbResult {
    ResultOf(resp, CountSent(|rows|), "Upsert failed")
  }

  function RpcResult(resp: Dispatch.Response): DbResult {
    ResultOf(resp, NoCount, "RPC failed")
  }

  /** The count rule and the failure message of each tool: insert and upsert count the rows
      sent, select and update the rows returned, delete and rpc nothing. */
  lemma ToolResults(rows: seq<Json.Value>, resp: Dispatch.Response)
    ensures resp.success ==> SelectResult(resp).count == Some(|ToList(resp.body)|)
    ensures resp.success ==> UpdateResult(resp).count == Some(|ToList(resp.body)|)
    ensures resp.success ==> InsertResult(rows, resp).count == Some(|rows|)
    ensures resp.success ==> UpsertResult(rows, resp).count == Some(|rows|)
    ensures DeleteResult(resp).count.None? && RpcResult(resp).count.None?
    ensures !resp.success ==>
      SelectResult(resp).error == Some(Dispatch.ErrorMessage(resp, "Query failed")) &&
      InsertResult(rows, resp).error == Some(Dispatch.ErrorMessage(resp, "Insert failed")) &&
      UpdateResult(resp).error == Some(Dispatch.ErrorMessage(resp, "Update failed")) &&
      DeleteResult(resp).error == Some(Dispatch.ErrorMessage(resp, "Delete failed")) &&
      UpsertResult(rows, resp).error == Some(Dispatch.ErrorMessage(resp, "Upsert failed")) &&
      RpcResult(resp).error == Some(Dispatch.ErrorMessage(resp, "RPC failed"))
  {
  }

  /** With `return=minimal` an insert returns no rows yet still counts every row sent. */
  lemma MinimalInsertStillCounts(rows: seq<Json.Value>, resp: Dispatch.Response)
    requires resp.success && !Json.Truthy(resp.body)
    ensures InsertResult(rows, resp).data == [] && InsertResult(rows, resp).count == Some(|rows|)
    ensures SelectResult(resp).count == Some(0)
  {
  }

  datatype DbSingle = DbSingle(success: bool, data: Option<Json.Value>, error: Option<string>)

  /** `db_get_by_id`'s result: the first row of a non-empty list, a dict itself, otherwise "Not found". */
  function GetByIdResult(resp: Dispatch.Response): (r: DbSingle)
    ensures resp.success && resp.body.Arr? && resp.body.items != [] ==> r == DbSingle(true, Some(resp.body.items[0]), None)
    ensures resp.success && resp.body.Obj? ==> r == DbSingle(true, Some(resp.body), None)
    ensures resp.success && !(resp.body.Arr? && resp.body.items != []) && !resp.body.Obj? ==>
      r == DbSingle(false, None, Some("Not found"))
    ensures !resp.success ==> r == DbSingle(false, None, Some(Dispatch.ErrorMessage(resp, "Query failed")))
  {
    if resp.success then
      var body := resp.body;
      if body.Arr? && body.items != [] then DbSingle(true, Some(body.items[0]), None)
      else if body.Obj? then DbSingle(true, Some(body), None)
      else DbSingle(false, None, Some("Not found"))
    else DbSingle(false, None, Some(Dispatch.ErrorMessage(resp, "Query failed")))
  }

  /** A found row is the first row `_to_list` would give, except for an empty dict:
      `db_get_by_id` returns `{}` as found while `_to_list` drops it as falsy. */
  lemma GetByIdAgreesWithToList(resp: Dispatch.Response)
    requires resp.success
    ensures GetByIdResult(resp).success && ToList(resp.body) != [] ==>
      GetByIdResult(resp).data == Some(ToList(resp.body)[0])
    ensures resp.body == Json.EmptyObj ==> GetByIdResult(resp).success && ToList(resp.body) == []
  {
  }
}
