/** The pure helpers of the credential-handle smoke test: reading a required
    environment variable, encoding a credential blob as unpadded base64url,
    decoding the payload segment of a JWT (JWS Compact Serialization,
    section 7.1 of RFC 7515) and the final pass/fail decision on its claims.
    The HTTP calls to the admin API and the token endpoint are outside the
    model; their results (the handle, the access token) are inputs. */
module SmokeClient {
  import opened Wrappers
  import Strings
  import Base64Url
  import Json

  /** `_env(name, default=...)` over the process environment `env`.
      `os.getenv` returns a present variable even when it is empty, so an empty
      variable raises whatever the default. */
  function Env(env: map<string, string>, name: string, default: Option<string>): (r: Result<string>)
    ensures r.Ok? ==> r.value != ""
    ensures r.Ok? <==> (name in env && env[name] != "") || (name !in env && default.Some? && default.value != "")
    ensures r.Ok? ==> r.value == if name in env then env[name] else default.value
    ensures r.Err? ==> r.error == "Missing required env var: " + name
  {
    var value := if name in env then Some(env[name]) else default;
    if value.None? || value.value == "" then Err("Missing required env var: " + name)
    else Ok(value.value)
  }

  /** `_base64url_random_bytes`, applied to the bytes `os.urandom` would supply:
      the padded encoding with its trailing `=` stripped. */
  function EncodeCredential(bytes: seq<Base64Url.Byte>): (s: string)
    ensures s == Base64Url.EncodeBody(bytes)
    ensures forall i | 0 <= i < |s| :: Base64Url.IsAlphabet(s[i]) && s[i] != '='
    ensures |s| == 4 * (|bytes| / 3) + (if |bytes| % 3 == 0 then 0 else if |bytes| % 3 == 1 then 2 else 3)
  {
    Base64Url.PaddedIsBodyThenPad(bytes);
    var body := Base64Url.EncodeBody(bytes);
    Strings.RStripPadding(body, '=', Base64Url.PadCount(|bytes|));
    Strings.RStrip(Base64Url.EncodePadded(bytes), '=')
  }

  /** The 700-byte blob the smoke test registers encodes to 934 characters,
      above the roughly 500 the admin API demands. */
  lemma CredentialLength(bytes: seq<Base64Url.Byte>)
    requires |bytes| == 700
    ensures |EncodeCredential(bytes)| == 934 >= 500
  {
  }

  /** `"=" * (-len(segment) % 4)`: what restores a stripped segment to a multiple of four. */
  function PaddingFor(segment: string): (pad: string)
    ensures |pad| <= 3 && (|segment| + |pad|) % 4 == 0
    ensures forall i | 0 <= i < |pad| :: pad[i] == '='
  {
    Strings.Repeat('=', (-|segment|) % 4)
  }

  const NotAJwt := "Not a JWT (expected at least 2 dot-separated segments)"
  const BadBase64 := "Incorrect padding"

  /** `_decode_jwt_payload` up to the raw payload bytes (JSON parsing is not
      modelled here): split on `.`, take the second segment, restore its
      padding and base64url-decode it. */
  function DecodeJwtPayload(token: string): (r: Result<seq<Base64Url.Byte>>)
    ensures r == Err(NotAJwt) <==> '.' !in token
  {
    Strings.SplitHasTwoIff(token, '.');
    var parts := Strings.Split(token, '.');
    if |parts| < 2 then Err(NotAJwt)
    else
      var segment := parts[1];
      match Base64Url.Decode(segment + PaddingFor(segment))
      case None => Err(BadBase64)
      case Some(raw) => Ok(raw)
  }

  /** Only the second segment matters: a signature, or any further segments, never change the result. */
  lemma SecondSegmentOnly(header: string, payload: string, rest: string)
    requires '.' !in header && '.' !in payload
    ensures DecodeJwtPayload(header + "." + payload + "." + rest) == DecodeJwtPayload(header + "." + payload)
  {
    var long := header + "." + payload + "." + rest;
    var short := header + "." + payload;
    assert long == header + ['.'] + (payload + ['.'] + rest);
    Strings.SplitCons(header, '.', payload + ['.'] + rest);
    Strings.SplitCons(payload, '.', rest);
    assert short == header + ['.'] + payload;
    Strings.SplitCons(header, '.', payload);
    Strings.SplitNoSep(payload, '.');
    assert Strings.Split(long, '.')[1] == payload == Strings.Split(short, '.')[1];
  }

  /** Restoring the padding of a stripped encoding and decoding it returns the original bytes. */
  lemma SegmentRoundTrip(bytes: seq<Base64Url.Byte>)
    ensures var s := EncodeCredential(bytes); Base64Url.Decode(s + PaddingFor(s)) == Some(bytes)
  {
    var s := EncodeCredential(bytes);
    var n := |bytes|;
    PadLength(n, |s|);
    assert PaddingFor(s) == Strings.Repeat('=', Base64Url.PadCount(n));
    Base64Url.PaddedIsBodyThenPad(bytes);
    assert s + PaddingFor(s) == Base64Url.EncodePadded(bytes);
    Base64Url.DecodeEncode(bytes);
  }

  /** The padding `-len % 4` restores to a stripped encoding of n bytes is the `=` count of the padded one. */
  lemma PadLength(n: nat, len: int)
    requires len == 4 * (n / 3) + (if n % 3 == 0 then 0 else if n % 3 == 1 then 2 else 3)
    ensures (-len) % 4 == Base64Url.PadCount(n)
  {
    var q: int := n / 3;
    if n % 3 == 0 {
      assert -len == 4 * (-q);
    } else if n % 3 == 1 {
      assert -len == 4 * (-q - 1) + 2;
    } else {
      assert -len == 4 * (-q - 1) + 1;
    }
  }

  /** A token whose payload segment is the stripped encoding of `bytes` decodes to `bytes`,
      whatever its header and signature. */
  lemma JwtPayloadRoundTrip(header: string, bytes: seq<Base64Url.Byte>, signature: string)
    requires '.' !in header
    ensures DecodeJwtPayload(header + "." + EncodeCredential(bytes) + "." + signature) == Ok(bytes)
  {
    var payload := EncodeCredential(bytes);
    assert '.' !in payload by {
      forall i | 0 <= i < |payload| ensures payload[i] != '.' {
        assert Base64Url.IsAlphabet(payload[i]);
      }
    }
    SecondSegmentOnly(header, payload, signature);
    var short := header + "." + payload;
    assert short == header + ['.'] + payload;
    Strings.SplitCons(header, '.', payload);
    Strings.SplitNoSep(payload, '.');
    SegmentRoundTrip(bytes);
  }

  const AudMismatch := 2
  const ConnectionsMismatch := 3
  const Passed := 0

  /** The claim checks at the end of `main`.  `claims.get` on a non-dict raises.
      The audience is checked first, then `ddls:connections[name] == handle`. */
  function CheckClaims(claims: Json.Value, resource: string, name: string, handle: string): (r: Result<int>)
    ensures r.Err? <==> !claims.Obj?
    ensures r == Ok(AudMismatch) <==>
      claims.Obj? && Json.Get(claims.fields, "aud", Json.Null) != Json.Str(resource)
    ensures r == Ok(ConnectionsMismatch) <==>
      claims.Obj? && Json.Get(claims.fields, "aud", Json.Null) == Json.Str(resource) &&
      !BindsHandle(Json.Get(claims.fields, "ddls:connections", Json.Null), name, handle)
    ensures r == Ok(Passed) <==>
      claims.Obj? && Json.Get(claims.fields, "aud", Json.Null) == Json.Str(resource) &&
      BindsHandle(Json.Get(claims.fields, "ddls:connections", Json.Null), name, handle)
  {
    if !claims.Obj? then Err("AttributeError")
    else
      var connections := Json.Get(claims.fields, "ddls:connections", Json.Null);
      if Json.Get(claims.fields, "aud", Json.Null) != Json.Str(resource) then Ok(AudMismatch)
      else if !BindsHandle(connections, name, handle) then Ok(ConnectionsMismatch)
      else Ok(Passed)
  }

  /** `isinstance(connections, dict) and connections.get(name) == handle`. */
  predicate BindsHandle(connections: Json.Value, name: string, handle: string) {
    connections.Obj? && Json.Get(connections.fields, name, Json.Null) == Json.Str(handle)
  }

  /** A wrong audience reports 2 whatever `ddls:connections` holds. */
  lemma AudienceCheckedFirst(fields: map<string, Json.Value>, resource: string, name: string, handle: string,
                             connections: Json.Value)
    requires Json.Get(fields, "aud", Json.Null) != Json.Str(resource)
    ensures CheckClaims(Json.Obj(fields["ddls:connections" := connections]), resource, name, handle) == Ok(AudMismatch)
  {
    assert Json.Get(fields["ddls:connections" := connections], "aud", Json.Null) == Json.Get(fields, "aud", Json.Null);
  }

  /** The claims issued for `{name: handle}` under `resource`. */
  function IssuedClaims(resource: string, name: string, handle: string): Json.Value {
    Json.Obj(map["aud" := Json.Str(resource), "ddls:connections" := Json.Obj(map[name := Json.Str(handle)])])
  }

  /** The whole decision after the HTTP calls: decode the token, parse the
      payload with `parse` (standing for `json.loads(raw.decode())`) and check it. */
  function SmokeOutcome(accessToken: string, parse: seq<Base64Url.Byte> -> Result<Json.Value>,
                        resource: string, name: string, handle: string): (r: Result<int>)
    ensures '.' !in accessToken ==> r == Err(NotAJwt)
  {
    var raw :- DecodeJwtPayload(accessToken);
    var claims :- parse(raw);
    CheckClaims(claims, resource, name, handle)
  }

  /** End to end: a token carrying the claims issued for this resource and this
      handle passes, and a connection name it does not carry fails with 3. */
  lemma IssuedTokenPasses(header: string, payload: seq<Base64Url.Byte>, signature: string,
                          parse: seq<Base64Url.Byte> -> Result<Json.Value>,
                          resource: string, name: string, handle: string, other: string)
    requires '.' !in header
    requires parse(payload) == Ok(IssuedClaims(resource, name, handle))
    requires other != name
    ensures var token := header + "." + EncodeCredential(payload) + "." + signature;
      SmokeOutcome(token, parse, resource, name, handle) == Ok(Passed) &&
      SmokeOutcome(token, parse, resource, other, handle) == Ok(ConnectionsMismatch)
  {
    JwtPayloadRoundTrip(header, payload, signature);
  }
}
