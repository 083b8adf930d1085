/**
  The text rules of the request-logging middleware of the `http` package
  (`http/server.go`): which address is logged as the client's, how a large
  response is summarised, how the path and query are joined, and how empty
  fields are shown.
 */
module LogFormat {
  import opened Strings
  import opened Strconv

  /** `str`: an empty field is logged as "-". */
  function Str(v: string): (r: string)
    ensures r != ""
    ensures v == "" ==> r == "-"
    ensures v != "" ==> r == v
  {
    if v == "" then "-" else v
  }

  /**
    The client address: the first comma-separated entry of
    `X-Forwarded-For` (not trimmed), else `X-Real-Ip`, else the connection's
    remote address.
   */
  function ClientIp(forwardedFor: string, realIp: string, remoteAddr: string): (ip: string)
    ensures FirstField(forwardedFor, ',') != "" ==> ip == FirstField(forwardedFor, ',')
    ensures FirstField(forwardedFor, ',') == "" && realIp != "" ==> ip == realIp
    ensures FirstField(forwardedFor, ',') == "" && realIp == "" ==> ip == remoteAddr
  {
    var ip := if forwardedFor != "" then FirstField(forwardedFor, ',') else "";
    if ip != "" then ip else if realIp != "" then realIp else remoteAddr
  }

  /** The largest response logged as it is, and how much of a larger one is kept. */
  const MaxLoggedResponse := 500
  const LoggedHead := 100

  const TooLargePrefix := "response is too large (with "
  const HeadIs := " bytes, head is "

  /** The logged form of a response: itself up to 500 bytes, else its size and its first 100 bytes. */
  function Summarize(resp: string): (r: string)
    ensures |resp| <= MaxLoggedResponse ==> r == resp
    ensures |resp| > MaxLoggedResponse ==> TooLargePrefix <= r && r[|r| - 4..] == "...)"
  {
    if |resp| > MaxLoggedResponse then
      TooLargePrefix + FormatInt(|resp|) + HeadIs + resp[..LoggedHead] + "...)"
    else resp
  }

  /** The logged path: `path?raw`, or the bare path when the query is empty. */
  function PathWithQuery(path: string, raw: string): string
  {
    if raw != "" then path + "?" + raw else path
  }

  /** The fields of the `REQ` line, without the clock-derived time and latency. */
  function RequestLogFields(ip: string, httpMethod: string, path: string, traceId: string, uuid: string,
                            req: string, resp: string): (fields: seq<string>)
    ensures |fields| == 7 && fields[0] == ip
  {
    [ip, Str(httpMethod), Str(path), Str(traceId), Str(uuid),
     "\"\"\"" + Str(req) + "\"\"\"", "\"\"\"" + Str(resp) + "\"\"\""]
  }

  // ----- what the rules promise -----

  /** `str` changes only the empty string, which becomes "-", and is idempotent. */
  lemma StrSpec(v: string)
    ensures Str(v) == v <==> v != ""
    ensures Str("") == "-"
    ensures Str(Str(v)) == Str(v)
  {
  }

  /**
    The address taken from `X-Forwarded-For` is a prefix of it holding no
    comma; the logged address is empty only when all three sources are.
   */
  lemma ClientIpSpec(forwardedFor: string, realIp: string, remoteAddr: string)
    ensures var ip := ClientIp(forwardedFor, realIp, remoteAddr);
      FirstField(forwardedFor, ',') != "" ==> ip <= forwardedFor && ',' !in ip
    ensures ClientIp(forwardedFor, realIp, remoteAddr) == "" <==>
      FirstField(forwardedFor, ',') == "" && realIp == "" && remoteAddr == ""
  {
  }

  /** A header that begins with a comma falls through to `X-Real-Ip`, as the empty first entry is skipped. */
  lemma LeadingCommaFallsThrough(rest: string, realIp: string, remoteAddr: string)
    requires realIp != ""
    ensures ClientIp("," + rest, realIp, remoteAddr) == realIp
  {
  }

  /**
    A summary of a large response is short whatever the response, begins
    with the response's first 100 bytes after the size, and the size it
    reports reads back as the response's length.
   */
  lemma {:induction false} SummaryOfLargeResponse(resp: string)
    requires MaxLoggedResponse < |resp| <= MaxInt64
    ensures var r := Summarize(resp);
      var d := FormatInt(|resp|);
      && r[..|TooLargePrefix|] == TooLargePrefix
      && r[|TooLargePrefix|..|TooLargePrefix| + |d|] == d
      && ParseInt(d) == Parsed(|resp|, NoError)
      && r[|TooLargePrefix| + |d| + |HeadIs|..|TooLargePrefix| + |d| + |HeadIs| + LoggedHead] == resp[..LoggedHead]
      && |r| == |TooLargePrefix| + |d| + |HeadIs| + LoggedHead + 4
  {
    ParseFormatRoundTrip(|resp|);
  }

  /** The path is kept in front, and what follows the '?' is exactly the raw query. */
  lemma PathWithQuerySpec(path: string, raw: string)
    ensures raw == "" ==> PathWithQuery(path, raw) == path
    ensures path <= PathWithQuery(path, raw)
    ensures raw != "" ==> PathWithQuery(path, raw)[|path|] == '?' && PathWithQuery(path, raw)[|path| + 1..] == raw
  {
  }

  /**
    The address is logged as given; method, path, trace id and uuid are
    logged as given, or "-" when empty; body and response are wrapped in
    triple quotes, an empty one showing as `"""-"""`.
   */
  lemma RequestLogFieldsSpec(ip: string, httpMethod: string, path: string, traceId: string, uuid: string, req: string, resp: string)
    ensures var f := RequestLogFields(ip, httpMethod, path, traceId, uuid, req, resp);
      && |f| == 7 && f[0] == ip
      && f[1] == (if httpMethod == "" then "-" else httpMethod)
      && f[2] == (if path == "" then "-" else path)
      && f[3] == (if traceId == "" then "-" else traceId)
      && f[4] == (if uuid == "" then "-" else uuid)
      && (forall i :: 1 <= i < 5 ==> f[i] != "")
      && f[5] == "\"\"\"" + (if req == "" then "-" else req) + "\"\"\""
      && f[6] == "\"\"\"" + (if resp == "" then "-" else resp) + "\"\"\""
      && (req == "" ==> f[5] == "\"\"\"-\"\"\"")
      && (resp == "" ==> f[6] == "\"\"\"-\"\"\"")
  {
  }
}
