/**
  What the core sees of `net/http` and of the logging sink: the inbound
  request as a value, the response writer as a recorder of the calls made on
  it, and the logger as the list of tagged lines sent to it.
 */
module Transport {
  import opened Values

  const StatusOK := 200
  const StatusNotFound := 404
  const StatusInternalServerError := 500

  /**
    An inbound request. `query` is `URL.Query()` (the parsed `rawQuery`);
    `header` is keyed by canonical header names, as `net/http` stores it.
    The body stream is not here: whoever reads it is given it.
   */
  datatype Request = Request(
    httpMethod: string,
    path: string,
    rawQuery: string,
    query: map<string, seq<string>>,
    header: map<string, seq<string>>,
    remoteAddr: string)

  /** `GetUrlParam`: the first value given for `key` in the query, or "" when there is none. */
  function QueryValue(query: map<string, seq<string>>, key: string): (v: string)
    ensures key in query && |query[key]| > 0 ==> v == query[key][0]
    ensures key !in query || query[key] == [] ==> v == ""
  {
    if key in query && |query[key]| > 0 then query[key][0] else ""
  }

  /** A byte that may appear in a header name (an RFC 7230 token character). */
  predicate IsTokenChar(c: char)
  {
    ('a' <= c <= 'z') || ('A' <= c <= 'Z') || ('0' <= c <= '9')
    || c in {'!', '#', '$', '%', '&', '\'', '*', '+', '-', '.', '^', '_', '`', '|', '~'}
  }

  predicate IsLetter(c: char) { 'a' <= c <= 'z' || 'A' <= c <= 'Z' }

  /** A letter turned upper case when `upper` holds and lower case otherwise; any other character kept. */
  function Recase(c: char, upper: bool): (d: char)
    ensures !IsLetter(c) ==> d == c
    ensures IsLetter(c) ==> IsLetter(d) && ('A' <= d <= 'Z' <==> upper)
    ensures d == c || d as int == c as int + 32 || d as int == c as int - 32
  {
    if upper && 'a' <= c <= 'z' then (c as int - 32) as char
    else if !upper && 'A' <= c <= 'Z' then (c as int + 32) as char
    else c
  }

  /**
    The canonicalising pass over a header name: the first character is
    upper-cased when `upper` holds, and every character after a '-' is
    upper-cased; every other letter is lower-cased.
   */
  function CanonicalFrom(k: string, upper: bool): (r: string)
    ensures |r| == |k|
    ensures forall i :: 0 <= i < |k| ==> r[i] == Recase(k[i], if i == 0 then upper else k[i - 1] == '-')
  {
    if k == [] then []
    else [Recase(k[0], upper)] + CanonicalFrom(k[1..], k[0] == '-')
  }

  /**
    `textproto.CanonicalMIMEHeaderKey`: the first letter and every letter
    after a '-' upper case, the others lower case; a name holding a byte
    that is not a token character is left as it is.
   */
  function CanonicalHeaderKey(k: string): string
  {
    if forall i :: 0 <= i < |k| ==> IsTokenChar(k[i]) then CanonicalFrom(k, true) else k
  }

  /**
    A name of token characters comes back with the same letters, a letter
    upper case exactly when it is the first character or follows a '-', and
    every other character unchanged; any other name comes back as it is.
   */
  lemma CanonicalHeaderKeySpec(k: string)
    ensures var r := CanonicalHeaderKey(k);
      && |r| == |k|
      && ((exists i :: 0 <= i < |k| && !IsTokenChar(k[i])) ==> r == k)
      && ((forall i :: 0 <= i < |k| ==> IsTokenChar(k[i])) ==>
            forall i :: 0 <= i < |k| ==>
              && (!IsLetter(k[i]) ==> r[i] == k[i])
              && (IsLetter(k[i]) ==> IsLetter(r[i]) && ('A' <= r[i] <= 'Z' <==> i == 0 || k[i - 1] == '-')))
  {
  }

  /** The lower-case name the logging middleware asks for reads the header stored as "Uuid". */
  lemma CanonicalUuid()
    ensures CanonicalHeaderKey("uuid") == "Uuid"
  {
    var k := "uuid";
    assert forall i :: 0 <= i < |k| ==> IsTokenChar(k[i]);
    var r := CanonicalFrom(k, true);
    assert r[0] == 'U' && r[1] == 'u' && r[2] == 'i' && r[3] == 'd';
    assert r == "Uuid";
  }

  /** `Header.Get(key)`: the first value stored under the canonical form of `key`, or "". */
  function HeaderValue(header: map<string, seq<string>>, key: string): (v: string)
    ensures var ck := CanonicalHeaderKey(key);
      v == if ck in header && |header[ck]| > 0 then header[ck][0] else ""
  {
    QueryValue(header, CanonicalHeaderKey(key))
  }

  /** A call made on an `http.ResponseWriter`. */
  datatype WriterOp =
    | AddHeader(name: string, value: string)   // w.Header().Add(name, value)
    | WriteHeader(status: int)                 // w.WriteHeader(status)
    | Write(data: seq<Byte>)                   // w.Write(data)

  /** An `http.ResponseWriter`, recording every call made on it in order. */
  class ResponseWriter {
    var ops: seq<WriterOp>

    constructor ()
      ensures ops == []
    {
      ops := [];
    }

    method AddHeader(name: string, value: string)
      modifies this
      ensures ops == old(ops) + [WriterOp.AddHeader(name, value)]
    {
      ops := ops + [WriterOp.AddHeader(name, value)];
    }

    method WriteHeader(status: int)
      modifies this
      ensures ops == old(ops) + [WriterOp.WriteHeader(status)]
    {
      ops := ops + [WriterOp.WriteHeader(status)];
    }

    method Write(data: seq<Byte>)
      modifies this
      ensures ops == old(ops) + [WriterOp.Write(data)]
    {
      ops := ops + [WriterOp.Write(data)];
    }
  }

  /** One call `log.Log(tag, fields...)`, each field already formatted as text. */
  datatype LogLine = LogLine(tag: string, fields: seq<string>)

  /** The process-wide logging sink, as the list of lines sent to it. */
  class Logger {
    var lines: seq<LogLine>

    constructor ()
      ensures lines == []
    {
      lines := [];
    }

    method Log(tag: string, fields: seq<string>)
      modifies this
      ensures lines == old(lines) + [LogLine(tag, fields)]
    {
      lines := lines + [LogLine(tag, fields)];
    }
  }
}
