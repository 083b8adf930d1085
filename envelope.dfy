/**
  The response envelope of `router.go`: the `ErrorResponse` struct that
  handlers return to report a failure, `ReturnError` that builds one, and
  the `{"status": 0, "data": ...}` map written on success.
 */
module Envelope {
  import opened Values

  /**
    `ErrorResponse` with its JSON tags `status`, `message,omitempty` and
    `data,omitempty`. `data` is an `interface{}`: `JNull` is the nil one.
   */
  datatype ErrorResponse = ErrorResponse(status: int, message: string, data: Json)

  /** `ReturnError(status, err)`: the error's text becomes the message; no data. */
  function ReturnError(status: int, errText: string): ErrorResponse
  {
    ErrorResponse(status, errText, JNull)
  }

  /** The JSON object `encoding/json` builds from an `ErrorResponse`: fields in declaration order, empty ones omitted. */
  function ErrorJson(e: ErrorResponse): Json
  {
    JObj([("status", JNum(e.status))]
      + (if e.message == "" then [] else [("message", JStr(e.message))])
      + (if e.data == JNull then [] else [("data", e.data)]))
  }

  /** The success map `{"status": 0, "data": data}`; `encoding/json` writes map keys sorted. */
  function SuccessJson(data: Json): Json
  {
    JObj([("data", data), ("status", JNum(0))])
  }

  /** The encoded error carries its status, its message only when non-empty, and its data only when non-nil. */
  lemma ErrorJsonFields(e: ErrorResponse)
    ensures Field(ErrorJson(e), "status") == Some(JNum(e.status))
    ensures Field(ErrorJson(e), "message") == if e.message == "" then None else Some(JStr(e.message))
    ensures Field(ErrorJson(e), "data") == if e.data == JNull then None else Some(e.data)
  {
    var st, msg, dt := ("status", JNum(e.status)), ("message", JStr(e.message)), ("data", e.data);
    if e.message == "" && e.data == JNull {
      assert ErrorJson(e).fields == [st];
    } else if e.message == "" {
      assert ErrorJson(e).fields == [st, dt];
      assert [st, dt][1..] == [dt];
      assert FieldOf([st, dt], "data") == FieldOf([dt], "data");
    } else if e.data == JNull {
      assert ErrorJson(e).fields == [st, msg];
      assert [st, msg][1..] == [msg];
      assert FieldOf([st, msg], "message") == FieldOf([msg], "message");
    } else {
      assert ErrorJson(e).fields == [st, msg, dt];
      assert [st, msg, dt][1..] == [msg, dt];
      assert [msg, dt][1..] == [dt];
      assert FieldOf([st, msg, dt], "message") == FieldOf([msg, dt], "message");
      assert FieldOf([st, msg, dt], "data") == FieldOf([msg, dt], "data") == FieldOf([dt], "data");
    }
  }

  /** An error built by `ReturnError` encodes as its status and its text, never with data. */
  lemma ReturnErrorJson(status: int, errText: string)
    ensures Field(ErrorJson(ReturnError(status, errText)), "status") == Some(JNum(status))
    ensures Field(ErrorJson(ReturnError(status, errText)), "data") == None
    ensures errText != "" ==> Field(ErrorJson(ReturnError(status, errText)), "message") == Some(JStr(errText))
  {
    ErrorJsonFields(ReturnError(status, errText));
  }

  /** The success map has status 0 and the given data, and no message. */
  lemma SuccessJsonFields(data: Json)
    ensures Field(SuccessJson(data), "status") == Some(JNum(0))
    ensures Field(SuccessJson(data), "data") == Some(data)
    ensures Field(SuccessJson(data), "message") == None
  {
    var dt, st := ("data", data), ("status", JNum(0));
    assert SuccessJson(data).fields == [dt, st];
    assert [dt, st][1..] == [st];
    assert FieldOf([dt, st], "status") == FieldOf([st], "status");
  }
}
