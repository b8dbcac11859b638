/**
 * What a handler sends back, the queries it issues and what the database
 * answers. A body built with `resM(code, message)` is kept symbolic as `Resm`
 * and turned into the JSON envelope by ResponseManager.Render.
 */
module Http {
  import opened Js

  datatype Body = Json(value: Value) | Resm(code: int, message: Option<string>)

  /** `res.status(status).send(body)`; `res.send(body)` alone sends status 200. */
  datatype Response = Response(status: int, body: Body)

  /** A parameterised SQL statement: a label naming the statement text, and its bound parameters. */
  datatype Query = Query(stmt: string, params: seq<Value>)

  /** What the database callback receives: an error, or the result rows. */
  datatype DbResult = DbError | Rows(rows: seq<Value>)

  /** `res.status(code).send(resM(code))` */
  function Status(code: int): Response {
    Response(code, Resm(code, None))
  }
}

/** tools/response-manager.js: the uniform `{error, code}` / `{message}` envelope. */
module ResponseManager {
  import opened Js
  import opened Http

  /** `message || resList[code] || fallback`, where resList maps codes to default texts. */
  function Pick(resList: map<int, string>, code: int, message: Option<string>, fallback: string): string {
    if message.Some? && message.value != "" then message.value
    else if code in resList && resList[code] != "" then resList[code]
    else fallback
  }

  /**
   * resM(code, message): codes from 300 up (300 included) are errors and carry
   * their code; lower codes are confirmations with only a message. resList is
   * only read.
   */
  function Envelope(resList: map<int, string>, code: int, message: Option<string>): (r: Value)
    ensures r.Obj?
    ensures code >= 300 <==> "error" in r.fields
    ensures code >= 300 ==> r.fields.Keys == {"error", "code"} && r.fields["code"] == Num(code as real)
    ensures code < 300 ==> r.fields.Keys == {"message"}
    ensures message.Some? && message.value != "" ==>
              (if code >= 300 then r.fields["error"] else r.fields["message"]) == Str(message.value)
    ensures (message.None? || message.value == "") && code in resList && resList[code] != "" ==>
              (if code >= 300 then r.fields["error"] else r.fields["message"]) == Str(resList[code])
    ensures (message.None? || message.value == "") && (code !in resList || resList[code] == "") ==>
              (if code >= 300 then r.fields["error"] == Str("Error.") else r.fields["message"] == Str("Ok"))
  {
    if code >= 300 then
      Obj(map["error" := Str(Pick(resList, code, message, "Error.")), "code" := Num(code as real)])
    else
      Obj(map["message" := Str(Pick(resList, code, message, "Ok"))])
  }

  /** The JSON a response body becomes on the wire. */
  function Render(resList: map<int, string>, body: Body): Value {
    match body
    case Json(v) => v
    case Resm(code, message) => Envelope(resList, code, message)
  }

  /**
   * Every `res.status(c).send(resM(c))` with c >= 300 renders to an error
   * envelope whose code field is the status itself.
   */
  lemma StatusEnvelope(resList: map<int, string>, code: int)
    requires code >= 300
    ensures var e := Render(resList, Status(code).body);
            Field(e, "code") == Num(code as real) && Field(e, "error").Str?
  {
  }

  /**
   * The write routes of the catalogue routers (POST, PUT, PATCH and DELETE)
   * are not implemented: each answers `res.status(405).send(resM(405))`,
   * whatever the request, which reaches the client as status 405 with the
   * error envelope of code 405.
   */
  lemma NotAllowed(resList: map<int, string>)
    ensures Status(405).status == 405
    ensures Render(resList, Status(405).body)
            == Obj(map["error" := Str(Pick(resList, 405, None, "Error.")), "code" := Num(405 as real)])
  {
  }
}
