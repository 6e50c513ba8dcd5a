/**
 * The `/api/predict` route of the web front end: a POST handler that validates
 * four weather fields and answers with a mock prediction, and a GET handler that
 * describes the endpoint.  The random draws and the clock are parameters.
 */
module PredictRoute {
  import opened Js

  /** The request body as `request.json()` leaves it. */
  datatype JsonBody =
    | Unparsable                              // the body is not JSON: `request.json()` rejects
    | JsonNull                                // `null`: destructuring it throws
    | JsonPrimitive                           // a number, string, boolean or array: no such fields
    | JsonObject(fields: map<string, Value>)

  datatype Reply =
    | ErrorReply(error: string)
    | PredictionReply(fireRisk: string, confidence: real, timestamp: string)
    | MessageReply(message: string)

  datatype Response = Response(status: nat, reply: Reply)

  /** The fields the handler destructures, in order. */
  const Required: seq<string> := ["temperature", "humidity", "wind", "rain"]

  /** Property access: a missing property, or any property of a non-object, is `undefined`. */
  function Field(body: JsonBody, name: string): Value
  {
    match body
    case JsonObject(fields) => if name in fields then fields[name] else Undefined
    case _ => Undefined
  }

  /**
   * `POST`: an unreadable or `null` body is a 500; a body any of whose four fields
   * is falsy (absent, empty, `null`, or a genuine 0) is a 400; anything else is a
   * 200 whose risk is "High" exactly when the first draw exceeds one half, whose
   * confidence is the second draw scaled to a percentage, stamped with `now`.
   */
  function Post(body: JsonBody, riskDraw: real, confidenceDraw: real, now: string): (r: Response)
    ensures body.Unparsable? || body.JsonNull? ==>
              r == Response(500, ErrorReply("Internal server error"))
    ensures !body.Unparsable? && !body.JsonNull? ==>
              (r.status == 400 <==> exists f :: f in Required && !Truthy(Field(body, f)))
    ensures r.status == 400 ==> r.reply == ErrorReply("Missing required fields")
    ensures !body.Unparsable? && !body.JsonNull? && (forall f :: f in Required ==> Truthy(Field(body, f))) ==>
              r.status == 200
    ensures r.status == 200 ==>
              && r.reply.PredictionReply?
              && (r.reply.fireRisk == "High" <==> riskDraw > 0.5)
              && (r.reply.fireRisk == "Low" <==> riskDraw <= 0.5)
              && r.reply.timestamp == now
              && r.reply.confidence == confidenceDraw * 100.0
              && (0.0 <= confidenceDraw < 1.0 ==> 0.0 <= r.reply.confidence < 100.0)
    ensures r.status in {200, 400, 500}
  {
    if body.Unparsable? || body.JsonNull? then
      Response(500, ErrorReply("Internal server error"))
    else if !Truthy(Field(body, "temperature")) || !Truthy(Field(body, "humidity"))
         || !Truthy(Field(body, "wind")) || !Truthy(Field(body, "rain")) then
      Response(400, ErrorReply("Missing required fields"))
    else
      Response(200, PredictionReply(if riskDraw > 0.5 then "High" else "Low",
                                    confidenceDraw * 100.0, now))
  }

  /** `GET`: always the same description of the endpoint. */
  function Get(): (r: Response)
    ensures r.status == 200 && r.reply == MessageReply("Prediction API endpoint")
  {
    Response(200, MessageReply("Prediction API endpoint"))
  }

  /**
   * Validation is by truthiness, not presence: a body whose fields are all present
   * is still refused when one of them is 0, while a body of four non-zero numbers
   * is accepted whatever the draws.
   */
  lemma ZeroIsMissing(t: real, h: real, w: real, riskDraw: real, confidenceDraw: real, now: string)
    ensures var body := JsonObject(map["temperature" := Num(0.0), "humidity" := Num(h),
                                       "wind" := Num(w), "rain" := Num(t)]);
      Post(body, riskDraw, confidenceDraw, now).status == 400
    ensures t != 0.0 && h != 0.0 && w != 0.0 ==>
      var body := JsonObject(map["temperature" := Num(t), "humidity" := Num(h),
                                 "wind" := Num(w), "rain" := Num(t)]);
      Post(body, riskDraw, confidenceDraw, now).status == 200
  {
  }

  /** Fields other than the four are ignored: adding one never changes the response. */
  lemma ExtraFieldsIgnored(fields: map<string, Value>, name: string, v: Value,
                           riskDraw: real, confidenceDraw: real, now: string)
    requires name !in Required
    ensures Post(JsonObject(fields[name := v]), riskDraw, confidenceDraw, now)
            == Post(JsonObject(fields), riskDraw, confidenceDraw, now)
  {
    assert forall f :: f in Required ==> Field(JsonObject(fields[name := v]), f) == Field(JsonObject(fields), f);
  }
}
