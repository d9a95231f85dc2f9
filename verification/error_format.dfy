/**
 The two places where src/index.ts turns a failure into a wire-level error:
 the GraphQL endpoint's `customFormatErrorFn`, and the final Express
 error-handling middleware that answers every REST route. They are modelled
 as written, so that what they share and where they differ can be stated.
 */
module ErrorFormat {

  import opened Options
  import opened Js

  /** The message the GraphQL formatter substitutes for a falsy one (the
      spelling is the server's). */
  const GenericMessage: string := "An error has ocurred"

  /** The status the GraphQL formatter substitutes for a falsy one. */
  const DefaultStatus: int := 500

  /** An error thrown by a resolver or a route. The source declares a
      `StatusError` with a status and optional data, but nothing enforces
      that at run time, so every field is an arbitrary JavaScript value:
      a plain `Error` arrives with `status` and `data` undefined. */
  datatype StatusError = StatusError(message: JsValue, status: JsValue, data: JsValue)

  /** A GraphQL error as handed to the formatter. Whether `originalError` is
      present is decided by the GraphQL library; errors raised by resolvers
      carry one. */
  datatype GraphqlError = GraphqlError(
    message: string,
    path: seq<JsValue>,
    originalError: Option<StatusError>)

  /** What the formatter hands back to the GraphQL layer: the error itself,
      or the object literal `{ message, status, data }`. */
  datatype Formatted =
    | Unchanged(error: GraphqlError)
    | Shaped(message: JsValue, status: JsValue, data: JsValue)
  {
    /** The object literal `{ message, status, data }`, as a JavaScript object. */
    function Body(): (o: JsValue)
      requires Shaped?
      ensures o.Obj? && Keys(o.entries) == ["message", "status", "data"]
      ensures Get(o.entries, "message") == message
      ensures Get(o.entries, "status") == status
      ensures Get(o.entries, "data") == data
    {
      Obj([("message", message), ("status", status), ("data", data)])
    }
  }

  /** The REST error handler's reply: the HTTP status passed to
      `res.status` and the object passed to `res.json`. */
  datatype HttpReply = HttpReply(status: JsValue, body: JsValue)

  /** `customFormatErrorFn`. An error without an original error goes out
      untouched. Otherwise each of the three fields of the original error
      is kept when it is truthy and replaced by its default (empty array,
      generic message, status 500) when it is falsy. */
  function FormatGraphqlError(e: GraphqlError): (r: Formatted)
    ensures r == Unchanged(e) <==> e.originalError.None?
    ensures e.originalError.Some? ==>
              var o := e.originalError.value;
              && r.Shaped?
              && (r.status == o.status <==> Truthy(o.status))
              && (!Truthy(o.status) ==> r.status == Num(DefaultStatus))
              && (r.message == o.message <==> Truthy(o.message))
              && (!Truthy(o.message) ==> r.message == Str(GenericMessage))
              && (r.data == o.data <==> Truthy(o.data))
              && (!Truthy(o.data) ==> r.data == Arr([]))
  {
    match e.originalError
    case None => Unchanged(e)
    case Some(o) =>
      var data := Or(o.data, Arr([]));
      var message := Or(o.message, Str(GenericMessage));
      var status := Or(o.status, Num(DefaultStatus));
      Shaped(message, status, data)
  }

  /** The Express error-handling middleware: the HTTP status is the error's
      `status` exactly as found, and the body is `{ message }`. */
  function RenderRestError(se: StatusError): (r: HttpReply)
    ensures r.status == se.status
    ensures r.body.Obj? && Keys(r.body.entries) == ["message"]
    ensures Get(r.body.entries, "message") == se.message
  {
    HttpReply(se.status, Obj([("message", se.message)]))
  }

  /** A formatted GraphQL error always has all three fields truthy: a
      client never sees an empty message, a zero or missing status, or a
      missing data field. */
  lemma ShapedFieldsTruthy(e: GraphqlError)
    requires e.originalError.Some?
    ensures var r := FormatGraphqlError(e);
            r.Shaped? && Truthy(r.message) && Truthy(r.status) && Truthy(r.data)
  {
  }

  /** The expected shape of a thrown error: a string message, a numeric or
      missing status, and an array or missing data. */
  predicate DeclaredShape(se: StatusError) {
    && se.message.Str?
    && (se.status.Num? || se.status.Undefined?)
    && (se.data.Arr? || se.data.Undefined?)
  }

  /** For an error of the expected shape the GraphQL formatter produces a
      non-empty string message, a non-zero integer status and an array,
      and keeps each original field that was already of that kind. */
  lemma DeclaredShapeFormatsToWireShape(e: GraphqlError)
    requires e.originalError.Some? && DeclaredShape(e.originalError.value)
    ensures var r := FormatGraphqlError(e);
            var o := e.originalError.value;
            && r.Shaped?
            && r.message.Str? && |r.message.s| > 0
            && r.status.Num? && r.status.n != 0
            && r.data.Arr?
            && (|o.message.s| > 0 ==> r.message == o.message)
            && (o.status.Num? && o.status.n != 0 ==> r.status == o.status)
            && (o.status == Num(0) || o.status == Undefined ==> r.status == Num(500))
            && (o.data.Arr? ==> r.data == o.data)
  {
  }

  /** Formatting is idempotent: an error whose original error already
      carries a formatted triple formats to that same triple. */
  lemma FormatIdempotent(e: GraphqlError)
    requires e.originalError.Some?
    ensures var r := FormatGraphqlError(e);
            var again := GraphqlError(e.message, e.path, Some(StatusError(r.message, r.status, r.data)));
            FormatGraphqlError(again) == r
  {
  }

  /** The REST handler applies no defaulting: whatever status the error
      carries, `undefined` and `0` included, becomes the HTTP status, and
      the body never carries `data` or `status`. */
  lemma RestAppliesNoDefaults(se: StatusError)
    ensures var r := RenderRestError(se);
            && r.status == se.status
            && Get(r.body.entries, "data") == Undefined
            && Get(r.body.entries, "status") == Undefined
  {
  }

  /** The two transports never render the same body for the same thrown
      error: the GraphQL body always has a truthy `data`, the REST body has
      none. */
  lemma TransportBodiesDiffer(e: GraphqlError)
    requires e.originalError.Some?
    ensures var g := FormatGraphqlError(e);
            var r := RenderRestError(e.originalError.value);
            && Truthy(Get(g.Body().entries, "data"))
            && Get(r.body.entries, "data") == Undefined
            && g.Body() != r.body
  {
  }

  /** The status the GraphQL body reports agrees with the REST HTTP status
      exactly when the thrown status is truthy; likewise for the message. */
  lemma TransportsAgreeIffTruthy(e: GraphqlError)
    requires e.originalError.Some?
    ensures var g := FormatGraphqlError(e);
            var r := RenderRestError(e.originalError.value);
            && (g.status == r.status <==> Truthy(e.originalError.value.status))
            && (g.message == Get(r.body.entries, "message") <==> Truthy(e.originalError.value.message))
  {
  }

  /** A failure with no message and no status: GraphQL answers 500 with
      the generic message and empty data, REST passes an undefined status
      to `res.status` and an empty message. */
  lemma UnclassifiedFailure()
    ensures var se := StatusError(Str(""), Undefined, Undefined);
            var g := FormatGraphqlError(GraphqlError("", [], Some(se)));
            && g == Shaped(Str(GenericMessage), Num(500), Arr([]))
            && RenderRestError(se) == HttpReply(Undefined, Obj([("message", Str(""))]))
  {
  }

  /** A not-found error with status 404: both transports report 404 and the
      same message, but only the GraphQL body carries `status` and `data`. */
  lemma NotFoundOnBothTransports()
    ensures var se := StatusError(Str("Not found"), Num(404), Undefined);
            var g := FormatGraphqlError(GraphqlError("Not found", [], Some(se)));
            var r := RenderRestError(se);
            && g.Body() == Obj([("message", Str("Not found")), ("status", Num(404)), ("data", Arr([]))])
            && r == HttpReply(Num(404), Obj([("message", Str("Not found"))]))
  {
  }
}
