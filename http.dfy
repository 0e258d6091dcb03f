/** The HTTP side of the serverless and Express handlers: the response object
    the handlers write to, the request they forward upstream, and the outcome
    of that upstream call, which is an input of the model. */
module Http {
  import opened Json

  type Headers = map<string, string>

  /** What a handler has written once it returns: status, the headers it set
      and the JSON body it sent. */
  datatype Reply = Reply(status: int, headers: Headers, body: Json)

  /** The request a handler passes to `fetch`: always a POST with a JSON body
      (the body is kept as the value that `JSON.stringify` serialises). */
  datatype Outbound = Outbound(url: string, headers: Headers, body: Json)

  /** A handler's whole effect: its reply and the upstream request it made,
      if any. */
  datatype Exchange = Exchange(reply: Reply, sent: Option<Outbound>)

  /** What `fetch` followed by `response.json()` produced. `Failed` covers a
      thrown network error and an upstream body that is not JSON. */
  datatype Upstream = Responded(status: int, body: Json) | Failed

  /** The two headers both serverless handlers set before anything else. */
  const HandlerHeaders: Headers := map[
    "X-Content-Type-Options" := "nosniff",
    "Referrer-Policy" := "no-referrer"]

  /** `response.ok`. */
  predicate StatusOk(status: int)
  {
    200 <= status <= 299
  }

  /** The server response object (`res`): `setHeader`, `status` and `json`
      update it in place. */
  class ServerResponse {
    var statusCode: int
    var headers: Headers
    var body: Option<Json>

    /** A response as the framework hands it to a handler: status 200 and
        nothing written yet. */
    ghost predicate Pristine()
      reads this
    {
      statusCode == 200 && body == None
    }

    constructor ()
      ensures Pristine() && headers == map[]
    {
      statusCode := 200;
      headers := map[];
      body := None;
    }

    /** `res.setHeader(name, value)`. */
    method SetHeader(name: string, value: string)
      modifies this
      ensures headers == old(headers)[name := value]
      ensures statusCode == old(statusCode) && body == old(body)
    {
      headers := headers[name := value];
    }

    /** `res.status(code)`. */
    method Status(code: int)
      modifies this
      ensures statusCode == code
      ensures headers == old(headers) && body == old(body)
    {
      statusCode := code;
    }

    /** `res.json(value)`. */
    method SendJson(value: Json)
      modifies this
      ensures body == Some(value)
      ensures statusCode == old(statusCode) && headers == old(headers)
    {
      body := Some(value);
    }

    /** The response carries exactly `reply` on top of the headers it
        already had. */
    ghost predicate Holds(reply: Reply, before: Headers)
      reads this
    {
      statusCode == reply.status && headers == before + reply.headers
      && body == Some(reply.body)
    }
  }

  /** The two `setHeader` calls both serverless handlers begin with. */
  method SetHandlerHeaders(res: ServerResponse)
    modifies res
    ensures res.headers == old(res.headers) + HandlerHeaders
    ensures res.statusCode == old(res.statusCode) && res.body == old(res.body)
  {
    res.SetHeader("X-Content-Type-Options", "nosniff");
    res.SetHeader("Referrer-Policy", "no-referrer");
  }
}
