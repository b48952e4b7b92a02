/** The HTTP side of the harness as the model sees it. A request is a
    descriptor of what an endpoint operation hands to RestAssured (verb, path
    template, parameters, headers, body); sending it, expanding the template
    and serialising the body are the library's business and are not
    modelled. A response is an abstract record of what the harness reads
    back. */
module Http {
  import opened Wrappers
  import opened Primitives
  import opened Models

  datatype Verb = Get | Post | Put | Delete

  datatype Header = Header(name: string, value: string)

  /** The reusable RestAssured specification an endpoint captures when it is
      constructed (base URL, JSON content negotiation, the logging filter).
      Building it is not modelled; the model only tells specifications apart. */
  datatype RequestSpec = RequestSpec(handle: nat)

  /** Path, query and form parameter values: the ids are Java `Long`s, the
      rest strings. */
  datatype ParamValue = LongValue(l: Long) | StringValue(s: string)

  datatype Param = Param(name: string, value: ParamValue)

  /** The object passed to `.body(...)`. */
  datatype Body = PetBody(pet: Pet) | UserBody(user: User) | OrderBody(order: Order)

  /** A piece of a RestAssured path template: fixed text, or a placeholder
      `{name}` that a path parameter fills in. */
  datatype Segment = Fixed(text: string) | Placeholder(name: string)

  /** A path template, built the way the source builds its path constants:
      by appending to a shorter one. */
  datatype Template = Empty | Append(prefix: Template, last: Segment)

  function SegmentText(seg: Segment): string {
    match seg
    case Fixed(s) => s
    case Placeholder(n) => "{" + n + "}"
  }

  /** The template string as RestAssured is given it. */
  function Render(t: Template): string {
    match t
    case Empty => ""
    case Append(prefix, last) => Render(prefix) + SegmentText(last)
  }

  /** The placeholder names of a template, in order. */
  function Placeholders(t: Template): seq<string> {
    match t
    case Empty => []
    case Append(prefix, Fixed(_)) => Placeholders(prefix)
    case Append(prefix, Placeholder(n)) => Placeholders(prefix) + [n]
  }

  /** One request as an endpoint operation assembles it. The `headers` are
      those the operation adds to what the specification already carries. */
  datatype Request = Request(
    spec: RequestSpec,
    verb: Verb,
    template: Template,
    pathParams: seq<Param>,
    queryParams: seq<Param>,
    formParams: seq<Param>,
    headers: seq<Header>,
    body: Option<Body>)

  /** A request under construction: `given().spec(...)` and the calls after
      it, before the verb is chosen. */
  datatype Draft = Draft(
    spec: RequestSpec,
    pathParams: seq<Param>,
    queryParams: seq<Param>,
    formParams: seq<Param>,
    headers: seq<Header>,
    body: Option<Body>)

  /** `given().spec(spec)`. */
  function Given(spec: RequestSpec): (d: Draft)
    ensures d.spec == spec
    ensures d.pathParams == [] && d.queryParams == [] && d.formParams == [] && d.headers == []
    ensures d.body.None?
  {
    Draft(spec, [], [], [], [], None)
  }

  /** `.pathParam(name, value)`. */
  function PathParam(d: Draft, name: string, value: ParamValue): (e: Draft)
    ensures e.pathParams == d.pathParams + [Param(name, value)]
    ensures e == d.(pathParams := e.pathParams)
  {
    d.(pathParams := d.pathParams + [Param(name, value)])
  }

  /** `.queryParam(name, value)`. */
  function QueryParam(d: Draft, name: string, value: ParamValue): (e: Draft)
    ensures e.queryParams == d.queryParams + [Param(name, value)]
    ensures e == d.(queryParams := e.queryParams)
  {
    d.(queryParams := d.queryParams + [Param(name, value)])
  }

  /** `.formParam(name, value)`. */
  function FormParam(d: Draft, name: string, value: ParamValue): (e: Draft)
    ensures e.formParams == d.formParams + [Param(name, value)]
    ensures e == d.(formParams := e.formParams)
  {
    d.(formParams := d.formParams + [Param(name, value)])
  }

  /** `.header(name, value)`. */
  function WithHeader(d: Draft, name: string, value: string): (e: Draft)
    ensures e.headers == d.headers + [Header(name, value)]
    ensures e == d.(headers := e.headers)
  {
    d.(headers := d.headers + [Header(name, value)])
  }

  /** `.body(object)`. */
  function WithBody(d: Draft, body: Body): (e: Draft)
    ensures e.body == Some(body)
    ensures e == d.(body := e.body)
  {
    d.(body := Some(body))
  }

  /** `.when().get(template)`, `.post(template)`, ... : the request is complete. */
  function Send(d: Draft, verb: Verb, template: Template): (r: Request)
    ensures r.verb == verb && r.template == template
    ensures r.spec == d.spec && r.body == d.body && r.headers == d.headers
    ensures r.pathParams == d.pathParams && r.queryParams == d.queryParams && r.formParams == d.formParams
  {
    Request(d.spec, verb, template, d.pathParams, d.queryParams, d.formParams, d.headers, d.body)
  }

  function ParamNames(ps: seq<Param>): (names: seq<string>)
    ensures |names| == |ps| && forall i | 0 <= i < |ps| :: names[i] == ps[i].name
  {
    seq(|ps|, i requires 0 <= i < |ps| => ps[i].name)
  }

  /** The path parameters fill the template's placeholders one for one, in
      order: none is missing and none is left over. */
  predicate PathParamsBound(r: Request) {
    Placeholders(r.template) == ParamNames(r.pathParams)
  }

  /** A JSON scalar at a path of the response body. */
  datatype Json = JNull | JBool(b: bool) | JInt(i: int) | JString(s: string)

  /** What the harness reads from a RestAssured response: status code,
      headers, content type, the body as text, the elapsed time in
      milliseconds, and the body as a map from JSON path to scalar. */
  datatype Response = Response(
    statusCode: int,
    headers: seq<Header>,
    contentType: string,
    body: string,
    time: nat,
    fields: map<string, Json>)

  /** The value at a path; RestAssured reads a path that is not there as null. */
  function Field(r: Response, path: string): (v: Json)
    ensures path !in r.fields ==> v == JNull
    ensures path in r.fields ==> v == r.fields[path]
  {
    if path in r.fields then r.fields[path] else JNull
  }
}
