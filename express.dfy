/** The parts of the host framework's request, response and continuation
    that the middleware touches (src/index.ts:50-54, index.ts:11). */
module Express {
  import opened Wrappers
  import opened JavaScript
  import opened Schema

  /** One section of a request: a plain object of properties. */
  type Section = map<string, Value>

  /** The three sections a validator can be configured for. */
  datatype Part = Body | Params | Query

  /** The contents of all three sections at one moment. */
  datatype Sections = Sections(body: Section, params: Section, query: Section) {

    function Get(p: Part): Section
    {
      match p
      case Body => body
      case Params => params
      case Query => query
    }

    /** These sections with p's replaced by m and the other two as they were. */
    function With(p: Part, m: Section): (r: Sections)
      ensures r.Get(p) == m
      ensures forall q | q != p :: r.Get(q) == Get(q)
    {
      match p
      case Body => this.(body := m)
      case Params => this.(params := m)
      case Query => this.(query := m)
    }
  }

  /** A request whose three sections are mutable objects. */
  class Request {
    var body: Section
    var params: Section
    var query: Section

    constructor (body: Section, params: Section, query: Section)
      ensures Current() == Sections(body, params, query)
    {
      this.body := body;
      this.params := params;
      this.query := query;
    }

    function Current(): Sections
      reads this
    {
      Sections(body, params, query)
    }

    /** `Object.assign(request.<p>, source)`: overlays the source's own
        enumerable properties onto section p in place. */
    method Merge(p: Part, source: Value)
      modifies this
      ensures Current() == old(Current()).With(p, Assign(old(Current()).Get(p), source))
    {
      match p
      case Body => body := Assign(body, source);
      case Params => params := Assign(params, source);
      case Query => query := Assign(query, source);
    }
  }

  /** A response: the status code and JSON payload written to it, if any. */
  class Response {
    var statusCode: Option<int>
    var payload: Option<seq<Issue>>

    constructor ()
      ensures statusCode == None && payload == None
    {
      statusCode := None;
      payload := None;
    }

    /** `response.status(code)` */
    method Status(code: int)
      modifies this
      ensures statusCode == Some(code) && payload == old(payload)
    {
      statusCode := Some(code);
    }

    /** `response.json(issues)` */
    method Json(issues: seq<Issue>)
      modifies this
      ensures payload == Some(issues) && statusCode == old(statusCode)
    {
      payload := Some(issues);
    }
  }

  /** The continuation callback, recorded as the list of its calls: `None`
      for `next()`, `Some(err)` for `next(err)`. */
  class Next {
    var calls: seq<Option<Value>>

    constructor ()
      ensures calls == []
    {
      calls := [];
    }

    method Call(err: Option<Value>)
      modifies this
      ensures calls == old(calls) + [err]
    {
      calls := calls + [err];
    }
  }
}
