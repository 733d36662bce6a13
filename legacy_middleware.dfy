/** The earlier copy of `validateRequest` at the repository root
    (index.ts:10-42). Its control flow is that of the current one; its
    validators are object schemas, so every value they return is a plain
    object and the merge is a plain overlay of its entries. */
module LegacyMiddleware {
  import opened Wrappers
  import opened JavaScript
  import opened Schema
  import opened Express
  import M = Middleware

  /** An object schema's `parseAsync`: it returns the entries of an object. */
  type ObjectParser = Section -> Verdict<Section>

  datatype Validators = Validators(body: Option<ObjectParser>, params: Option<ObjectParser>, query: Option<ObjectParser>)

  /** An object schema seen as a general validator: the object it returns
      becomes a `Value`, what it throws is thrown unchanged. */
  function Widen(parse: ObjectParser): (w: M.Parser)
    ensures forall m :: parse(m).Ok? ==> w(m) == Ok(Obj(parse(m).value))
    ensures forall m :: parse(m).Threw? ==> w(m) == Threw(parse(m).thrown)
  {
    (m: Section) => match parse(m) case Ok(fields) => Ok(Obj(fields)) case Threw(e) => Threw(e)
  }

  function WidenAll(v: Validators): (w: M.Validators)
    ensures forall p :: M.Configured(w, p).Some? <==> Configured(v, p).Some?
  {
    M.Validators(
      match v.body case None => None case Some(f) => Some(Widen(f)),
      match v.params case None => None case Some(f) => Some(Widen(f)),
      match v.query case None => None case Some(f) => Some(Widen(f)))
  }

  function Configured(v: Validators, p: Part): Option<ObjectParser>
  {
    match p
    case Body => v.body
    case Params => v.params
    case Query => v.query
  }

  /** What p's object schema says about p's section as it arrived, seen
      through the widening. */
  lemma CheckWidened(v: Validators, s: Sections, p: Part)
    requires Configured(v, p).Some?
    ensures M.Check(WidenAll(v), s, p) == Some(Widen(Configured(v, p).value)(s.Get(p)))
  {
  }

  /** With no object schema configured, the request is passed on untouched
      with `next()`. */
  lemma NoValidatorsPassThrough(s: Sections)
    ensures M.Validate(WidenAll(Validators(None, None, None)), s) == M.Run(s, [], M.Continue)
  {
    M.NoValidatorsPassThrough(s);
  }

  /** When a reached object schema returns `fields`, its section becomes the
      section that arrived with `fields` written over it: keys the schema
      returns take its values, keys it does not return keep theirs. */
  lemma MergeKeepsUnlistedKeys(v: Validators, s: Sections, p: Part, fields: Section)
    requires M.Reached(WidenAll(v), s, p)
    requires Configured(v, p).Some? && Configured(v, p).value(s.Get(p)) == Ok(fields)
    ensures M.Validate(WidenAll(v), s).sections.Get(p) == s.Get(p) + fields
    ensures forall k | k in s.Get(p) && k !in fields :: M.Validate(WidenAll(v), s).sections.Get(p)[k] == s.Get(p)[k]
    ensures forall k | k in fields :: M.Validate(WidenAll(v), s).sections.Get(p)[k] == fields[k]
  {
    CheckWidened(v, s, p);
    M.MergeSurvives(WidenAll(v), s, p, Obj(fields));
  }

  /** A `ZodError` from any reached section gives a 422 response with the
      error's issues, and `next` is not called; any other thrown value is
      passed to `next` as it is. */
  lemma FailuresAreSorted(v: Validators, s: Sections, p: Part, e: Thrown)
    requires M.Reached(WidenAll(v), s, p)
    requires Configured(v, p).Some? && Configured(v, p).value(s.Get(p)) == Threw(e)
    ensures e.ZodError? ==> M.Validate(WidenAll(v), s).outcome == M.Respond(M.UnprocessableEntity, e.issues)
    ensures e.Other? ==> M.Validate(WidenAll(v), s).outcome == M.Forward(e.error)
  {
    CheckWidened(v, s, p);
    match e
    case ZodError(issues) => M.StructuredFailureResponds(WidenAll(v), s, p, issues);
    case Other(err) => M.OtherFailureForwards(WidenAll(v), s, p, err);
  }

  /** One invocation of the earlier middleware. It does what the current one
      does with the same schemas: body, params, query in order, each merged
      in place before the next starts, then exactly one of `next()`, a 422
      response or `next(err)`. */
  method ValidateRequest(validators: Validators, request: Request, response: Response, next: Next)
    returns (outcome: M.Outcome, invoked: seq<Part>)
    modifies request, response, next
    ensures M.Run(request.Current(), invoked, outcome) == M.Validate(WidenAll(validators), old(request.Current()))
    ensures outcome.Continue? ==> next.calls == old(next.calls) + [None]
    ensures outcome.Forward? ==> next.calls == old(next.calls) + [Some(outcome.error)]
    ensures outcome.Respond? ==> next.calls == old(next.calls)
    ensures response.statusCode == (if outcome.Respond? then Some(M.UnprocessableEntity) else old(response.statusCode))
    ensures response.payload == (if outcome.Respond? then Some(outcome.issues) else old(response.payload))
  {
    ghost var w := WidenAll(validators);
    ghost var g := M.Progress(request.Current(), [], None);
    invoked := [];
    var caught: Option<Thrown> := None;
    label try: {
      if validators.body.Some? {
        invoked := invoked + [Body];
        var verdict := validators.body.value(request.body);
        assert w.body == Some(Widen(validators.body.value));
        if verdict.Threw? {
          caught := Some(verdict.thrown);
          break try;
        }
        request.Merge(Body, Obj(verdict.value));
      }
      g := M.Step(w, Body, g);
      assert g == M.Progress(request.Current(), invoked, None);
      if validators.params.Some? {
        invoked := invoked + [Params];
        var verdict := validators.params.value(request.params);
        assert w.params == Some(Widen(validators.params.value));
        if verdict.Threw? {
          caught := Some(verdict.thrown);
          break try;
        }
        request.Merge(Params, Obj(verdict.value));
      }
      g := M.Step(w, Params, g);
      assert g == M.Progress(request.Current(), invoked, None);
      if validators.query.Some? {
        invoked := invoked + [Query];
        var verdict := validators.query.value(request.query);
        assert w.query == Some(Widen(validators.query.value));
        if verdict.Threw? {
          caught := Some(verdict.thrown);
          break try;
        }
        request.Merge(Query, Obj(verdict.value));
      }
    }
    match caught {
      case None =>
        next.Call(None);
        outcome := M.Continue;
      case Some(ZodError(issues)) =>
        response.Status(M.UnprocessableEntity);
        response.Json(issues);
        outcome := M.Respond(M.UnprocessableEntity, issues);
      case Some(Other(err)) =>
        next.Call(Some(err));
        outcome := M.Forward(err);
    }
  }
}
