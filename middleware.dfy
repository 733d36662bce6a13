/** The request-validation middleware returned by `validateRequest`
    (src/index.ts:45-85): validate and merge body, then params, then query;
    the first thrown value stops everything and is answered with a 422
    response when it is a `ZodError` and forwarded to `next` otherwise. */
module Middleware {
  import opened Wrappers
  import opened JavaScript
  import opened Schema
  import opened Express

  /** A configured validator: its `parseAsync`, as a function of the section
      it is given. Its result may be any value. */
  type Parser = Section -> Verdict<Value>

  /** The middleware's configuration: an optional validator per section. */
  datatype Validators = Validators(body: Option<Parser>, params: Option<Parser>, query: Option<Parser>)

  /** The status code of a structured validation failure. */
  const UnprocessableEntity := 422

  /** The one terminal action of an invocation: `next()`, a response with a
      status and the issue list, or `next(err)`. */
  datatype Outcome = Continue | Respond(status: int, issues: seq<Issue>) | Forward(error: Value)

  /** Everything one invocation does: the sections it leaves behind, the
      parts whose validator it called, in call order, and its outcome. */
  datatype Run = Run(sections: Sections, invoked: seq<Part>, outcome: Outcome)

  function Configured(v: Validators, p: Part): Option<Parser>
  {
    match p
    case Body => v.body
    case Params => v.params
    case Query => v.query
  }

  /** The position of a part in the fixed processing order. */
  function Rank(p: Part): nat
  {
    match p
    case Body => 0
    case Params => 1
    case Query => 2
  }

  /** The catch clause: a `ZodError` becomes a 422 response carrying its
      issues as they are; anything else is forwarded to `next`. */
  function Catch(e: Thrown): (o: Outcome)
    ensures !o.Continue?
    ensures o.Respond? <==> e.ZodError?
    ensures o.Respond? ==> o.status == UnprocessableEntity && o.issues == e.issues
    ensures o.Forward? ==> o.error == e.error
  {
    match e
    case ZodError(issues) => Respond(UnprocessableEntity, issues)
    case Other(err) => Forward(err)
  }

  /** The state inside the `try` block: the sections so far, the validators
      called so far, and what has been thrown, if anything. */
  datatype Progress = Progress(sections: Sections, invoked: seq<Part>, caught: Option<Thrown>)

  /** One `if (validators.<p>) { Object.assign(...) }` block of the `try`. */
  function Step(v: Validators, p: Part, g: Progress): (r: Progress)
    ensures g.caught.Some? ==> r == g
    ensures Configured(v, p).None? ==> r == g
    ensures g.caught.None? && Configured(v, p).Some? ==> r.invoked == g.invoked + [p]
    ensures r.caught.None? ==> r.invoked == g.invoked || r.invoked == g.invoked + [p]
    ensures forall q | q != p :: r.sections.Get(q) == g.sections.Get(q)
    ensures r.caught.Some? && g.caught.None? ==> r.sections == g.sections
    ensures g.caught.None? && Configured(v, p).Some? && Configured(v, p).value(g.sections.Get(p)).Ok? ==>
              r.caught.None? && r.sections.Get(p) == Assign(g.sections.Get(p), Configured(v, p).value(g.sections.Get(p)).value)
    ensures g.caught.None? && Configured(v, p).Some? && Configured(v, p).value(g.sections.Get(p)).Threw? ==>
              r.caught == Some(Configured(v, p).value(g.sections.Get(p)).thrown)
  {
    if g.caught.Some? then g
    else match Configured(v, p)
      case None => g
      case Some(parse) =>
        match parse(g.sections.Get(p))
        case Ok(x) =>
          Progress(g.sections.With(p, Assign(g.sections.Get(p), x)), g.invoked + [p], None)
        case Threw(e) =>
          Progress(g.sections, g.invoked + [p], Some(e))
  }

  /** What the middleware does to a request with sections s. */
  function Validate(v: Validators, s: Sections): (r: Run)
    ensures forall p | p in r.invoked :: Configured(v, p).Some?
    ensures r.outcome.Continue? ==> forall p | Configured(v, p).Some? :: p in r.invoked
    ensures r.outcome.Respond? ==> r.outcome.status == UnprocessableEntity
    ensures |r.invoked| <= 3
  {
    var g := Step(v, Query, Step(v, Params, Step(v, Body, Progress(s, [], None))));
    Run(g.sections, g.invoked, match g.caught case None => Continue case Some(e) => Catch(e))
  }

  // ---------------------------------------------------------------------
  // A reference description of the same behaviour, part by part.

  /** What p's validator says about p's section as the request arrived, or
      None when p has no validator. */
  function Check(v: Validators, s: Sections, p: Part): Option<Verdict<Value>>
  {
    match Configured(v, p)
    case None => None
    case Some(parse) => Some(parse(s.Get(p)))
  }

  /** p's section gets through: it has no validator or its validator
      returns a value. */
  predicate Passes(v: Validators, s: Sections, p: Part)
  {
    Check(v, s, p).None? || Check(v, s, p).value.Ok?
  }

  /** Processing gets as far as p: every part before p gets through. */
  predicate Reached(v: Validators, s: Sections, p: Part)
  {
    forall q | Rank(q) < Rank(p) :: Passes(v, s, q)
  }

  /** The first part, in processing order, whose validator throws. */
  function FirstFailure(v: Validators, s: Sections): (r: Option<Part>)
    ensures r.None? <==> forall p :: Passes(v, s, p)
    ensures r.Some? ==> Reached(v, s, r.value) && !Passes(v, s, r.value)
  {
    if !Passes(v, s, Body) then Some(Body)
    else if !Passes(v, s, Params) then Some(Params)
    else if !Passes(v, s, Query) then Some(Query)
    else None
  }

  /** What the first failing validator threw, if any validator failed. */
  function FirstThrown(v: Validators, s: Sections): (r: Option<Thrown>)
    ensures r.None? <==> forall p :: Passes(v, s, p)
  {
    match FirstFailure(v, s)
    case None => None
    case Some(p) => Some(Check(v, s, p).value.thrown)
  }

  /** The parts whose validator is called: those configured and reached. */
  predicate Called(v: Validators, s: Sections, p: Part)
  {
    Configured(v, p).Some? && Reached(v, s, p)
  }

  function CalledList(v: Validators, s: Sections, p: Part): seq<Part>
  {
    if Called(v, s, p) then [p] else []
  }

  /** p's section after the invocation: overlaid with its validator's result
      when p is reached and passes, as it arrived otherwise. */
  function Settled(v: Validators, s: Sections, p: Part): Section
  {
    if Reached(v, s, p) && Check(v, s, p).Some? && Check(v, s, p).value.Ok?
    then Assign(s.Get(p), Check(v, s, p).value.value)
    else s.Get(p)
  }

  function Reference(v: Validators, s: Sections): Run
  {
    Run(Sections(Settled(v, s, Body), Settled(v, s, Params), Settled(v, s, Query)),
        CalledList(v, s, Body) + CalledList(v, s, Params) + CalledList(v, s, Query),
        match FirstThrown(v, s) case None => Continue case Some(e) => Catch(e))
  }

  /** The step-by-step middleware and the part-by-part description agree. */
  lemma ValidateMatchesReference(v: Validators, s: Sections)
    ensures Validate(v, s) == Reference(v, s)
  {
  }

  // ---------------------------------------------------------------------
  // Properties of one invocation.

  /** With no validator configured the middleware is a pass-through: it
      calls no validator, changes no section and continues. */
  lemma NoValidatorsPassThrough(s: Sections)
    ensures Validate(Validators(None, None, None), s) == Run(s, [], Continue)
  {
    ValidateMatchesReference(Validators(None, None, None), s);
  }

  /** The outcome is decided by the first validator that throws, and only by
      it: continue when none throws, a 422 response with exactly its issues
      when it throws a `ZodError`, `next(err)` with exactly the thrown value
      otherwise. */
  lemma OutcomeIsFirstThrown(v: Validators, s: Sections)
    ensures Validate(v, s).outcome == Continue <==> FirstThrown(v, s) == None
    ensures forall issues :: Validate(v, s).outcome == Respond(UnprocessableEntity, issues)
                             <==> FirstThrown(v, s) == Some(ZodError(issues))
    ensures forall err :: Validate(v, s).outcome == Forward(err)
                          <==> FirstThrown(v, s) == Some(Other(err))
    ensures Validate(v, s).outcome.Respond? ==> Validate(v, s).outcome.status == UnprocessableEntity
  {
    ValidateMatchesReference(v, s);
  }

  /** `next()` is reached exactly when every configured validator returns a
      value, and then every configured validator has been called. */
  lemma ContinueIffEveryPartPasses(v: Validators, s: Sections)
    ensures Validate(v, s).outcome == Continue <==> forall p :: Passes(v, s, p)
    ensures Validate(v, s).outcome == Continue ==>
              forall p :: p in Validate(v, s).invoked <==> Configured(v, p).Some?
  {
    ValidateMatchesReference(v, s);
  }

  /** The called parts, listed in processing order, are in increasing rank,
      and every one but the last passes. */
  lemma CalledListInOrder(v: Validators, s: Sections)
    ensures var inv := CalledList(v, s, Body) + CalledList(v, s, Params) + CalledList(v, s, Query);
      && (forall i, j | 0 <= i < j < |inv| :: Rank(inv[i]) < Rank(inv[j]))
      && (forall p :: p in inv <==> Called(v, s, p))
      && (forall i | 0 <= i < |inv| - 1 :: Passes(v, s, inv[i]))
  {
    var inv := CalledList(v, s, Body) + CalledList(v, s, Params) + CalledList(v, s, Query);
    var b, p, q := Called(v, s, Body), Called(v, s, Params), Called(v, s, Query);
    // A part that is called was reached, so every part before it passed.
    assert p ==> Passes(v, s, Body);
    assert q ==> Passes(v, s, Body) && Passes(v, s, Params);
    if b && p && q {
      assert inv == [Body, Params, Query];
    } else if b && p {
      assert inv == [Body, Params];
    } else if b && q {
      assert inv == [Body, Query];
    } else if p && q {
      assert inv == [Params, Query];
    } else if b {
      assert inv == [Body];
    } else if p {
      assert inv == [Params];
    } else if q {
      assert inv == [Query];
    } else {
      assert inv == [];
    }
  }

  /** Validators are called in the order body, params, query, each at most
      once; a validator is called exactly when it is configured and every
      earlier one returned a value; every call but the last returned a
      value. */
  lemma InvokedInOrder(v: Validators, s: Sections)
    ensures var inv := Validate(v, s).invoked;
      && (forall i, j | 0 <= i < j < |inv| :: Rank(inv[i]) < Rank(inv[j]))
      && (forall p :: p in inv <==> Called(v, s, p))
      && (forall i | 0 <= i < |inv| - 1 :: Passes(v, s, inv[i]))
  {
    ValidateMatchesReference(v, s);
    CalledListInOrder(v, s);
  }

  /** A `ZodError` from a reached validator stops processing there: no
      later validator runs, no later section changes, and the response is a
      422 carrying that validator's issues unchanged. */
  lemma StructuredFailureResponds(v: Validators, s: Sections, p: Part, issues: seq<Issue>)
    requires Reached(v, s, p)
    requires Check(v, s, p) == Some(Threw(ZodError(issues)))
    ensures Validate(v, s).outcome == Respond(UnprocessableEntity, issues)
    ensures |Validate(v, s).invoked| > 0 && Validate(v, s).invoked[|Validate(v, s).invoked| - 1] == p
    ensures forall q | Rank(p) <= Rank(q) :: Validate(v, s).sections.Get(q) == s.Get(q)
  {
    ValidateMatchesReference(v, s);
    assert FirstFailure(v, s) == Some(p);
  }

  /** Any other thrown value from a reached validator is forwarded, as it
      is, as the single argument of `next`; no later validator runs and no
      later section changes. */
  lemma OtherFailureForwards(v: Validators, s: Sections, p: Part, err: Value)
    requires Reached(v, s, p)
    requires Check(v, s, p) == Some(Threw(Other(err)))
    ensures Validate(v, s).outcome == Forward(err)
    ensures |Validate(v, s).invoked| > 0 && Validate(v, s).invoked[|Validate(v, s).invoked| - 1] == p
    ensures forall q | Rank(p) <= Rank(q) :: Validate(v, s).sections.Get(q) == s.Get(q)
  {
    ValidateMatchesReference(v, s);
    assert FirstFailure(v, s) == Some(p);
  }

  /** Once a reached validator returns x, its section ends up as the section
      that arrived overlaid with x, whatever happens later: a later failure
      does not roll the merge back. */
  lemma MergeSurvives(v: Validators, s: Sections, p: Part, x: Value)
    requires Reached(v, s, p)
    requires Check(v, s, p) == Some(Ok(x))
    ensures Validate(v, s).sections.Get(p) == Assign(s.Get(p), x)
    ensures forall k | k in OwnEntries(x) :: Validate(v, s).sections.Get(p)[k] == OwnEntries(x)[k]
    ensures forall k | k in s.Get(p) && k !in OwnEntries(x) :: Validate(v, s).sections.Get(p)[k] == s.Get(p)[k]
  {
    ValidateMatchesReference(v, s);
  }

  /** A section whose validator returns an object it already contains (input
      that conformed to the schema exactly, possibly with unknown keys
      stripped) is left as it was. */
  lemma ConformingSectionUnchanged(v: Validators, s: Sections, p: Part, fields: map<string, Value>)
    requires Reached(v, s, p)
    requires Check(v, s, p) == Some(Ok(Obj(fields)))
    requires forall k | k in fields :: k in s.Get(p) && s.Get(p)[k] == fields[k]
    ensures Validate(v, s).sections.Get(p) == s.Get(p)
  {
    MergeSurvives(v, s, p, Obj(fields));
    AssignConformingIsNoOp(s.Get(p), fields);
  }

  /** A generic schema may return a value that is not an object. When it
      returns `undefined`, `null`, a boolean or a number, the validation
      passes but `Object.assign` copies nothing; when it returns an array or
      a string, its elements land under the keys "0", "1", .... */
  lemma NonObjectResultMerge(v: Validators, s: Sections, p: Part, x: Value)
    requires Reached(v, s, p)
    requires Check(v, s, p) == Some(Ok(x))
    ensures !(x.Obj? || x.Arr? || x.Str?) ==> Validate(v, s).sections.Get(p) == s.Get(p)
    ensures x.Arr? ==> forall i | 0 <= i < |x.elems| ::
              IndexKey(i) in Validate(v, s).sections.Get(p) && Validate(v, s).sections.Get(p)[IndexKey(i)] == x.elems[i]
    ensures x.Str? ==> forall i | 0 <= i < |x.s| ::
              IndexKey(i) in Validate(v, s).sections.Get(p) && Validate(v, s).sections.Get(p)[IndexKey(i)] == Str([x.s[i]])
  {
    MergeSurvives(v, s, p, x);
    if x.Arr? {
      forall i | 0 <= i < |x.elems|
        ensures IndexKey(i) in Validate(v, s).sections.Get(p) && Validate(v, s).sections.Get(p)[IndexKey(i)] == x.elems[i]
      {
        assert IndexKey(i) in IndexKeys(|x.elems|);
      }
    } else if x.Str? {
      forall i | 0 <= i < |x.s|
        ensures IndexKey(i) in Validate(v, s).sections.Get(p) && Validate(v, s).sections.Get(p)[IndexKey(i)] == Str([x.s[i]])
      {
        assert IndexKey(i) in IndexKeys(|x.s|);
      }
    }
  }

  /** Sections that are not reached, and sections whose validator is
      missing or throws, keep exactly what arrived. */
  lemma UntouchedSections(v: Validators, s: Sections, p: Part)
    requires !Reached(v, s, p) || !Passes(v, s, p) || Configured(v, p).None?
    ensures Validate(v, s).sections.Get(p) == s.Get(p)
  {
    ValidateMatchesReference(v, s);
  }

  // ---------------------------------------------------------------------
  // The middleware itself.

  /** One invocation of the middleware on a request, a response and a
      continuation. Its effect on the request and its outcome are those of
      `Validate`; `next` is called exactly once, with no argument or with the
      thrown value, unless the outcome is a 422 response, which is then the
      only thing written to the response. */
  method ValidateRequest(validators: Validators, request: Request, response: Response, next: Next)
    returns (outcome: Outcome, invoked: seq<Part>)
    modifies request, response, next
    ensures Run(request.Current(), invoked, outcome) == Validate(validators, old(request.Current()))
    ensures outcome.Continue? ==> next.calls == old(next.calls) + [None]
    ensures outcome.Forward? ==> next.calls == old(next.calls) + [Some(outcome.error)]
    ensures outcome.Respond? ==> next.calls == old(next.calls)
    ensures response.statusCode == (if outcome.Respond? then Some(UnprocessableEntity) else old(response.statusCode))
    ensures response.payload == (if outcome.Respond? then Some(outcome.issues) else old(response.payload))
  {
    ghost var g := Progress(request.Current(), [], None);
    invoked := [];
    var caught: Option<Thrown> := None;
    label try: {
      if validators.body.Some? {
        invoked := invoked + [Body];
        var verdict := validators.body.value(request.body);
        if verdict.Threw? {
          caught := Some(verdict.thrown);
          break try;
        }
        request.Merge(Body, verdict.value);
      }
      g := Step(validators, Body, g);
      assert g == Progress(request.Current(), invoked, None);
      if validators.params.Some? {
        invoked := invoked + [Params];
        var verdict := validators.params.value(request.params);
        if verdict.Threw? {
          caught := Some(verdict.thrown);
          break try;
        }
        request.Merge(Params, verdict.value);
      }
      g := Step(validators, Params, g);
      assert g == Progress(request.Current(), invoked, None);
      if validators.query.Some? {
        invoked := invoked + [Query];
        var verdict := validators.query.value(request.query);
        if verdict.Threw? {
          caught := Some(verdict.thrown);
          break try;
        }
        request.Merge(Query, verdict.value);
      }
    }
    match caught {
      case None =>
        next.Call(None);
        outcome := Continue;
      case Some(ZodError(issues)) =>
        response.Status(UnprocessableEntity);
        response.Json(issues);
        outcome := Respond(UnprocessableEntity, issues);
      case Some(Other(err)) =>
        next.Call(Some(err));
        outcome := Forward(err);
    }
  }
}
