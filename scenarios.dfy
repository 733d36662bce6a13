/** The three cases of src/index.test.ts, as clients of the middleware's
    contract: what a caller can conclude about `next` and the response from
    `ValidateRequest`'s specification alone. */
module Scenarios {
  import opened Wrappers
  import opened JavaScript
  import opened Schema
  import opened Express
  import opened Middleware

  /** Every section conforms: `next()` is called once with no argument and
      the response is not written (src/index.test.ts:24-41). */
  method AllSectionsValid()
  {
    var request := new Request(
      map["name" := Str("Alice"), "age" := Num(30.0)],
      map["id" := Str("123e4567-e89b-12d3-a456-426614174000")],
      map["search" := Str("test")]);
    var response := new Response();
    var next := new Next();
    var accept: Parser := (m: Section) => Ok(Obj(m));
    var outcome, invoked := ValidateRequest(Validators(Some(accept), Some(accept), Some(accept)), request, response, next);
    assert invoked == [Body, Params, Query];
    assert outcome == Continue;
    assert next.calls == [None];
    assert response.statusCode == None;
  }

  /** The body's `age` is not a number: a 422 response carrying the issue
      for path ["age"], and `next` is not called (src/index.test.ts:43-57). */
  method InvalidBody()
  {
    var request := new Request(map["name" := Str("Alice"), "age" := Str("not-a-number")], map[], map[]);
    var response := new Response();
    var next := new Next();
    var issue := Issue("invalid_type", [Key("age")], "Expected number, received string");
    var reject: Parser := (m: Section) => Threw(ZodError([issue]));
    var outcome, invoked := ValidateRequest(Validators(Some(reject), None, None), request, response, next);
    assert outcome == Respond(422, [issue]);
    assert response.statusCode == Some(422);
    assert response.payload == Some([issue]);
    assert next.calls == [];
    assert request.Current().body == map["name" := Str("Alice"), "age" := Str("not-a-number")];
  }

  /** A validator that throws a plain error: the error is passed to `next`
      and the response is not written (src/index.test.ts:59-74). */
  method FaultyValidator()
  {
    var request := new Request(map[], map[], map[]);
    var response := new Response();
    var next := new Next();
    var error := Obj(map["message" := Str("Unexpected error")]);
    var faulty: Parser := (m: Section) => Threw(Other(error));
    var outcome, invoked := ValidateRequest(Validators(Some(faulty), None, None), request, response, next);
    assert outcome == Forward(error);
    assert next.calls == [Some(error)];
    assert response.statusCode == None && response.payload == None;
  }

  /** A schema coerces `age` from a string to a number: the body keeps its
      other properties and takes the coerced value. */
  method CoercedBodyMerged()
  {
    var request := new Request(map["name" := Str("Alice"), "age" := Str("30"), "trace" := Bool(true)], map[], map[]);
    var response := new Response();
    var next := new Next();
    var coerce: Parser := (m: Section) => Ok(Obj(map["name" := Str("Alice"), "age" := Num(30.0)]));
    var outcome, invoked := ValidateRequest(Validators(Some(coerce), None, None), request, response, next);
    assert outcome == Continue;
    assert request.body == map["name" := Str("Alice"), "age" := Num(30.0), "trace" := Bool(true)];
  }

  /** The body passes and is merged, then params fail: the merged body
      stays, and the query validator is never called. */
  method LaterFailureKeepsEarlierMerge()
  {
    var request := new Request(map["age" := Str("30")], map["id" := Str("x")], map[]);
    var response := new Response();
    var next := new Next();
    var issue := Issue("invalid_string", [Key("id")], "Invalid uuid");
    var coerce: Parser := (m: Section) => Ok(Obj(map["age" := Num(30.0)]));
    var reject: Parser := (m: Section) => Threw(ZodError([issue]));
    var accept: Parser := (m: Section) => Ok(Obj(m));
    var outcome, invoked := ValidateRequest(Validators(Some(coerce), Some(reject), Some(accept)), request, response, next);
    assert invoked == [Body, Params];
    assert outcome == Respond(422, [issue]);
    assert request.body == map["age" := Num(30.0)];
    assert request.params == map["id" := Str("x")];
    assert next.calls == [];
  }
}
