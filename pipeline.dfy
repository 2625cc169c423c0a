/** An Express route as an ordered list of stages. Each stage either passes the (possibly
    updated) request on with `next()`, writes a response, or forwards an error with
    `next(error)`; the stages run left to right and the first one that does not pass the
    request on decides the outcome. */
module Pipeline {

  datatype Step<R, B, E> = Next(req: R) | Respond(status: int, body: B) | Raise(error: E)

  /** The outcome of running `stages` on `req`: `Next` when every stage passed the request
      on, with the request the last stage passed. No stages pass the request on unchanged,
      a single stage is that stage, and a first stage that answers decides. */
  function Run<R, B, E>(stages: seq<R -> Step<R, B, E>>, req: R): (s: Step<R, B, E>)
    ensures stages == [] ==> s == Next(req)
    ensures !s.Next? ==> stages != []
    ensures stages != [] && !stages[0](req).Next? ==> s == stages[0](req)
    ensures |stages| == 1 ==> s == stages[0](req)
    decreases |stages|
  {
    if stages == [] then Next(req)
    else
      match stages[0](req)
      case Next(r) => Run(stages[1..], r)
      case Respond(status, body) => Respond(status, body)
      case Raise(e) => Raise(e)
  }

  /** Continue with `rest` after an outcome: only a request passed on reaches it. */
  function Then<R, B, E>(s: Step<R, B, E>, rest: seq<R -> Step<R, B, E>>): Step<R, B, E> {
    match s
    case Next(r) => Run(rest, r)
    case Respond(status, body) => Respond(status, body)
    case Raise(e) => Raise(e)
  }

  /** Running two lists back to back is running the first and continuing with the second. */
  lemma {:induction false} RunAppend<R, B, E>(a: seq<R -> Step<R, B, E>>, b: seq<R -> Step<R, B, E>>, req: R)
    ensures Run(a + b, req) == Then(Run(a, req), b)
    decreases |a|
  {
    if a == [] {
      assert a + b == b;
    } else {
      assert (a + b)[0] == a[0];
      assert (a + b)[1..] == a[1..] + b;
      match a[0](req)
      case Next(r) => RunAppend(a[1..], b, r);
      case Respond(_, _) =>
      case Raise(_) =>
    }
  }

  /** A last stage after `a` runs exactly when every stage of `a` passed the request on,
      and then on the request `a` passed; otherwise the answer of `a` stands. */
  lemma RunThenLast<R, B, E>(a: seq<R -> Step<R, B, E>>, last: R -> Step<R, B, E>, req: R)
    ensures Run(a, req).Next? ==> Run(a + [last], req) == last(Run(a, req).req)
    ensures !Run(a, req).Next? ==> Run(a + [last], req) == Run(a, req)
  {
    RunAppend(a, [last], req);
    if Run(a, req).Next? {
      var one: seq<R -> Step<R, B, E>> := [last];
      assert one[1..] == [];
      match last(Run(a, req).req) {
        case Next(r2) => assert Run(one, Run(a, req).req) == Run(one[1..], r2);
        case Respond(_, _) =>
        case Raise(_) =>
      }
    }
  }

  /** Once a prefix of the stages has answered, the later stages never run. */
  lemma StopIgnoresRest<R, B, E>(a: seq<R -> Step<R, B, E>>, b: seq<R -> Step<R, B, E>>, req: R)
    requires !Run(a, req).Next?
    ensures Run(a + b, req) == Run(a, req)
  {
    RunAppend(a, b, req);
  }

  /** An outcome other than `Next` is produced by one stage `k`: every stage before it
      passed the request on, and stage `k` answered on the request it received. */
  lemma {:induction false} StopPoint<R, B, E>(stages: seq<R -> Step<R, B, E>>, req: R) returns (k: nat, r: R)
    requires !Run(stages, req).Next?
    ensures k < |stages|
    ensures Run(stages[..k], req) == Next(r)
    ensures stages[k](r) == Run(stages, req)
    decreases |stages|
  {
    match stages[0](req)
    case Next(r1) =>
      var k1, r2 := StopPoint(stages[1..], r1);
      k, r := k1 + 1, r2;
      assert stages[..k][0] == stages[0];
      assert stages[..k][1..] == stages[1..][..k1];
    case Respond(_, _) =>
      k, r := 0, req;
    case Raise(_) =>
      k, r := 0, req;
  }
}
