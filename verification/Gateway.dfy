/** The gateway to the language models: a cache keyed by what the answer depends on, retries,
    and one telemetry record for each call. */
module Gateway {

  datatype Request = Request(
    actor: string, prompt: string, category: string, taskType: string, parameters: map<string, string>)

  datatype Route = Route(provider: string, model: string)

  /** The fields that the cache key digests; the digest is taken to be injective. */
  datatype CacheKey = CacheKey(
    model: string, provider: string, prompt: string, category: string, taskType: string,
    parameters: map<string, string>)

  datatype Response = Response(text: string, model: string, provider: string, cached: bool, attempts: int)

  datatype Outcome = Success | Failure

  datatype Telemetry = Telemetry(
    actor: string, category: string, taskType: string, provider: string, model: string, cached: bool, attempts: int,
    outcome: Outcome)

  /** How a call ends: with a response, with the error after the last attempt, or with the
      missing provider's. */
  datatype Reply = Answered(response: Response) | Exhausted | NoProvider

  function KeyOf(request: Request, route: Route): CacheKey {
    CacheKey(route.model, route.provider, request.prompt, request.category, request.taskType, request.parameters)
  }

  function Record(request: Request, route: Route, response: Response, outcome: Outcome): Telemetry {
    Telemetry(request.actor, request.category, request.taskType, route.provider, route.model, response.cached,
              response.attempts, outcome)
  }

  ghost function Attempts(telemetry: seq<Telemetry>): int {
    if telemetry == [] then 0 else Attempts(telemetry[..|telemetry| - 1]) + telemetry[|telemetry| - 1].attempts
  }

  /** The first attempt, counted from 1, that does not fail; `most + 1` if the first `most` all
      do. */
  ghost function FirstSuccess(fails: nat -> bool, most: nat): (a: nat)
    ensures 1 <= a <= most + 1 && (a <= most ==> !fails(a)) && forall i | 1 <= i < a :: fails(i)
  {
    if most == 0 then 1
    else
      var a := FirstSuccess(fails, most - 1);
      if a <= most - 1 then a else if fails(most) then most + 1 else most
  }

  // ---------------------------------------------------------------- one call

  /** What does not change while a gateway runs. What a provider answers depends on the route it
      is asked on and on the prompt, category, task type and parameters of the request. */
  datatype Setting = Setting(
    providers: set<string>, routes: map<string, Route>, defaultRoute: Route, maxAttempts: int,
    answer: (Route, string, string, string, map<string, string>) -> string)
  {
    function Routed(request: Request): Route {
      if request.taskType in routes then routes[request.taskType] else defaultRoute
    }

    ghost function Most(): nat {
      if maxAttempts > 0 then maxAttempts else 0
    }
  }

  /** The cache, the telemetry and the number of provider calls made. */
  datatype State = State(cache: map<CacheKey, Response>, telemetry: seq<Telemetry>, calls: nat)

  /** A request and which attempts at it would fail. */
  datatype Call = Call(request: Request, fails: nat -> bool)

  datatype Finished = Finished(state: State, reply: Reply)

  ghost function Complete(g: Setting, s: State, call: Call): Finished {
    var route := g.Routed(call.request);
    var k := KeyOf(call.request, route);
    if k in s.cache then
      var response := s.cache[k].(cached := true, attempts := 0);
      Finished(s.(telemetry := s.telemetry + [Record(call.request, route, response, Success)]), Answered(response))
    else if route.provider !in g.providers then Finished(s, NoProvider)
    else
      var a := FirstSuccess(call.fails, g.Most());
      if a <= g.Most() then
        var r := call.request;
        var text := g.answer(route, r.prompt, r.category, r.taskType, r.parameters);
        var response := Response(text, route.model, route.provider, false, a);
        Finished(State(s.cache[k := response], s.telemetry + [Record(call.request, route, response, Success)],
                        s.calls + a),
                  Answered(response))
      else
        var response := Response("", route.model, route.provider, false, g.maxAttempts);
        Finished(State(s.cache, s.telemetry + [Record(call.request, route, response, Failure)], s.calls + g.Most()),
                  Exhausted)
  }

  class LLMGateway {
    const setting: Setting
    var cache: map<CacheKey, Response>
    var telemetry: seq<Telemetry>
    ghost var calls: nat

    ghost function Now(): State
      reads this
    {
      State(cache, telemetry, calls)
    }

    constructor (setting: Setting)
      ensures this.setting == setting && Now() == State(map[], [], 0)
    {
      this.setting := setting;
      cache, telemetry, calls := map[], [], 0;
    }

    method TryComplete(request: Request, fails: nat -> bool) returns (reply: Reply)
      modifies this
      ensures Finished(Now(), reply) == Complete(setting, old(Now()), Call(request, fails))
    {
      var route := setting.Routed(request);
      var k := KeyOf(request, route);
      if k in cache {
        var response := cache[k].(cached := true, attempts := 0);
        telemetry := telemetry + [Record(request, route, response, Success)];
        return Answered(response);
      }
      if route.provider !in setting.providers {
        return NoProvider;
      }
      var attempt: nat := 1;
      while attempt <= setting.maxAttempts
        invariant 1 <= attempt <= setting.Most() + 1
        invariant forall i | 1 <= i < attempt :: fails(i)
        invariant Now() == old(Now()).(calls := old(calls) + attempt - 1)
        decreases setting.maxAttempts - attempt
      {
        calls := calls + 1;
        if !fails(attempt) {
          assert FirstSuccess(fails, setting.Most()) == attempt;
          var text := setting.answer(
            route, request.prompt, request.category, request.taskType, request.parameters);
          var response := Response(text, route.model, route.provider, false, attempt);
          cache := cache[k := response];
          telemetry := telemetry + [Record(request, route, response, Success)];
          return Answered(response);
        }
        attempt := attempt + 1;
      }
      var response := Response("", route.model, route.provider, false, setting.maxAttempts);
      telemetry := telemetry + [Record(request, route, response, Failure)];
      reply := Exhausted;
    }
  }

  // ---------------------------------------------------------------- any sequence of calls

  const START := State(map[], [], 0)

  ghost function After(g: Setting, calls: seq<Call>): State {
    if calls == [] then START else Complete(g, After(g, calls[..|calls| - 1]), calls[|calls| - 1]).state
  }

  /** Two keys are the same exactly if the six values they digest are. */
  lemma KeysAgree(r: Request, p: Route, s: Request, q: Route)
    ensures KeyOf(r, p) == KeyOf(s, q) <==>
            && p.model == q.model && p.provider == q.provider && r.prompt == s.prompt && r.category == s.category
            && r.taskType == s.taskType && r.parameters == s.parameters
  {
  }

  /** The route of a task type is the configured one, else the default. */
  ghost predicate GoesTo(g: Setting, taskType: string, route: Route) {
    || (taskType in g.routes && route == g.routes[taskType])
    || (taskType !in g.routes && route == g.defaultRoute)
  }

  /** Two requests that differ in the actor at most. */
  ghost predicate SameQuestion(a: Request, b: Request) {
    a.prompt == b.prompt && a.category == b.category && a.taskType == b.taskType && a.parameters == b.parameters
  }

  /** How call `i` ends when the ones before it have been made. */
  ghost function ReplyAt(g: Setting, calls: seq<Call>, i: nat): Reply
    requires i < |calls|
  {
    Complete(g, After(g, calls[..i]), calls[i]).reply
  }

  /** One of the calls asked the same question and was answered. */
  ghost predicate AnsweredBefore(g: Setting, calls: seq<Call>, request: Request) {
    exists i | 0 <= i < |calls| :: SameQuestion(calls[i].request, request) && ReplyAt(g, calls, i).Answered?
  }

  /** Dropping the last call forgets an answer only if it was the last call's. */
  lemma AnsweredByOneMore(g: Setting, calls: seq<Call>, request: Request)
    requires calls != []
    ensures var n := |calls| - 1;
            AnsweredBefore(g, calls, request) <==>
              || AnsweredBefore(g, calls[..n], request)
              || (SameQuestion(calls[n].request, request) && ReplyAt(g, calls, n).Answered?)
  {
    hide Complete, After;
    var n := |calls| - 1;
    assert forall i | 0 <= i < n :: calls[..n][..i] == calls[..i];
  }

  /** What the cache holds for a question is the text of that question on its route. */
  ghost predicate Holds(g: Setting, s: State, request: Request, route: Route) {
    var k := KeyOf(request, route);
    k in s.cache ==>
      && route.provider in g.providers
      && s.cache[k].text == g.answer(route, request.prompt, request.category, request.taskType, request.parameters)
      && s.cache[k].model == route.model && s.cache[k].provider == route.provider
  }

  /** The cache knows exactly the questions that have been answered, each with its own text. */
  lemma {:induction false} CachedAreAnswered(g: Setting, calls: seq<Call>, request: Request, route: Route)
    requires GoesTo(g, request.taskType, route)
    ensures KeyOf(request, route) in After(g, calls).cache <==> AnsweredBefore(g, calls, request)
    ensures Holds(g, After(g, calls), request, route)
  {
    if calls != [] {
      var n := |calls| - 1;
      CachedAreAnswered(g, calls[..n], request, route);
      AnsweredByOneMore(g, calls, request);
      OneCallCaches(g, After(g, calls[..n]), calls[n], request, route);
    }
  }

  /** A call puts its own question into the cache if it is answered, and no other. */
  lemma OneCallCaches(g: Setting, s: State, call: Call, request: Request, route: Route)
    requires GoesTo(g, request.taskType, route) && Holds(g, s, request, route)
    ensures var done := Complete(g, s, call);
            && (KeyOf(request, route) in done.state.cache <==>
                  || KeyOf(request, route) in s.cache
                  || (SameQuestion(call.request, request) && done.reply.Answered?))
            && Holds(g, done.state, request, route)
  {
    KeysAgree(call.request, g.Routed(call.request), request, route);
  }

  /** Some attempt within the limit does not fail. */
  ghost predicate Succeeds(g: Setting, call: Call) {
    exists a: nat | 1 <= a <= g.maxAttempts :: !call.fails(a)
  }

  /** How a call ends after any calls. It fails to find a provider exactly if its route names
      none that is there. Otherwise it is answered from the cache exactly if the same question was
      answered before, by the provider if not and one of the attempts allowed does not fail, and
      exhausted in the remaining case. An answer is the text for its own request on its own route. */
  lemma CallsEnd(g: Setting, before: seq<Call>, call: Call, route: Route)
    requires GoesTo(g, call.request.taskType, route)
    ensures var r, reply := call.request, Complete(g, After(g, before), call).reply;
            && (reply == NoProvider <==> route.provider !in g.providers)
            && (reply.Answered? && reply.response.cached <==> AnsweredBefore(g, before, r))
            && (reply.Answered? && !reply.response.cached <==>
                  route.provider in g.providers && !AnsweredBefore(g, before, r) && Succeeds(g, call))
            && (reply.Answered? ==>
                  && reply.response.text == g.answer(route, r.prompt, r.category, r.taskType, r.parameters)
                  && reply.response.model == route.model && reply.response.provider == route.provider)
  {
    CachedAreAnswered(g, before, call.request, route);
    FreshCallsEnd(g, After(g, before), call, route);
  }

  /** How a call ends whose question is not cached. */
  lemma FreshCallsEnd(g: Setting, s: State, call: Call, route: Route)
    requires GoesTo(g, call.request.taskType, route) && Holds(g, s, call.request, route)
    ensures var r, reply := call.request, Complete(g, s, call).reply;
            && (reply == NoProvider <==> route.provider !in g.providers)
            && (reply.Answered? && reply.response.cached <==> KeyOf(r, route) in s.cache)
            && (reply.Answered? && !reply.response.cached <==>
                  route.provider in g.providers && KeyOf(r, route) !in s.cache && Succeeds(g, call))
            && (reply.Answered? ==>
                  && reply.response.text == g.answer(route, r.prompt, r.category, r.taskType, r.parameters)
                  && reply.response.model == route.model && reply.response.provider == route.provider)
  {
    var a := FirstSuccess(call.fails, g.Most());
    assert a > g.Most() <==> !Succeeds(g, call);
  }

  /** How the call ends at a gateway that has cached nothing. */
  ghost function Uncached(g: Setting, call: Call): Reply {
    Complete(g, START, call).reply
  }

  /** The same but for the marks of the cache, `cached` and `attempts`. */
  ghost predicate SameAnswer(a: Reply, b: Reply) {
    || a == b
    || (a.Answered? && b.Answered? && a.response.text == b.response.text && a.response.model == b.response.model
        && a.response.provider == b.response.provider)
  }

  /** After any calls, a call ends as it would without a cache, missing providers included, with
      one exception, which is a gain: a question that was answered before is answered again even
      when every attempt would fail. */
  lemma CachedLikeUncached(g: Setting, before: seq<Call>, call: Call)
    ensures SameAnswer(Complete(g, After(g, before), call).reply, Uncached(g, call)) <==>
            !(Uncached(g, call) == Exhausted && AnsweredBefore(g, before, call.request))
  {
    hide Complete;
    var route := g.Routed(call.request);
    CallsEnd(g, before, call, route);
    CallsEnd(g, [], call, route);
  }

  /** A call past the provider lookup adds one record, which names its actor, category, task type
      and route and tells how it ended; a call with no provider to ask adds none. A cached answer
      is recorded, and told, with no attempts; another one with the number of the first attempt
      that did not fail; a failure with the limit. */
  lemma OneRecordEach(g: Setting, s: State, call: Call, route: Route)
    requires GoesTo(g, call.request.taskType, route)
    ensures var done, r := Complete(g, s, call), call.request;
            if done.reply == NoProvider then done.state == s
            else
              && |done.state.telemetry| == |s.telemetry| + 1 && s.telemetry <= done.state.telemetry
              && var t := done.state.telemetry[|s.telemetry|];
              && t.actor == r.actor && t.category == r.category && t.taskType == r.taskType
              && t.provider == route.provider && t.model == route.model
              && (t.outcome == Success <==> done.reply.Answered?)
              && (done.reply.Answered? ==>
                    && t.cached == done.reply.response.cached && t.attempts == done.reply.response.attempts
                    && (t.cached ==> t.attempts == 0)
                    && (!t.cached ==>
                          && 1 <= t.attempts <= g.maxAttempts && !call.fails(t.attempts)
                          && forall a: nat | 1 <= a < t.attempts :: call.fails(a)))
              && (done.reply == Exhausted ==> !t.cached && t.attempts == g.maxAttempts)
  {
  }

  ghost predicate Exhausts(t: Telemetry) {
    t.outcome == Failure
  }

  ghost function Failures(telemetry: seq<Telemetry>): nat {
    if telemetry == [] then 0
    else Failures(telemetry[..|telemetry| - 1]) + if Exhausts(telemetry[|telemetry| - 1]) then 1 else 0
  }

  lemma AttemptsOfOneMore(telemetry: seq<Telemetry>, t: Telemetry)
    ensures Attempts(telemetry + [t]) == Attempts(telemetry) + t.attempts
    ensures Failures(telemetry + [t]) == Failures(telemetry) + if Exhausts(t) then 1 else 0
  {
    assert (telemetry + [t])[..|telemetry|] == telemetry;
  }

  /** How one call moves the accounts. */
  lemma OneCall(g: Setting, s: State, call: Call) returns (t: Telemetry)
    ensures var done := Complete(g, s, call).state;
            || done == s
            || (&& done.telemetry == s.telemetry + [t]
                && (Exhausts(t) ==> t.attempts == g.maxAttempts && done.calls == s.calls + g.Most())
                && (!Exhausts(t) ==> done.calls == s.calls + t.attempts))
  {
    var done := Complete(g, s, call).state;
    t := if |done.telemetry| > |s.telemetry| then done.telemetry[|s.telemetry|]
         else Telemetry("", "", "", "", "", false, 0, Success);
  }

  /** What the records say beyond the calls made. */
  ghost function Excess(g: Setting, telemetry: seq<Telemetry>): int {
    if g.maxAttempts < 0 then g.maxAttempts * Failures(telemetry) else 0
  }

  lemma ExcessOfOneMore(g: Setting, telemetry: seq<Telemetry>, t: Telemetry)
    ensures Excess(g, telemetry + [t]) == Excess(g, telemetry)
                                          + if Exhausts(t) && g.maxAttempts < 0 then g.maxAttempts else 0
  {
    AttemptsOfOneMore(telemetry, t);
    var a, n := g.maxAttempts, Failures(telemetry);
    assert a * (n + 1) == a * n + a;
  }

  /** The recorded attempts are the provider calls, except that with a negative limit every
      failed call, which asks no provider, records the limit. */
  lemma {:induction false} AttemptsAreCalls(g: Setting, calls: seq<Call>)
    ensures Attempts(After(g, calls).telemetry) == After(g, calls).calls + Excess(g, After(g, calls).telemetry)
  {
    hide Complete, Excess, Attempts, Failures, Exhausts;
    if calls == [] {
      NothingRecorded(g);
    } else {
      var s := After(g, calls[..|calls| - 1]);
      AttemptsAreCalls(g, calls[..|calls| - 1]);
      var t := OneCall(g, s, calls[|calls| - 1]);
      AttemptsOfOneMore(s.telemetry, t);
      ExcessOfOneMore(g, s.telemetry, t);
    }
  }

  lemma NothingRecorded(g: Setting)
    ensures Attempts([]) == 0 && Excess(g, []) == 0
  {
  }

  /** So the telemetry adds up to the provider calls exactly if the limit is not negative or no
      call failed. */
  lemma TelemetryAddsUp(g: Setting, calls: seq<Call>)
    ensures var s := After(g, calls);
            Attempts(s.telemetry) == s.calls <==> g.maxAttempts >= 0 || Failures(s.telemetry) == 0
  {
    AttemptsAreCalls(g, calls);
    if g.maxAttempts < 0 && Failures(After(g, calls).telemetry) > 0 {
      NegativeProduct(g.maxAttempts, Failures(After(g, calls).telemetry));
    }
  }

  lemma NegativeProduct(a: int, n: nat)
    requires a < 0 && n > 0
    ensures a * n < 0
  {
  }

  /** A gateway with a negative limit. */
  const NEGATIVE := Setting({"p"}, map[], Route("p", "m"), -1,
                            (route, prompt, category, taskType, parameters) => "answer")

  const ASKED := Call(Request("actor", "prompt", "category", "task", map[]), attempt => false)

  /** One call to it asks nobody, and its record counts an attempt less than none. */
  lemma NegativeLimitExample()
    ensures After(NEGATIVE, [ASKED]).calls == 0 && Attempts(After(NEGATIVE, [ASKED]).telemetry) == -1
  {
    assert [ASKED][..0] == [] && After(NEGATIVE, []) == START;
    var done := Complete(NEGATIVE, START, ASKED);
    AttemptsOfOneMore([], done.state.telemetry[0]);
  }
}
