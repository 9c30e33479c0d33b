/** `withIdempotency` (packages/shared/src/idempotency.ts): a lock with a time to live and one stored
    response per key, as interleaved steps of any number of clients that use the same key. */
module Idempotency {
  import opened Wrappers

  /** Responses are stored as JSON text. */
  type Response = string

  /** The stored row. Its key is unique over all scopes, while locks are taken per scope. */
  datatype Row = Row(scope: string, requestHash: string, response: Response)

  datatype Outcome = Returned(response: Response) | Conflict | Failed

  /** Where a client is: before the lock, after it, running `fn`, with a result to store, in `finally`, done. */
  datatype Phase =
    | Arriving
    | Inside
    | Running
    | Storing(result: Response)
    | Releasing(outcome: Outcome)
    | Done(outcome: Outcome)

  datatype Client = Client(scope: string, requestHash: string, phase: Phase)

  /** `completed` counts the runs of `fn` that returned a result. */
  datatype State = State(row: Option<Row>, locks: set<string>, clients: map<nat, Client>, completed: nat)

  datatype Event =
    | Arrive(client: nat, scope: string, requestHash: string)
    | Acquire(client: nat)
    | Check(client: nat)
    | Finish(client: nat, result: Option<Response>)
    | Store(client: nat)
    | Release(client: nat)
    | Expire(scope: string)

  function At(s: State, c: nat): Option<Phase>
  {
    if c in s.clients then Some(s.clients[c].phase) else None
  }

  function Move(s: State, c: nat, phase: Phase): State
    requires c in s.clients
  {
    s.(clients := s.clients[c := s.clients[c].(phase := phase)])
  }

  /** One atomic step; a step its client is not ready for changes nothing. */
  function Step(s: State, e: Event): State
  {
    match e
    case Arrive(c, scope, hash) =>
      if c in s.clients then s else s.(clients := s.clients[c := Client(scope, hash, Arriving)])
    case Acquire(c) =>
      if At(s, c) != Some(Arriving) then s
      else if s.clients[c].scope in s.locks then Move(s, c, Done(Conflict))
      else Move(s, c, Inside).(locks := s.locks + {s.clients[c].scope})
    case Check(c) =>
      if At(s, c) != Some(Inside) then s
      else if s.row.None? then Move(s, c, Running)
      else if s.row.value.requestHash != s.clients[c].requestHash then Move(s, c, Releasing(Conflict))
      else Move(s, c, Releasing(Returned(s.row.value.response)))
    case Finish(c, result) =>
      if At(s, c) != Some(Running) then s
      else if result.None? then Move(s, c, Releasing(Failed))
      else Move(s, c, Storing(result.value)).(completed := s.completed + 1)
    case Store(c) =>
      if c !in s.clients || !s.clients[c].phase.Storing? then s
      else if s.row.Some? then Move(s, c, Releasing(Failed))
      else
        var result := s.clients[c].phase.result;
        Move(s, c, Releasing(Returned(result)))
        .(row := Some(Row(s.clients[c].scope, s.clients[c].requestHash, result)))
    case Release(c) =>
      if c !in s.clients || !s.clients[c].phase.Releasing? then s
      else Move(s, c, Done(s.clients[c].phase.outcome)).(locks := s.locks - {s.clients[c].scope})
    case Expire(scope) => s.(locks := s.locks - {scope})
  }

  function Run(s: State, events: seq<Event>): State
  {
    if events == [] then s else Step(Run(s, events[..|events| - 1]), events[|events| - 1])
  }

  const START := State(None, {}, map[], 0)

  // ---------------------------------------------------------------- every run

  predicate Answers(phase: Phase, response: Response)
  {
    phase == Releasing(Returned(response)) || phase == Done(Returned(response))
  }

  /** Whoever returns normally returns the stored response, for the request it was stored for. */
  ghost predicate AnswersMatch(s: State)
  {
    forall c, response :: c in s.clients && Answers(s.clients[c].phase, response) ==>
      s.row.Some? && s.row.value.response == response && s.row.value.requestHash == s.clients[c].requestHash
  }

  lemma StepKeepsAnswers(s: State, e: Event)
    requires AnswersMatch(s)
    ensures AnswersMatch(Step(s, e))
    ensures s.row.Some? ==> Step(s, e).row == s.row
  {
    var t := Step(s, e);
    forall c, response | c in t.clients && Answers(t.clients[c].phase, response)
      ensures t.row.Some? && t.row.value.response == response && t.row.value.requestHash == t.clients[c].requestHash
    {
      if c in s.clients && Answers(s.clients[c].phase, response) {
        assert s.row.Some? && s.row.value.requestHash == s.clients[c].requestHash;
      }
    }
  }

  /** Every normal return equals the single stored response and matches its request hash, over all
      interleavings, scopes and lock expirations. */
  lemma {:induction false} ReturnsAreStored(events: seq<Event>)
    ensures AnswersMatch(Run(START, events))
  {
    if events != [] {
      ReturnsAreStored(events[..|events| - 1]);
      StepKeepsAnswers(Run(START, events[..|events| - 1]), events[|events| - 1]);
    }
  }

  /** A stored response is never replaced. */
  lemma {:induction false} RowIsFinal(s: State, events: seq<Event>)
    requires s.row.Some?
    ensures Run(s, events).row == s.row
  {
    if events != [] {
      RowIsFinal(s, events[..|events| - 1]);
    }
  }

  /** So two clients that both return normally return the same response for the same request, however far
      apart they finish. */
  lemma AllReturnsAgree(events: seq<Event>, a: nat, b: nat, x: Response, y: Response)
    requires var t := Run(START, events);
      && a in t.clients && t.clients[a].phase == Done(Returned(x))
      && b in t.clients && t.clients[b].phase == Done(Returned(y))
    ensures x == y && Run(START, events).clients[a].requestHash == Run(START, events).clients[b].requestHash
  {
    ReturnsAreStored(events);
    var t := Run(START, events);
    assert Answers(t.clients[a].phase, x) && Answers(t.clients[b].phase, y);
  }

  // ---------------------------------------------------------------- a repeated request

  /** What a request with this hash is answered from a stored row. */
  predicate IsAnswer(row: Row, hash: string, out: Outcome)
  {
    if hash == row.requestHash then out == Returned(row.response) else out == Conflict
  }

  /** Where a client can be once `row` is stored, given where it was then: a client that has not looked yet is answered
      from the row or still before that, one that has already started `fn` loses its result, one with an outcome
      keeps it. A client that finds the lock taken gets a conflict. */
  predicate Follows(row: Row, hash: string, was: Phase, phase: Phase)
  {
    match was
    case Arriving =>
      || phase == Arriving || phase == Inside || phase == Done(Conflict)
      || ((phase.Releasing? || phase.Done?) && IsAnswer(row, hash, phase.outcome))
    case Inside => phase == Inside || ((phase.Releasing? || phase.Done?) && IsAnswer(row, hash, phase.outcome))
    case Running => phase == Running || phase.Storing? || phase == Releasing(Failed) || phase == Done(Failed)
    case Storing(result) => phase == was || phase == Releasing(Failed) || phase == Done(Failed)
    case Releasing(outcome) => phase == was || phase == Done(outcome)
    case Done(_) => phase == was
  }

  /** Once a response is stored, every client that has passed the lock and not looked yet ends with that response if
      its hash is the stored one, and with a conflict otherwise, over all later interleavings and expirations. */
  lemma {:induction false} StoredIsAnswered(s: State, events: seq<Event>, c: nat)
    requires s.row.Some? && c in s.clients
    ensures var t := Run(s, events);
      && t.row == s.row && t.completed >= s.completed
      && c in t.clients && t.clients[c].requestHash == s.clients[c].requestHash && t.clients[c].scope == s.clients[c].scope
      && Follows(s.row.value, s.clients[c].requestHash, s.clients[c].phase, t.clients[c].phase)
  {
    if events != [] {
      StoredIsAnswered(s, events[..|events| - 1], c);
      StoredStep(s, Run(s, events[..|events| - 1]), events[|events| - 1], c);
    }
  }

  lemma StoredStep(s: State, t: State, e: Event, c: nat)
    requires s.row.Some? && c in s.clients && t.row == s.row
    requires c in t.clients && t.clients[c].requestHash == s.clients[c].requestHash && t.clients[c].scope == s.clients[c].scope
    requires Follows(s.row.value, s.clients[c].requestHash, s.clients[c].phase, t.clients[c].phase)
    ensures var u := Step(t, e);
      && u.row == s.row && u.completed >= t.completed
      && c in u.clients && u.clients[c].requestHash == s.clients[c].requestHash && u.clients[c].scope == s.clients[c].scope
      && Follows(s.row.value, s.clients[c].requestHash, s.clients[c].phase, u.clients[c].phase)
  {}

  /** A client that comes after a response is stored: it never runs `fn`, and when it is done it was either turned
      away at the lock or answered from the row. */
  lemma RepeatIsAnswered(s: State, events: seq<Event>, c: nat)
    requires s.row.Some? && c !in s.clients && c in Run(s, events).clients
    ensures var client := Run(s, events).clients[c];
      Follows(s.row.value, client.requestHash, Arriving, client.phase)
  {
    var n := |events| - 1;
    var t := Run(s, events[..n]);
    if c in t.clients {
      RepeatIsAnswered(s, events[..n], c);
      RowIsFinal(s, events[..n]);
      assert Follows(t.row.value, t.clients[c].requestHash, Arriving, t.clients[c].phase);
    }
  }

  /** The lock decides at the door, and only there: with the lock of its scope taken a client is done with a conflict,
      otherwise it is inside and holds the lock. */
  lemma LockDecides(s: State, c: nat)
    requires c in s.clients && s.clients[c].phase == Arriving
    ensures var t := Step(s, Acquire(c)); var scope := s.clients[c].scope;
      && t.row == s.row && c in t.clients && t.clients - {c} == s.clients - {c}
      && t.clients[c].scope == scope && t.clients[c].requestHash == s.clients[c].requestHash
      && (if scope in s.locks then t.clients[c].phase == Done(Conflict) && t.locks == s.locks
          else t.clients[c].phase == Inside && t.locks == s.locks + {scope})
  {}

  /** Nobody waits for others: with a stored response a client inside is answered by its own next two steps, and gives
      its lock back. */
  lemma AnswerIsPrompt(s: State, c: nat)
    requires s.row.Some? && c in s.clients && s.clients[c].phase == Inside
    ensures var t := Step(Step(s, Check(c)), Release(c));
      && t.row == s.row && t.locks == s.locks - {s.clients[c].scope} && t.completed == s.completed
      && c in t.clients && t.clients[c].phase.Done? && IsAnswer(s.row.value, s.clients[c].requestHash, t.clients[c].phase.outcome)
  {}

  // ---------------------------------------------------------------- runs without expiry

  /** The lock never expires and all clients use one scope. */
  predicate Quiet(e: Event, scope: string)
  {
    !e.Expire? && (e.Arrive? ==> e.scope == scope)
  }

  ghost predicate AllQuiet(events: seq<Event>, scope: string)
  {
    forall e :: e in events ==> Quiet(e, scope)
  }

  predicate Holding(phase: Phase) { !phase.Arriving? && !phase.Done? }

  predicate Busy(phase: Phase) { phase.Running? || phase.Storing? }

  ghost predicate SomeoneIn(s: State, c: nat) { c in s.clients && Holding(s.clients[c].phase) }

  ghost predicate SomeoneStoring(s: State) { exists c :: c in s.clients && s.clients[c].phase.Storing? }

  /** The lock is held exactly while one client is inside; `fn` runs only before a response is stored. */
  ghost predicate Exclusive(s: State, scope: string)
  {
    && (forall c :: c in s.clients ==> s.clients[c].scope == scope)
    && s.locks <= {scope}
    && (s.locks == {} ==> forall c :: !SomeoneIn(s, c))
    && (s.locks != {} ==> exists c :: SomeoneIn(s, c))
    && (forall a, b :: SomeoneIn(s, a) && SomeoneIn(s, b) ==> a == b)
    && (forall c :: c in s.clients && Busy(s.clients[c].phase) ==> s.row.None?)
    && s.completed == (if s.row.Some? || SomeoneStoring(s) then 1 else 0)
  }

  lemma AcquireKeepsExclusive(s: State, scope: string, c: nat)
    requires Exclusive(s, scope)
    ensures Exclusive(Step(s, Acquire(c)), scope)
  {
    var t := Step(s, Acquire(c));
    if t != s {
      assert SomeoneStoring(t) == SomeoneStoring(s) by { OthersStoring(s, t, c); }
      assert forall b :: b != c ==> SomeoneIn(t, b) == SomeoneIn(s, b);
      if t.clients[c].phase.Done? {
        var b :| SomeoneIn(s, b);
        assert SomeoneIn(t, b);
      } else {
        assert SomeoneIn(t, c);
      }
    }
  }

  // Only client `c` moved.
  lemma OthersStoring(s: State, t: State, c: nat)
    requires forall b :: b != c ==> At(t, b) == At(s, b)
    ensures SomeoneStoring(t) <==>
      (c in t.clients && t.clients[c].phase.Storing?) || exists b :: b != c && b in s.clients && s.clients[b].phase.Storing?
  {
    if b :| b != c && b in s.clients && s.clients[b].phase.Storing? {
      assert At(t, b) == At(s, b);
      assert b in t.clients && t.clients[b].phase.Storing?;
    }
    if b :| b in t.clients && t.clients[b].phase.Storing? {
      assert At(t, b) == At(s, b) || b == c;
    }
  }

  lemma InsideStepKeepsExclusive(s: State, scope: string, e: Event)
    requires Exclusive(s, scope) && (e.Check? || e.Finish? || e.Store? || e.Release?)
    ensures Exclusive(Step(s, e), scope)
  {
    var c, t := e.client, Step(s, e);
    if t != s {
      assert SomeoneIn(s, c) && c in t.clients;
      assert forall b :: b != c ==> SomeoneIn(t, b) == SomeoneIn(s, b) && At(t, b) == At(s, b);
      OthersStoring(s, t, c);
      OthersStoring(s, s, c);
      assert !exists b :: b != c && b in s.clients && s.clients[b].phase.Storing? by {
        if b :| b != c && b in s.clients && s.clients[b].phase.Storing? { assert SomeoneIn(s, b); }
      }
      assert e.Release? || SomeoneIn(t, c);
      forall b | b in t.clients && Busy(t.clients[b].phase)
        ensures t.row.None?
      {
        if b != c { assert SomeoneIn(s, b); }
      }
    }
  }

  lemma ArriveKeepsExclusive(s: State, scope: string, c: nat, hash: string)
    requires Exclusive(s, scope)
    ensures Exclusive(Step(s, Arrive(c, scope, hash)), scope)
  {
    var t := Step(s, Arrive(c, scope, hash));
    assert forall b :: SomeoneIn(t, b) == SomeoneIn(s, b);
    OthersStoring(s, t, c);
    OthersStoring(s, s, c);
  }

  lemma StepKeepsExclusive(s: State, scope: string, e: Event)
    requires Exclusive(s, scope) && Quiet(e, scope)
    ensures Exclusive(Step(s, e), scope)
  {
    hide Exclusive;
    match e
    case Arrive(c, _, hash) => ArriveKeepsExclusive(s, scope, c, hash);
    case Acquire(c) => AcquireKeepsExclusive(s, scope, c);
    case _ => InsideStepKeepsExclusive(s, scope, e);
  }

  /** While the lock does not expire and the scope is fixed: at most one client is inside at a time, a lock is
      held only by one that is, no `fn` runs once a response is stored, and `fn` completes at most once. */
  lemma {:induction false} OneAtATime(events: seq<Event>, scope: string)
    requires AllQuiet(events, scope)
    ensures Exclusive(Run(START, events), scope)
  {
    if events != [] {
      OneAtATime(events[..|events| - 1], scope);
      assert events[|events| - 1] in events;
      StepKeepsExclusive(Run(START, events[..|events| - 1]), scope, events[|events| - 1]);
    }
  }

  /** The lock may expire once a response is stored, or while nobody holds it, but not while it guards `fn`. */
  predicate Calm(s: State, e: Event, scope: string)
  {
    && (e.Arrive? ==> e.scope == scope)
    && (e.Expire? && e.scope == scope ==> s.row.Some? || scope !in s.locks)
  }

  ghost predicate CalmRun(events: seq<Event>, scope: string)
  {
    events == [] ||
    var before := events[..|events| - 1];
    CalmRun(before, scope) && Calm(Run(START, before), events[|events| - 1], scope)
  }

  /** Until a response is stored the lock excludes; from then on nobody runs `fn`. */
  ghost predicate AtMostOnce(s: State, scope: string)
  {
    if s.row.None? then Exclusive(s, scope)
    else s.completed == 1 && forall c :: c in s.clients ==> s.clients[c].scope == scope && !Busy(s.clients[c].phase)
  }

  lemma StepKeepsAtMostOnce(s: State, scope: string, e: Event)
    requires AtMostOnce(s, scope) && Calm(s, e, scope)
    ensures AtMostOnce(Step(s, e), scope)
  {
    if s.row.None? {
      if e.Expire? {
        assert Step(s, e) == s by { assert s.locks - {e.scope} == s.locks; }
      } else {
        StepKeepsExclusive(s, scope, e);
      }
    }
  }

  lemma {:induction false} CompletesAtMostOnce(events: seq<Event>, scope: string)
    requires CalmRun(events, scope)
    ensures AtMostOnce(Run(START, events), scope) && Run(START, events).completed <= 1
  {
    hide Step, Calm;
    if events != [] {
      CompletesAtMostOnce(events[..|events| - 1], scope);
      StepKeepsAtMostOnce(Run(START, events[..|events| - 1]), scope, events[|events| - 1]);
    }
  }

  /** In such runs a result that `fn` produced is never thrown away: storing it succeeds. */
  lemma ResultIsStored(events: seq<Event>, scope: string, c: nat, result: Response)
    requires CalmRun(events, scope) && At(Run(START, events), c) == Some(Storing(result))
    ensures var t := Step(Run(START, events), Store(c));
      && At(t, c) == Some(Releasing(Returned(result)))
      && t.row.Some? && t.row.value.response == result && t.completed == 1
  {
    CompletesAtMostOnce(events, scope);
    var s := Run(START, events);
    assert Busy(s.clients[c].phase);
    assert SomeoneStoring(s);
  }

  // ---------------------------------------------------------------- which expiry is too early

  lemma {:induction false} RunConcat(s: State, a: seq<Event>, b: seq<Event>)
    ensures Run(s, a + b) == Run(Run(s, a), b)
  {
    hide Step;
    if b == [] {
      assert a + b == a;
    } else {
      assert (a + b)[..|a + b| - 1] == a + b[..|b| - 1];
      RunConcat(s, a, b[..|b| - 1]);
    }
  }

  lemma RunOne(s: State, e: Event)
    ensures Run(s, [e]) == Step(s, e)
  {
    hide Step;
    assert [e][..0] == [];
  }

  lemma {:induction false} QuietKeepsAtMostOnce(s: State, scope: string, events: seq<Event>)
    requires AtMostOnce(s, scope) && AllQuiet(events, scope)
    ensures AtMostOnce(Run(s, events), scope)
  {
    hide Step, AtMostOnce;
    if events != [] {
      QuietKeepsAtMostOnce(s, scope, events[..|events| - 1]);
      assert events[|events| - 1] in events;
      StepKeepsAtMostOnce(Run(s, events[..|events| - 1]), scope, events[|events| - 1]);
    }
  }

  lemma {:induction false} Bounded(ids: set<nat>) returns (n: nat)
    ensures forall c :: c in ids ==> c < n
    decreases |ids|
  {
    if ids == {} {
      n := 0;
    } else {
      var c :| c in ids;
      var m := Bounded(ids - {c});
      n := if m > c then m else c + 1;
      assert forall b :: b in ids ==> b == c || b in ids - {c};
    }
  }

  /** A new client arrives, finds the lock free and nothing stored, and runs `fn`. */
  function Entering(c: nat, scope: string): seq<Event> { [Arrive(c, scope, ""), Acquire(c), Check(c)] }

  lemma Enters(s: State, c: nat, scope: string)
    requires c !in s.clients && scope !in s.locks && s.row.None?
    ensures AllQuiet(Entering(c, scope), scope)
    ensures Run(s, Entering(c, scope))
         == s.(clients := s.clients[c := Client(scope, "", Running)], locks := s.locks + {scope})
  {
    var e := Entering(c, scope);
    assert e == [e[0]] + [e[1]] + [e[2]];
    RunConcat(s, [e[0]] + [e[1]], [e[2]]);
    RunConcat(s, [e[0]], [e[1]]);
    RunOne(s, e[0]);
    var a := Step(s, e[0]);
    RunOne(a, e[1]);
    var b := Step(a, e[1]);
    RunOne(b, e[2]);
    assert Step(b, e[2]).clients == s.clients[c := Client(scope, "", Running)];
  }

  // `fn` completes for two running clients.
  lemma BothFinish(s: State, a: nat, b: nat)
    requires a != b && At(s, a) == Some(Running) && At(s, b) == Some(Running)
    ensures Run(s, [Finish(a, Some("")), Finish(b, Some(""))]).completed == s.completed + 2
  {
    assert [Finish(a, Some("")), Finish(b, Some(""))] == [Finish(a, Some(""))] + [Finish(b, Some(""))];
    RunConcat(s, [Finish(a, Some(""))], [Finish(b, Some(""))]);
    RunOne(s, Finish(a, Some("")));
    RunOne(Step(s, Finish(a, Some(""))), Finish(b, Some("")));
  }

  lemma InsideRunsTwice(s: State, scope: string, c: nat, n: nat) returns (events: seq<Event>)
    requires At(s, c) == Some(Inside) || At(s, c) == Some(Running)
    requires n !in s.clients && scope !in s.locks && s.row.None?
    ensures AllQuiet(events, scope) && Run(s, events).completed >= 2
  {
    var first: Event := Check(c);
    var a := Step(s, first);
    RunOne(s, first);
    Enters(a, n, scope);
    var b := Run(a, Entering(n, scope));
    BothFinish(b, c, n);
    var finish := [Finish(c, Some("")), Finish(n, Some(""))];
    events := [first] + Entering(n, scope) + finish;
    RunConcat(s, [first] + Entering(n, scope), finish);
    RunConcat(s, [first], Entering(n, scope));
  }

  lemma StoringRunsTwice(s: State, scope: string, n: nat) returns (events: seq<Event>)
    requires s.completed == 1 && n !in s.clients && scope !in s.locks && s.row.None?
    ensures AllQuiet(events, scope) && Run(s, events).completed >= 2
  {
    Enters(s, n, scope);
    var b := Run(s, Entering(n, scope));
    events := Entering(n, scope) + [Finish(n, Some(""))];
    RunConcat(s, Entering(n, scope), [Finish(n, Some(""))]);
    RunOne(b, Finish(n, Some("")));
  }

  lemma ReleasingRunsTwice(s: State, scope: string, c: nat, n: nat) returns (events: seq<Event>)
    requires c in s.clients && s.clients[c].phase.Releasing? && s.clients[c].scope == scope && c < n
    requires n !in s.clients && n + 1 !in s.clients && scope !in s.locks && s.row.None?
    ensures AllQuiet(events, scope) && Run(s, events).completed >= 2
  {
    Enters(s, n, scope);
    var a := Run(s, Entering(n, scope));
    RunOne(a, Release(c));
    var b := Step(a, Release(c));
    Enters(b, n + 1, scope);
    var d := Run(b, Entering(n + 1, scope));
    BothFinish(d, n, n + 1);
    var finish := [Finish(n, Some("")), Finish(n + 1, Some(""))];
    events := Entering(n, scope) + [Release(c)] + Entering(n + 1, scope) + finish;
    RunConcat(s, Entering(n, scope) + [Release(c)] + Entering(n + 1, scope), finish);
    RunConcat(s, Entering(n, scope) + [Release(c)], Entering(n + 1, scope));
    RunConcat(s, Entering(n, scope), [Release(c)]);
  }

  lemma ExpiryCanRunTwice(s: State, scope: string) returns (events: seq<Event>)
    requires Exclusive(s, scope) && s.row.None? && scope in s.locks
    ensures AllQuiet(events, scope) && Run(Step(s, Expire(scope)), events).completed >= 2
  {
    var t := Step(s, Expire(scope));
    var c :| SomeoneIn(s, c);
    var n := Bounded(s.clients.Keys);
    assert n !in s.clients && n + 1 !in s.clients;
    match s.clients[c].phase
    case Inside => events := InsideRunsTwice(t, scope, c, n);
    case Running => events := InsideRunsTwice(t, scope, c, n);
    case Storing(_) =>
      assert SomeoneStoring(s);
      events := StoringRunsTwice(t, scope, n);
    case Releasing(_) => events := ReleasingRunsTwice(t, scope, c, n);
  }

  /** In every state that a calm run reaches: an expiry leaves all further runs without expiry, in this scope, with at
      most one completion of `fn` if and only if a response is stored or nobody holds the lock. So no weaker
      demand on expiries than calm will do. */
  lemma CalmIsNeeded(events: seq<Event>, scope: string)
    requires CalmRun(events, scope)
    ensures var s := Run(START, events);
      (s.row.Some? || scope !in s.locks)
      <==> forall more :: AllQuiet(more, scope) ==> Run(Step(s, Expire(scope)), more).completed <= 1
  {
    CompletesAtMostOnce(events, scope);
    var s := Run(START, events);
    hide Step, AtMostOnce, Exclusive, AllQuiet;
    if s.row.Some? || scope !in s.locks {
      StepKeepsAtMostOnce(s, scope, Expire(scope));
      forall more | AllQuiet(more, scope)
        ensures Run(Step(s, Expire(scope)), more).completed <= 1
      {
        QuietKeepsAtMostOnce(Step(s, Expire(scope)), scope, more);
        AtMostOnceCounts(Run(Step(s, Expire(scope)), more), scope);
      }
    } else {
      AtMostOnceExcludes(s, scope);
      var more := ExpiryCanRunTwice(s, scope);
    }
  }

  lemma AtMostOnceCounts(s: State, scope: string)
    requires AtMostOnce(s, scope)
    ensures s.completed <= 1
  {}

  lemma AtMostOnceExcludes(s: State, scope: string)
    requires AtMostOnce(s, scope) && s.row.None?
    ensures Exclusive(s, scope)
  {}

  // ---------------------------------------------------------------- where exclusion ends

  /** If the lock expires while `fn` runs, a second client runs `fn` as well, and one result is lost. */
  lemma ExpiryRunsTwice(scope: string, hash: string, x: Response, y: Response)
    ensures var a := Step(Step(Step(START, Arrive(0, scope, hash)), Acquire(0)), Check(0));
      var b := Step(Step(Step(Step(a, Expire(scope)), Arrive(1, scope, hash)), Acquire(1)), Check(1));
      var c := Step(Step(Step(Step(b, Finish(0, Some(x))), Finish(1, Some(y))), Store(0)), Store(1));
      c.completed == 2 && At(c, 0) == Some(Releasing(Returned(x))) && At(c, 1) == Some(Releasing(Failed))
  {}

  /** An expiry while a failed client is still in `finally` is enough: its `del` removes the lock of the client that
      came in after the expiry, and a third one runs `fn` next to it. */
  lemma LateReleaseRunsTwice(scope: string, hash: string, x: Response, y: Response)
    ensures var a := Step(Step(Step(Step(START, Arrive(0, scope, hash)), Acquire(0)), Check(0)), Finish(0, None));
      var b := Step(Step(Step(Step(a, Expire(scope)), Arrive(1, scope, hash)), Acquire(1)), Check(1));
      var c := Step(Step(Step(Step(b, Release(0)), Arrive(2, scope, hash)), Acquire(2)), Check(2));
      && At(a, 0) == Some(Releasing(Failed)) && At(c, 1) == At(c, 2) == Some(Running)
      && Step(Step(c, Finish(1, Some(x))), Finish(2, Some(y))).completed == 2
  {}

  /** One key under two scopes is not excluded at all, although the row is shared. */
  lemma ScopesRunTwice(p: string, q: string, hash: string, x: Response, y: Response)
    requires p != q
    ensures var a := Step(Step(Step(START, Arrive(0, p, hash)), Acquire(0)), Check(0));
      var b := Step(Step(Step(a, Arrive(1, q, hash)), Acquire(1)), Check(1));
      var c := Step(Step(b, Finish(0, Some(x))), Finish(1, Some(y)));
      c.completed == 2
  {}

  // ---------------------------------------------------------------- one call

  /** The steps of one uninterrupted call. */
  function Call(s: State, c: nat, scope: string, hash: string, result: Option<Response>): State
  {
    var entered := Step(Step(Step(s, Arrive(c, scope, hash)), Acquire(c)), Check(c));
    Step(Step(Step(entered, Finish(c, result)), Store(c)), Release(c))
  }

  class Guard {
    var row: Option<Row>
    var locks: set<string>

    constructor ()
      ensures row == None && locks == {}
    {
      row, locks := None, {};
    }

    /** The call as written, with `result` the outcome of `fn`. `ran` tells whether `fn` was called. */
    method WithIdempotency(scope: string, requestHash: string, result: Option<Response>) returns (out: Outcome, ran: bool)
      modifies this
      ensures forall s: State, c: nat :: s.row == old(row) && s.locks == old(locks) && c !in s.clients ==>
        var t := Call(s, c, scope, requestHash, result);
        && t.row == row && t.locks == locks && At(t, c) == Some(Done(out))
        && t.completed == s.completed + (if ran && result.Some? then 1 else 0)
      ensures scope in old(locks) ==> out == Conflict && row == old(row)
      ensures scope !in old(locks) && old(row).Some? ==>
        && out == (if old(row).value.requestHash == requestHash then Returned(old(row).value.response) else Conflict)
        && row == old(row)
      ensures scope !in old(locks) && old(row).None? ==>
        match result
        case None => out == Failed && row == None
        case Some(response) => out == Returned(response) && row == Some(Row(scope, requestHash, response))
      ensures ran <==> scope !in old(locks) && old(row).None?
      ensures locks == old(locks)
    {
      ran := false;
      if scope in locks { return Conflict, false; }
      locks := locks + {scope};
      if row.Some? {
        if row.value.requestHash != requestHash {
          out := Conflict;
        } else {
          out := Returned(row.value.response);
        }
      } else {
        ran := true;
        if result.None? {
          out := Failed;
        } else {
          row := Some(Row(scope, requestHash, result.value));
          out := Returned(result.value);
        }
      }
      locks := locks - {scope};
    }
  }
}
