/** The dashboard's single-flight refresh (dashboard/lib/api/client.ts), alone and composed with the
    rotation of the server. Each section between two awaits is one atomic step. */
module ApiClient {
  import opened Sequences
  import opened RefreshTokens

  // ---------------------------------------------------------------- the client

  /** `at` is when the server handled the POST: its place among all operations there. */
  datatype Answer = Answer(response: Response, cookie: CookieChange, at: nat)

  /** One POST to the refresh endpoint: the cookie it carried, the server's answer once handled, and the
      promise's result once settled (`delivered` tells whether the answer arrived). */
  datatype Flight = Flight(sent: Option<Secret>, answer: Option<Answer>, delivered: bool, result: Option<bool>)

  datatype Phase = First | Waiting | Second | Settled

  /** One call of `request`: how often it fetched its URL, and the flight it waited for, if any. */
  datatype Request = Request(phase: Phase, fetches: nat, via: Option<nat>)

  datatype Client = Client(requests: seq<Request>, flights: seq<Flight>, refreshing: Option<nat>)

  function StartRequest(c: Client): Client {
    c.(requests := c.requests + [Request(First, 1, None)])
  }

  function TryRefresh(c: Client, jar: Option<Secret>): Client {
    if c.refreshing.Some? then c
    else c.(flights := c.flights + [Flight(jar, None, false, None)], refreshing := Some(|c.flights|))
  }

  /** The first fetch of request `i` came back (or threw); `unauthorized` means status 401. */
  function FirstResponse(c: Client, i: nat, unauthorized: bool, jar: Option<Secret>): Client
    requires i < |c.requests|
  {
    if !unauthorized then c.(requests := c.requests[i := c.requests[i].(phase := Settled)])
    else
      var c' := TryRefresh(c, jar);
      c'.(requests := c'.requests[i := c'.requests[i].(phase := Waiting, via := c'.refreshing)])
  }

  /** The refresh promise settles; its `finally` clears the field before any waiter resumes. */
  function Settle(c: Client, f: nat, delivered: bool, ok: bool): Client
    requires f < |c.flights|
  {
    c.(flights := c.flights[f := c.flights[f].(delivered := delivered, result := Some(ok))], refreshing := None)
  }

  /** A waiter resumes: one retry of its URL after a successful refresh, else it gives up. */
  function Resume(c: Client, i: nat): Client
    requires i < |c.requests| && c.requests[i].via.Some? && c.requests[i].via.value < |c.flights|
    requires c.flights[c.requests[i].via.value].result.Some?
  {
    var r := c.requests[i];
    if c.flights[r.via.value].result.value then c.(requests := c.requests[i := r.(phase := Second, fetches := r.fetches + 1)])
    else c.(requests := c.requests[i := r.(phase := Settled)])
  }

  function SecondResponse(c: Client, i: nat): Client
    requires i < |c.requests|
  {
    c.(requests := c.requests[i := c.requests[i].(phase := Settled)])
  }

  /** The object itself: the field `refreshing` and the frames of its pending async calls. */
  class ApiClient {
    var requests: seq<Request>
    var flights: seq<Flight>
    var refreshing: Option<nat>

    function View(): Client
      reads this
    {
      Client(requests, flights, refreshing)
    }

    constructor ()
      ensures View() == Client([], [], None)
    {
      requests, flights, refreshing := [], [], None;
    }

    method BeginRequest() returns (i: nat)
      modifies this
      ensures View() == StartRequest(old(View())) && i == |old(requests)|
    {
      i := |requests|;
      requests := requests + [Request(First, 1, None)];
    }

    method JoinOrStartRefresh(jar: Option<Secret>) returns (flight: nat)
      modifies this
      ensures View() == TryRefresh(old(View()), jar) && refreshing == Some(flight)
    {
      if refreshing.Some? {
        return refreshing.value;
      }
      flight := |flights|;
      flights := flights + [Flight(jar, None, false, None)];
      refreshing := Some(flight);
    }

    method OnFirstResponse(i: nat, unauthorized: bool, jar: Option<Secret>)
      requires i < |requests|
      modifies this
      ensures View() == FirstResponse(old(View()), i, unauthorized, jar)
    {
      if unauthorized {
        var flight := JoinOrStartRefresh(jar);
        requests := requests[i := requests[i].(phase := Waiting, via := Some(flight))];
      } else {
        requests := requests[i := requests[i].(phase := Settled)];
      }
    }

    method OnRefreshSettled(f: nat, delivered: bool, ok: bool)
      requires f < |flights|
      modifies this
      ensures View() == Settle(old(View()), f, delivered, ok)
    {
      flights := flights[f := flights[f].(delivered := delivered, result := Some(ok))];
      refreshing := None;
    }

    method OnResume(i: nat)
      requires i < |requests| && requests[i].via.Some? && requests[i].via.value < |flights|
      requires flights[requests[i].via.value].result.Some?
      modifies this
      ensures View() == Resume(old(View()), i)
    {
      var r := requests[i];
      if flights[r.via.value].result.value {
        requests := requests[i := r.(phase := Second, fetches := r.fetches + 1)];
      } else {
        requests := requests[i := r.(phase := Settled)];
      }
    }
  }

  // ---------------------------------------------------------------- composed with server and cookie jar

  /** One operation of the server: the tokens before it, and the flight it handled, if it was this page's. */
  datatype Entry = Entry(before: Tokens, op: Op, via: Option<nat>)

  /** `initial` are the tokens when the page was loaded, `log` all operations of the server since. */
  datatype World = World(client: Client, jar: Option<Secret>, tokens: Tokens, initial: Tokens, log: seq<Entry>)

  datatype Step =
    | BeginS
    | FirstResponseS(i: nat, unauthorized: bool)
    | HandleS(f: nat, c: Circumstances)   // the server handles the POST, perhaps after the page gave it up
    | DeliverS(f: nat)                     // its answer, with cookies, reaches the browser
    | LoseS(f: nat)                        // the fetch throws: request or answer lost
    | ResumeS(i: nat)
    | SecondResponseS(i: nat)
    | ElsewhereS(op: Op)                   // any other operation of the server, of any user and session

  /** The answer a flight still has to deliver. */
  predicate Pending(fl: Flight) {
    fl.result.None? && fl.answer.Some?
  }

  ghost predicate Enabled(w: World, step: Step) {
    var c := w.client;
    match step
    case BeginS => true
    case FirstResponseS(i, _) => i < |c.requests| && c.requests[i].phase == First
    case HandleS(f, _) => f < |c.flights| && c.flights[f].answer.None?
    case DeliverS(f) => f < |c.flights| && Pending(c.flights[f])
    case LoseS(f) => f < |c.flights| && c.flights[f].result.None?
    case ResumeS(i) =>
      && i < |c.requests| && c.requests[i].phase == Waiting && c.requests[i].via.Some?
      && c.requests[i].via.value < |c.flights| && c.flights[c.requests[i].via.value].result.Some?
    case SecondResponseS(i) => i < |c.requests| && c.requests[i].phase == Second
    case ElsewhereS(_) => true
  }

  function Jar(jar: Option<Secret>, change: CookieChange): Option<Secret> {
    match change
    case KeepCookie => jar
    case ClearCookie => None
    case SetCookie(value) => Some(value)
  }

  /** The server runs `op`. */
  function Serve(w: World, op: Op, via: Option<nat>): World {
    w.(tokens := Apply(w.tokens, op).tokens, log := w.log + [Entry(w.tokens, op, via)])
  }

  function Answered(c: Client, f: nat, o: Outcome, at: nat): Client
    requires f < |c.flights|
  {
    c.(flights := c.flights[f := c.flights[f].(answer := Some(Answer(o.response, o.cookie, at)))])
  }

  ghost function Do(w: World, step: Step): World
    requires Enabled(w, step)
  {
    var c := w.client;
    match step
    case BeginS => w.(client := StartRequest(c))
    case FirstResponseS(i, unauthorized) => w.(client := FirstResponse(c, i, unauthorized, w.jar))
    case HandleS(f, circ) =>
      var op := DoRefresh(c.flights[f].sent, circ);
      Serve(w, op, Some(f)).(client := Answered(c, f, Apply(w.tokens, op), |w.log|))
    case DeliverS(f) =>
      var a := c.flights[f].answer.value;
      w.(client := Settle(c, f, true, a.response.Refreshed?), jar := Jar(w.jar, a.cookie))
    case LoseS(f) => w.(client := Settle(c, f, false, false))
    case ResumeS(i) => w.(client := Resume(c, i))
    case SecondResponseS(i) => w.(client := SecondResponse(c, i))
    case ElsewhereS(op) => Serve(w, op, None)
  }

  /** A page just loaded: no requests, and the jar holds nothing or a token the server knows, revoked or not. */
  ghost predicate Start(w: World) {
    && w.client == Client([], [], None) && w.initial == w.tokens && w.log == []
    && (w.jar.Some? ==> w.jar.value in w.tokens)
  }

  ghost predicate Next(w: World, w': World) {
    exists step :: Enabled(w, step) && w' == Do(w, step)
  }

  ghost predicate Run(ws: seq<World>) {
    && ws != [] && Start(ws[0])
    && forall i :: 0 <= i < |ws| - 1 ==> Next(ws[i], ws[i + 1])
  }

  // ---------------------------------------------------------------- single flight

  ghost predicate FlightInv(c: Client) {
    && (c.refreshing.Some? ==> c.refreshing.value == |c.flights| - 1)
    && (forall f :: 0 <= f < |c.flights| ==> (c.flights[f].result.None? <==> c.refreshing == Some(f)))
    && (forall f :: 0 <= f < |c.flights| && c.flights[f].delivered ==> c.flights[f].answer.Some?)
  }

  ghost predicate RequestInv(c: Client) {
    forall i :: 0 <= i < |c.requests| ==>
      var r := c.requests[i];
      && (r.via.Some? ==> r.via.value < |c.flights|)
      && match r.phase
         case First => r.fetches == 1 && r.via.None?
         case Waiting => r.fetches == 1 && r.via.Some?
         case Second => r.fetches == 2 && r.via.Some? && c.flights[r.via.value].result == Some(true)
         case Settled => r.fetches == (if r.via.Some? && c.flights[r.via.value].result == Some(true) then 2 else 1) &&
                         (r.via.Some? ==> c.flights[r.via.value].result.Some?)
  }

  lemma FlightStep(w: World, step: Step)
    requires FlightInv(w.client) && Enabled(w, step)
    ensures FlightInv(Do(w, step).client)
  {
  }

  lemma FirstResponseStep(c: Client, i: nat, unauthorized: bool, jar: Option<Secret>)
    requires FlightInv(c) && RequestInv(c) && i < |c.requests| && c.requests[i].phase == First
    ensures RequestInv(FirstResponse(c, i, unauthorized, jar))
  {
  }

  lemma SettleStep(c: Client, f: nat, delivered: bool, ok: bool)
    requires RequestInv(c) && f < |c.flights| && c.flights[f].result.None?
    ensures RequestInv(Settle(c, f, delivered, ok))
  {
  }

  lemma ResumeStep(c: Client, i: nat)
    requires RequestInv(c) && i < |c.requests| && c.requests[i].phase == Waiting && c.requests[i].via.Some?
    requires c.requests[i].via.value < |c.flights| && c.flights[c.requests[i].via.value].result.Some?
    ensures RequestInv(Resume(c, i))
  {
  }

  lemma RequestStep(w: World, step: Step)
    requires FlightInv(w.client) && RequestInv(w.client) && Enabled(w, step)
    ensures RequestInv(Do(w, step).client)
  {
    match step {
      case FirstResponseS(i, unauthorized) => FirstResponseStep(w.client, i, unauthorized, w.jar);
      case DeliverS(f) => SettleStep(w.client, f, true, w.client.flights[f].answer.value.response.Refreshed?);
      case LoseS(f) => SettleStep(w.client, f, false, false);
      case ResumeS(i) => ResumeStep(w.client, i);
      case _ =>
    }
  }

  lemma ClientStep(w: World, step: Step)
    requires FlightInv(w.client) && RequestInv(w.client) && Enabled(w, step)
    ensures FlightInv(Do(w, step).client) && RequestInv(Do(w, step).client)
  {
    FlightStep(w, step);
    RequestStep(w, step);
  }

  // ---------------------------------------------------------------- what the server did

  /** The operation took the token from live to revoked. */
  ghost predicate Revokes(e: Entry, t: Secret) {
    Live(e.before, t) && Spent(Apply(e.before, e.op).tokens, t)
  }

  /** One of the first `n` operations revoked the token. */
  ghost predicate RevokedBy(log: seq<Entry>, n: nat, t: Secret)
    requires n <= |log|
  {
    exists i :: 0 <= i < n && Revokes(log[i], t)
  }

  ghost predicate LogInv(w: World) {
    && (forall t :: t in w.initial ==> t in w.tokens)
    && (forall t :: Spent(w.tokens, t) <==> RevokedBefore(w, |w.log|, t))
  }

  /** The token was revoked when the page was loaded, or by one of the first `n` operations since. */
  ghost predicate RevokedBefore(w: World, n: nat, t: Secret)
    requires n <= |w.log|
  {
    Spent(w.initial, t) || RevokedBy(w.log, n, t)
  }

  lemma RevokedByMore(log: seq<Entry>, e: Entry, n: nat, t: Secret)
    requires n <= |log|
    ensures RevokedBy(log + [e], n, t) <==> RevokedBy(log, n, t)
    ensures RevokedBy(log + [e], |log| + 1, t) <==> RevokedBy(log, |log|, t) || Revokes(e, t)
  {
    assert forall i :: 0 <= i < |log| ==> (log + [e])[i] == log[i];
    if i :| 0 <= i < |log| && Revokes(log[i], t) {
      assert Revokes((log + [e])[i], t);
    }
    if i :| 0 <= i < n && Revokes(log[i], t) {
      assert Revokes((log + [e])[i], t);
    }
    assert (log + [e])[|log|] == e;
  }

  lemma ServeKeepsLog(w: World, op: Op, via: Option<nat>)
    requires LogInv(w)
    ensures LogInv(Serve(w, op, via))
  {
    var w' := Serve(w, op, via);
    var e := Entry(w.tokens, op, via);
    forall t | t in w.initial ensures t in w'.tokens {
      StepKeepsRevocation(w.tokens, op, t);
    }
    forall t ensures Spent(w'.tokens, t) <==> RevokedBefore(w', |w'.log|, t) {
      assert Spent(w.tokens, t) <==> RevokedBefore(w, |w.log|, t);
      RevokedByMore(w.log, e, |w.log|, t);
      if t in w.tokens {
        StepKeepsRevocation(w.tokens, op, t);
      } else if t in w'.tokens {
        NewTokensLive(w.tokens, op, t);
      }
    }
  }

  // ---------------------------------------------------------------- tokens

  ghost predicate TokenInv(w: World) {
    && (w.jar.Some? ==> w.jar.value in w.tokens)
    && (forall f :: 0 <= f < |w.client.flights| && w.client.flights[f].sent.Some? ==> w.client.flights[f].sent.value in w.tokens)
  }

  ghost predicate NeverSent(flights: seq<Flight>, t: Secret) {
    forall g :: 0 <= g < |flights| ==> flights[g].sent != Some(t)
  }

  ghost predicate AnswerInv(w: World, a: Answer) {
    && (a.response.Refreshed? ==>
          a.cookie == SetCookie(a.response.issued) && a.response.issued in w.tokens && NeverSent(w.client.flights, a.response.issued))
    && (!a.response.Refreshed? ==> a.cookie == KeepCookie || a.cookie == ClearCookie)
  }

  ghost predicate InFlightInv(w: World) {
    w.client.refreshing.Some? && w.client.refreshing.value < |w.client.flights| ==>
      var fl := w.client.flights[w.client.refreshing.value];
      fl.sent == w.jar && (Pending(fl) ==> AnswerInv(w, fl.answer.value))
  }

  /** Answers and the log's entries of this page belong together. */
  ghost predicate OwnEntry(w: World, g: nat) {
    g < |w.client.flights| && w.client.flights[g].answer.Some? ==>
      var fl := w.client.flights[g];
      var i := fl.answer.value.at;
      && i < |w.log| && w.log[i].via == Some(g) && w.log[i].op.DoRefresh? && w.log[i].op.cookie == fl.sent
      && fl.answer.value.response == Apply(w.log[i].before, w.log[i].op).response
  }

  ghost predicate OwnInv(w: World) {
    && (forall g :: 0 <= g < |w.client.flights| ==> OwnEntry(w, g))
    && (forall i :: 0 <= i < |w.log| && w.log[i].via.Some? ==>
          w.log[i].via.value < |w.client.flights| && w.client.flights[w.log[i].via.value].answer.Some? &&
          w.client.flights[w.log[i].via.value].answer.value.at == i)
  }

  /** Flight `f`, if its token query succeeded, was answered by reuse detection exactly when the token it
      presented was revoked at load or by an earlier operation. */
  ghost predicate Explained(w: World, f: nat) {
    f < |w.client.flights| && w.client.flights[f].answer.Some? && w.client.flights[f].answer.value.response != LookupFailed ==>
      var fl := w.client.flights[f];
      fl.answer.value.at <= |w.log| &&
      (fl.answer.value.response == ReuseDetected <==> fl.sent.Some? && RevokedBefore(w, fl.answer.value.at, fl.sent.value))
  }

  ghost predicate ReuseExplained(w: World) {
    forall f :: 0 <= f < |w.client.flights| ==> Explained(w, f)
  }

  ghost predicate Inv(w: World) {
    && FlightInv(w.client) && RequestInv(w.client) && LogInv(w)
    && TokenInv(w) && InFlightInv(w) && OwnInv(w) && ReuseExplained(w)
  }

  /** A new entry leaves everything said about earlier flights as it was. */
  lemma ServeKeepsTokens(w: World, op: Op, via: Option<nat>)
    requires TokenInv(w) && InFlightInv(w) && ReuseExplained(w)
    ensures TokenInv(Serve(w, op, via)) && InFlightInv(Serve(w, op, via)) && ReuseExplained(Serve(w, op, via))
  {
    var w' := Serve(w, op, via);
    forall t | t in w.tokens ensures t in w'.tokens {
      StepKeepsRevocation(w.tokens, op, t);
    }
    forall f | 0 <= f < |w.client.flights| ensures Explained(w', f) {
      assert Explained(w, f);
      var fl := w.client.flights[f];
      if fl.answer.Some? && fl.answer.value.response != LookupFailed && fl.sent.Some? {
        RevokedByMore(w.log, Entry(w.tokens, op, via), fl.answer.value.at, fl.sent.value);
      }
    }
  }

  lemma ElsewhereKeepsInv(w: World, op: Op)
    requires Inv(w)
    ensures Inv(Serve(w, op, None))
  {
    ServeKeepsLog(w, op, None);
    ServeKeepsTokens(w, op, None);
    var w' := Serve(w, op, None);
    forall g | 0 <= g < |w'.client.flights| ensures OwnEntry(w', g) {
      assert OwnEntry(w, g);
    }
  }

  /** What the server answers to a presented token. */
  lemma HandledExplained(w: World, f: nat, circ: Circumstances)
    requires LogInv(w) && TokenInv(w) && Enabled(w, HandleS(f, circ))
    ensures Explained(Do(w, HandleS(f, circ)), f)
  {
    var sent := w.client.flights[f].sent;
    var op := DoRefresh(sent, circ);
    ReuseIff(w.tokens, sent, circ);
    if sent.Some? {
      RevokedByMore(w.log, Entry(w.tokens, op, Some(f)), |w.log|, sent.value);
    }
  }

  /** The token it issues is new to everybody. */
  lemma HandledAnswer(w: World, f: nat, circ: Circumstances)
    requires LogInv(w) && TokenInv(w) && Enabled(w, HandleS(f, circ))
    ensures var w' := Do(w, HandleS(f, circ)); AnswerInv(w', w'.client.flights[f].answer.value)
  {
    var w' := Do(w, HandleS(f, circ));
    assert forall g :: 0 <= g < |w.client.flights| ==> w'.client.flights[g].sent == w.client.flights[g].sent;
  }

  lemma AnsweredKeepsTokens(w: World, f: nat, circ: Circumstances)
    requires Inv(w) && Enabled(w, HandleS(f, circ))
    ensures TokenInv(Do(w, HandleS(f, circ))) && InFlightInv(Do(w, HandleS(f, circ)))
  {
    var w' := Do(w, HandleS(f, circ));
    var served := Serve(w, DoRefresh(w.client.flights[f].sent, circ), Some(f));
    ServeKeepsTokens(w, DoRefresh(w.client.flights[f].sent, circ), Some(f));
    HandledAnswer(w, f, circ);
    assert forall g :: 0 <= g < |w.client.flights| ==> w'.client.flights[g].sent == served.client.flights[g].sent;
    forall t: Secret ensures NeverSent(w'.client.flights, t) <==> NeverSent(served.client.flights, t) {
      assert forall g :: 0 <= g < |w.client.flights| ==> (w'.client.flights[g].sent == Some(t) <==> served.client.flights[g].sent == Some(t));
    }
  }

  lemma AnsweredKeepsOwn(w: World, f: nat, circ: Circumstances)
    requires OwnInv(w) && Enabled(w, HandleS(f, circ))
    ensures OwnInv(Do(w, HandleS(f, circ)))
  {
    var w' := Do(w, HandleS(f, circ));
    forall g | 0 <= g < |w'.client.flights| ensures OwnEntry(w', g) {
      assert OwnEntry(w, g);
    }
  }

  lemma AnsweredKeepsExplained(w: World, f: nat, circ: Circumstances)
    requires Inv(w) && Enabled(w, HandleS(f, circ))
    ensures ReuseExplained(Do(w, HandleS(f, circ)))
  {
    var w' := Do(w, HandleS(f, circ));
    var op := DoRefresh(w.client.flights[f].sent, circ);
    ServeKeepsTokens(w, op, Some(f));
    HandledExplained(w, f, circ);
    forall g | 0 <= g < |w'.client.flights| ensures Explained(w', g) {
      if g != f {
        assert Explained(Serve(w, op, Some(f)), g);
      }
    }
  }

  lemma HandleKeepsInv(w: World, f: nat, circ: Circumstances)
    requires Inv(w) && Enabled(w, HandleS(f, circ))
    ensures Inv(Do(w, HandleS(f, circ)))
  {
    ClientStep(w, HandleS(f, circ));
    ServeKeepsLog(w, DoRefresh(w.client.flights[f].sent, circ), Some(f));
    AnsweredKeepsTokens(w, f, circ);
    AnsweredKeepsOwn(w, f, circ);
    AnsweredKeepsExplained(w, f, circ);
  }

  /** Client and jar move, the server does not: what was sent and answered stays. */
  ghost predicate SameFlights(a: seq<Flight>, b: seq<Flight>) {
    |a| <= |b| && (forall g :: 0 <= g < |a| ==> a[g].sent == b[g].sent && a[g].answer == b[g].answer) &&
    forall g :: |a| <= g < |b| ==> b[g].answer.None?
  }

  lemma ClientKeepsHistory(w: World, w': World)
    requires LogInv(w) && OwnInv(w) && ReuseExplained(w)
    requires w'.tokens == w.tokens && w'.initial == w.initial && w'.log == w.log
    requires SameFlights(w.client.flights, w'.client.flights)
    ensures LogInv(w') && OwnInv(w') && ReuseExplained(w')
  {
    forall g | 0 <= g < |w'.client.flights| ensures OwnEntry(w', g) && Explained(w', g) {
      if g < |w.client.flights| {
        assert OwnEntry(w, g) && Explained(w, g);
      }
    }
  }

  lemma SettleKeepsTokens(w: World, f: nat, step: Step)
    requires Inv(w) && Enabled(w, step) && (step == DeliverS(f) || step == LoseS(f))
    ensures TokenInv(Do(w, step)) && InFlightInv(Do(w, step))
    ensures SameFlights(w.client.flights, Do(w, step).client.flights)
  {
    assert w.client.refreshing == Some(f);
    assert forall g :: 0 <= g < |w.client.flights| ==> Do(w, step).client.flights[g].sent == w.client.flights[g].sent;
  }

  lemma FirstResponseKeepsTokens(w: World, i: nat, unauthorized: bool)
    requires Inv(w) && Enabled(w, FirstResponseS(i, unauthorized))
    ensures TokenInv(Do(w, FirstResponseS(i, unauthorized))) && InFlightInv(Do(w, FirstResponseS(i, unauthorized)))
    ensures SameFlights(w.client.flights, Do(w, FirstResponseS(i, unauthorized)).client.flights)
  {
    var w' := Do(w, FirstResponseS(i, unauthorized));
    assert forall g :: 0 <= g < |w.client.flights| ==> w'.client.flights[g] == w.client.flights[g];
  }

  lemma QuietKeepsTokens(w: World, step: Step)
    requires Inv(w) && Enabled(w, step) && (step.BeginS? || step.ResumeS? || step.SecondResponseS?)
    ensures TokenInv(Do(w, step)) && InFlightInv(Do(w, step))
    ensures SameFlights(w.client.flights, Do(w, step).client.flights)
  {
  }

  /** What the steps of the client do to jar, tokens and flights. */
  lemma ClientMovesTokens(w: World, step: Step)
    requires Inv(w) && Enabled(w, step) && !step.HandleS? && !step.ElsewhereS?
    ensures TokenInv(Do(w, step)) && InFlightInv(Do(w, step))
    ensures SameFlights(w.client.flights, Do(w, step).client.flights)
  {
    match step {
      case DeliverS(f) => SettleKeepsTokens(w, f, step);
      case LoseS(f) => SettleKeepsTokens(w, f, step);
      case FirstResponseS(i, u) => FirstResponseKeepsTokens(w, i, u);
      case _ => QuietKeepsTokens(w, step);
    }
  }

  lemma ClientMoves(w: World, step: Step)
    requires Inv(w) && Enabled(w, step) && !step.HandleS? && !step.ElsewhereS?
    ensures Inv(Do(w, step))
  {
    ClientMovesTokens(w, step);
    ClientStep(w, step);
    ClientKeepsHistory(w, Do(w, step));
  }

  lemma StepKeepsInv(w: World, step: Step)
    requires Inv(w) && Enabled(w, step)
    ensures Inv(Do(w, step))
  {
    match step {
      case HandleS(f, c) => HandleKeepsInv(w, f, c);
      case ElsewhereS(op) => ElsewhereKeepsInv(w, op);
      case _ => ClientMoves(w, step);
    }
  }

  lemma NextKeepsInv(w: World, w': World)
    requires Inv(w) && Next(w, w')
    ensures Inv(w')
  {
    var step :| Enabled(w, step) && w' == Do(w, step);
    StepKeepsInv(w, step);
  }

  lemma StartInv(w: World)
    requires Start(w)
    ensures Inv(w)
  {
  }

  lemma {:induction false} RunKeepsInv(ws: seq<World>)
    requires Run(ws)
    ensures Inv(ws[|ws| - 1])
    decreases |ws|
  {
    var n := |ws| - 1;
    if n > 0 {
      RunKeepsInv(ws[..n]);
      assert ws[..n][n - 1] == ws[n - 1];
      assert Next(ws[n - 1], ws[n - 1 + 1]);
      NextKeepsInv(ws[n - 1], ws[n]);
    } else {
      StartInv(ws[0]);
    }
  }

  /** Over every run: at most one refresh POST is in flight, every request fetches its URL at most twice,
      and requests that waited for the same flight got the same verdict. */
  lemma SingleFlight(ws: seq<World>)
    requires Run(ws)
    ensures var c := ws[|ws| - 1].client;
            && (forall f, g :: 0 <= f < |c.flights| && 0 <= g < |c.flights| && c.flights[f].result.None? && c.flights[g].result.None? ==> f == g)
            && (forall i :: 0 <= i < |c.requests| ==> c.requests[i].fetches <= 2)
            && (forall i, j :: 0 <= i < |c.requests| && 0 <= j < |c.requests| && c.requests[i].via.Some? &&
                               c.requests[i].via == c.requests[j].via &&
                               c.requests[i].phase == Settled && c.requests[j].phase == Settled ==>
                               c.requests[i].fetches == c.requests[j].fetches)
  {
    RunKeepsInv(ws);
  }

  /** Over every run, with lost refreshes the server handles late, failing writes and any other sessions:
      reuse detection answers a refresh of this page (whose token query did not fail) exactly when the token
      it presented was revoked at load or by an earlier operation of the server. `RevokesIff` says which do. */
  lemma ReuseFiresIff(ws: seq<World>, f: nat)
    requires Run(ws) && f < |ws[|ws| - 1].client.flights| && ws[|ws| - 1].client.flights[f].answer.Some?
    requires ws[|ws| - 1].client.flights[f].answer.value.response != LookupFailed
    ensures var w := ws[|ws| - 1];
            var a := w.client.flights[f].answer.value;
            && a.at < |w.log| && w.log[a.at].via == Some(f)
            && (a.response == ReuseDetected <==>
                w.client.flights[f].sent.Some? && RevokedBefore(w, a.at, w.client.flights[f].sent.value))
  {
    RunKeepsInv(ws);
    assert OwnEntry(ws[|ws| - 1], f) && Explained(ws[|ws| - 1], f);
  }

  // ---------------------------------------------------------------- no token twice

  /** Every settled refresh was delivered and had rotated the token. */
  ghost predicate Smooth(c: Client) {
    forall f :: 0 <= f < |c.flights| && c.flights[f].result.Some? ==>
      c.flights[f].delivered && c.flights[f].answer.Some? && c.flights[f].answer.value.response.Refreshed?
  }

  ghost predicate SentDistinct(w: World) {
    && (forall f, g :: 0 <= f < g < |w.client.flights| && w.client.flights[f].sent.Some? ==> w.client.flights[f].sent != w.client.flights[g].sent)
    && (w.client.refreshing.None? && w.jar.Some? ==> NeverSent(w.client.flights, w.jar.value))
  }

  lemma SmoothBefore(w: World, step: Step)
    requires FlightInv(w.client) && Enabled(w, step) && Smooth(Do(w, step).client)
    ensures Smooth(w.client)
  {
    var w' := Do(w, step);
    forall f | 0 <= f < |w.client.flights| && w.client.flights[f].result.Some?
      ensures w.client.flights[f].delivered && w.client.flights[f].answer.Some? && w.client.flights[f].answer.value.response.Refreshed?
    {
      assert w'.client.flights[f].result.Some?;
    }
  }

  lemma DeliverKeepsDistinct(w: World, f: nat)
    requires Inv(w) && Enabled(w, DeliverS(f)) && SentDistinct(w) && Smooth(Do(w, DeliverS(f)).client)
    ensures SentDistinct(Do(w, DeliverS(f)))
  {
    var w' := Do(w, DeliverS(f));
    assert w.client.refreshing == Some(f);
    assert w'.client.flights[f].result.Some?;
    assert forall g :: 0 <= g < |w.client.flights| ==> w'.client.flights[g].sent == w.client.flights[g].sent;
  }

  lemma FirstResponseKeepsDistinct(w: World, i: nat, unauthorized: bool)
    requires Inv(w) && Enabled(w, FirstResponseS(i, unauthorized)) && SentDistinct(w)
    ensures SentDistinct(Do(w, FirstResponseS(i, unauthorized)))
  {
    var w' := Do(w, FirstResponseS(i, unauthorized));
    assert forall g :: 0 <= g < |w.client.flights| ==> w'.client.flights[g] == w.client.flights[g];
  }

  lemma SameSentKeepsDistinct(w: World, w': World)
    requires SentDistinct(w) && w'.jar == w.jar && w'.client.refreshing == w.client.refreshing
    requires |w'.client.flights| == |w.client.flights|
    requires forall g :: 0 <= g < |w.client.flights| ==> w'.client.flights[g].sent == w.client.flights[g].sent
    ensures SentDistinct(w')
  {
  }

  lemma LossIsRough(w: World, f: nat)
    requires Enabled(w, LoseS(f))
    ensures !Smooth(Do(w, LoseS(f)).client)
  {
    assert Do(w, LoseS(f)).client.flights[f].result.Some?;
  }

  lemma StepKeepsDistinct(w: World, step: Step)
    requires Inv(w) && Enabled(w, step) && SentDistinct(w)
    ensures Smooth(Do(w, step).client) ==> SentDistinct(Do(w, step))
  {
    match step {
      case FirstResponseS(i, u) => FirstResponseKeepsDistinct(w, i, u);
      case DeliverS(f) => if Smooth(Do(w, step).client) { DeliverKeepsDistinct(w, f); }
      case LoseS(f) => LossIsRough(w, f);
      case _ => SameSentKeepsDistinct(w, Do(w, step));
    }
  }

  lemma NextKeepsDistinct(w: World, w': World)
    requires Inv(w) && Next(w, w') && Smooth(w'.client)
    requires Smooth(w.client) ==> SentDistinct(w)
    ensures SentDistinct(w')
  {
    var step :| Enabled(w, step) && w' == Do(w, step);
    SmoothBefore(w, step);
    StepKeepsDistinct(w, step);
  }

  lemma {:induction false} RunKeepsDistinct(ws: seq<World>)
    requires Run(ws)
    ensures Smooth(ws[|ws| - 1].client) ==> SentDistinct(ws[|ws| - 1])
    decreases |ws|
  {
    var n := |ws| - 1;
    if n > 0 {
      RunKeepsDistinct(ws[..n]);
      RunKeepsInv(ws[..n]);
      assert ws[..n][n - 1] == ws[n - 1];
      assert Next(ws[n - 1], ws[n - 1 + 1]);
      if Smooth(ws[n].client) {
        NextKeepsDistinct(ws[n - 1], ws[n]);
      }
    }
  }

  /** No token this page presented was revoked when it was loaded, or by another session since. */
  ghost predicate OthersSpare(w: World) {
    && (forall f :: 0 <= f < |w.client.flights| && w.client.flights[f].sent.Some? ==> !Spent(w.initial, w.client.flights[f].sent.value))
    && forall i, f :: 0 <= i < |w.log| && w.log[i].via.None? && 0 <= f < |w.client.flights| && w.client.flights[f].sent.Some? ==>
      !Revokes(w.log[i], w.client.flights[f].sent.value)
  }

  lemma RotationRevokesOwn(e: Entry, t: Secret)
    requires e.op.DoRefresh? && Apply(e.before, e.op).response.Refreshed? && Revokes(e, t)
    ensures e.op.cookie == Some(t)
  {
    RevokesIff(e.before, e.op, t);
  }

  lemma NoReuse(w: World, f: nat)
    requires Inv(w) && Smooth(w.client) && SentDistinct(w) && OthersSpare(w)
    requires f < |w.client.flights| && w.client.flights[f].answer.Some?
    ensures w.client.flights[f].answer.value.response != ReuseDetected
  {
    var fl := w.client.flights[f];
    assert OwnEntry(w, f) && Explained(w, f);
    if fl.result.None? && fl.sent.Some? {
      forall i | 0 <= i < fl.answer.value.at ensures !Revokes(w.log[i], fl.sent.value) {
        if w.log[i].via.Some? {
          var g := w.log[i].via.value;
          assert OwnEntry(w, g);
          assert g != f && w.client.flights[g].result.Some?;
          if Revokes(w.log[i], fl.sent.value) {
            RotationRevokesOwn(w.log[i], fl.sent.value);
          }
        }
      }
    }
  }

  /** If all refresh answers so far were delivered and successful, no token was presented twice; and unless
      another session revoked one of them, reuse detection has not fired. */
  lemma NeverTwice(ws: seq<World>)
    requires Run(ws) && Smooth(ws[|ws| - 1].client)
    ensures var flights := ws[|ws| - 1].client.flights;
            forall f, g :: 0 <= f < g < |flights| && flights[f].sent.Some? ==> flights[f].sent != flights[g].sent
    ensures var flights := ws[|ws| - 1].client.flights;
            OthersSpare(ws[|ws| - 1]) ==>
              forall f :: 0 <= f < |flights| && flights[f].answer.Some? ==> flights[f].answer.value.response != ReuseDetected
  {
    RunKeepsDistinct(ws);
    RunKeepsInv(ws);
    var w := ws[|ws| - 1];
    if OthersSpare(w) {
      forall f | 0 <= f < |w.client.flights| && w.client.flights[f].answer.Some?
        ensures w.client.flights[f].answer.value.response != ReuseDetected
      {
        NoReuse(w, f);
      }
    }
  }

  // ---------------------------------------------------------------- exactly when a token is presented twice

  /** The cookie after a flight that started with `fl.sent`. */
  function CookieAfter(fl: Flight): Option<Secret> {
    if fl.delivered && fl.answer.Some? then Jar(fl.sent, fl.answer.value.cookie) else fl.sent
  }

  predicate SetsCookie(fl: Flight) {
    fl.delivered && fl.answer.Some? && fl.answer.value.cookie.SetCookie?
  }

  /** Each flight presents what the one before left in the jar, and a cookie set was never sent before. */
  ghost predicate ChainInv(w: World) {
    var flights := w.client.flights;
    && (forall f :: 0 <= f < |flights| - 1 ==> flights[f + 1].sent == CookieAfter(flights[f]))
    && (w.client.refreshing.None? && flights != [] ==> w.jar == CookieAfter(flights[|flights| - 1]))
    && (forall f :: 0 <= f < |flights| && flights[f].result.None? ==> !flights[f].delivered)
    && (forall f, g :: 0 <= g <= f < |flights| && SetsCookie(flights[f]) ==>
          flights[g].sent != Some(flights[f].answer.value.cookie.value))
  }

  /** An answer that was not delivered changes neither what a flight sent nor what it left in the jar. */
  predicate SameTrace(a: Flight, b: Flight) {
    a.sent == b.sent && a.result == b.result && a.delivered == b.delivered && (a.delivered ==> a == b)
  }

  lemma SameTraceKeepsChain(w: World, w': World)
    requires ChainInv(w) && w'.jar == w.jar && w'.client.refreshing == w.client.refreshing
    requires |w'.client.flights| == |w.client.flights|
    requires forall g :: 0 <= g < |w.client.flights| ==> SameTrace(w.client.flights[g], w'.client.flights[g])
    ensures ChainInv(w')
  {
    var a, b := w.client.flights, w'.client.flights;
    forall g | 0 <= g < |a|
      ensures b[g].sent == a[g].sent && CookieAfter(b[g]) == CookieAfter(a[g]) && (SetsCookie(b[g]) ==> b[g] == a[g])
    {
      assert SameTrace(a[g], b[g]);
    }
  }

  lemma ServedKeepsChain(w: World, f: nat, circ: Circumstances)
    requires FlightInv(w.client) && ChainInv(w) && Enabled(w, HandleS(f, circ))
    ensures ChainInv(Do(w, HandleS(f, circ)))
  {
    var flights, flights' := w.client.flights, Do(w, HandleS(f, circ)).client.flights;
    assert !flights[f].delivered;
    assert forall g :: 0 <= g < |flights| && g != f ==> flights'[g] == flights[g];
    SameTraceKeepsChain(w, Do(w, HandleS(f, circ)));
  }

  lemma SettledKeepsChain(w: World, f: nat, step: Step)
    requires Inv(w) && ChainInv(w) && Enabled(w, step) && (step == DeliverS(f) || step == LoseS(f))
    ensures ChainInv(Do(w, step))
  {
    var flights, flights' := w.client.flights, Do(w, step).client.flights;
    assert w.client.refreshing == Some(f) && f == |flights| - 1;
    forall g | 0 <= g < f ensures flights'[g] == flights[g] {}
    assert flights'[f].sent == flights[f].sent && flights'[f].answer == flights[f].answer;
  }

  lemma StartedKeepsChain(w: World, i: nat, unauthorized: bool)
    requires Inv(w) && ChainInv(w) && Enabled(w, FirstResponseS(i, unauthorized))
    ensures ChainInv(Do(w, FirstResponseS(i, unauthorized)))
  {
    var flights, flights' := w.client.flights, Do(w, FirstResponseS(i, unauthorized)).client.flights;
    assert forall g :: 0 <= g < |flights| ==> flights'[g] == flights[g];
  }

  lemma StepKeepsChain(w: World, step: Step)
    requires Inv(w) && ChainInv(w) && Enabled(w, step)
    ensures ChainInv(Do(w, step))
  {
    match step {
      case HandleS(f, c) => ServedKeepsChain(w, f, c);
      case DeliverS(f) => SettledKeepsChain(w, f, step);
      case LoseS(f) => SettledKeepsChain(w, f, step);
      case FirstResponseS(i, u) => StartedKeepsChain(w, i, u);
      case _ => assert Do(w, step).client.flights == w.client.flights;
    }
  }

  lemma {:induction false} RunKeepsChain(ws: seq<World>)
    requires Run(ws)
    ensures ChainInv(ws[|ws| - 1])
    decreases |ws|
  {
    var n := |ws| - 1;
    if n > 0 {
      RunKeepsChain(ws[..n]);
      RunKeepsInv(ws[..n]);
      assert ws[..n][n - 1] == ws[n - 1];
      assert Next(ws[n - 1], ws[n - 1 + 1]);
      var step :| Enabled(ws[n - 1], step) && ws[n] == Do(ws[n - 1], step);
      StepKeepsChain(ws[n - 1], step);
    }
  }

  ghost predicate PresentedTwice(flights: seq<Flight>) {
    exists f, g :: 0 <= f < g < |flights| && flights[f].sent.Some? && flights[f].sent == flights[g].sent
  }

  /** The flight left the token it presented in the jar: its answer was lost, or kept the cookie. */
  predicate LeftBehind(fl: Flight) {
    fl.sent.Some? && (!fl.delivered || fl.answer.None? || fl.answer.value.cookie == KeepCookie)
  }

  /** Over every run: some token is presented twice exactly when some flight before the last presented a
      token and left it in the jar. */
  lemma PresentedTwiceIff(ws: seq<World>)
    requires Run(ws)
    ensures var flights := ws[|ws| - 1].client.flights;
            PresentedTwice(flights) <==> exists f :: 0 <= f < |flights| - 1 && LeftBehind(flights[f])
  {
    RunKeepsChain(ws);
    var flights := ws[|ws| - 1].client.flights;
    if f :| 0 <= f < |flights| - 1 && LeftBehind(flights[f]) {
      assert flights[f + 1].sent == CookieAfter(flights[f]) == flights[f].sent;
    }
    if f, g :| 0 <= f < g < |flights| && flights[f].sent.Some? && flights[f].sent == flights[g].sent {
      assert flights[(g - 1) + 1].sent == CookieAfter(flights[g - 1]);
      assert LeftBehind(flights[g - 1]);
    }
  }

  ghost predicate AllDelivered(c: Client) {
    forall f :: 0 <= f < |c.flights| && c.flights[f].result.Some? ==> c.flights[f].delivered
  }

  lemma RunNext(ws: seq<World>, step: Step) returns (longer: seq<World>)
    requires Run(ws) && Enabled(ws[|ws| - 1], step)
    ensures Run(longer) && longer[|longer| - 1] == Do(ws[|ws| - 1], step)
  {
    var w' := Do(ws[|ws| - 1], step);
    longer := ws + [w'];
    assert Next(ws[|ws| - 1], w');
    assert forall i :: 0 <= i < |ws| ==> longer[i] == ws[i];
  }

  /** Delivery alone is not enough: a page loads with a live token and makes two requests; when the user
      lookup of the first refresh fails after the revocation, its answer leaves the revoked cookie in place,
      and the refresh of the second request is taken for reuse. */
  lemma RefusedRefreshStrandsToken(w: World, c1: Circumstances, c2: Circumstances) returns (ws: seq<World>)
    requires Start(w) && w.jar.Some? && Live(w.tokens, w.jar.value) && c1.now <= w.tokens[w.jar.value].expiresAt
    requires c1.lookupOk && c2.lookupOk && c1.revokeOk && !c1.userFound
    ensures Run(ws)
    ensures var last := ws[|ws| - 1].client;
            AllDelivered(last) && |last.flights| == 2 && last.flights[1].answer.Some? &&
            last.flights[1].answer.value.response == ReuseDetected
  {
    ws := [w];
    ws := RunNext(ws, BeginS);
    ws := RunNext(ws, BeginS);
    ws := RunNext(ws, FirstResponseS(0, true));
    assert ws[|ws| - 1].client.flights == [Flight(w.jar, None, false, None)];
    ws := RefusedOnce(ws, w.jar.value, c1);
    ws := RunNext(ws, FirstResponseS(1, true));
    ws := RunNext(ws, HandleS(1, c2));
  }

  /** The refused refresh of the only flight, delivered. */
  lemma RefusedOnce(ws: seq<World>, t: Secret, c: Circumstances) returns (longer: seq<World>)
    requires Run(ws) && c.lookupOk && c.revokeOk && !c.userFound
    requires var w := ws[|ws| - 1];
             w.client.flights == [Flight(Some(t), None, false, None)] && w.jar == Some(t) &&
             Live(w.tokens, t) && c.now <= w.tokens[t].expiresAt
    ensures Run(longer)
    ensures var w, w' := ws[|ws| - 1], longer[|longer| - 1];
            && w'.client.requests == w.client.requests && w'.client.refreshing.None? && w'.jar == Some(t)
            && |w'.client.flights| == 1 && w'.client.flights[0].result.Some? && w'.client.flights[0].delivered
            && Spent(w'.tokens, t)
  {
    longer := RunNext(ws, HandleS(0, c));
    assert longer[|longer| - 1].client.flights[0].answer.value.response == UserNotFound;
    longer := RunNext(longer, DeliverS(0));
  }
}
