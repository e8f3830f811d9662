/** The Python SDK's bounded queue and flush worker (sdk/python/promptmeter/_queue.py, _flusher.py). */
module SdkFlusher {
  import opened Sequences

  /** Event dictionaries, by identity. */
  type Event = nat

  // ---------------------------------------------------------------- the queue

  class EventQueue {
    const maxSize: int
    var items: seq<Event>

    constructor (maxSize: int)
      ensures this.maxSize == maxSize && items == []
    {
      this.maxSize := maxSize;
      items := [];
    }

    /** `queue.Queue` treats a size of zero or less as unbounded. */
    method Put(event: Event) returns (ok: bool)
      modifies this
      ensures ok == HasRoom(|old(items)|, maxSize)
      ensures items == if ok then old(items) + [event] else old(items)
    {
      ok := maxSize <= 0 || |items| < maxSize;
      if ok {
        items := items + [event];
      }
    }

    /** The loop takes `Get` steps of flusher `w`, from `s` to `t`. */
    method Drain(maxItems: nat, ghost c: Config, ghost s: State, ghost w: nat) returns (out: seq<Event>, ghost t: State)
      requires c.batchSize == maxItems && s.queue == items && w < |s.flushers| && s.flushers[w] == Draining([])
      modifies this
      ensures out + items == old(items)
      ensures |out| == if |old(items)| < maxItems then |old(items)| else maxItems
      ensures Reaches(c, s, t) && t == Drawn(s, w, out, items)
    {
      out := [];
      DrawsNothing(c, s, w);
      while |out| < maxItems && items != []
        invariant out + items == old(items) && |out| <= maxItems
        invariant Reaches(c, s, Drawn(s, w, out, items))
      {
        DrawsOne(c, s, w, out, items);
        out, items := out + [items[0]], items[1..];
      }
      t := Drawn(s, w, out, items);
    }
  }

  /** The state after flusher `w` has drawn `out`, with `rest` still queued. */
  ghost function Drawn(s: State, w: nat, out: seq<Event>, rest: seq<Event>): State
    requires w < |s.flushers|
  {
    At(s, w, Draining(out)).(queue := rest, taken := s.taken + out)
  }

  lemma DrawsNothing(c: Config, s: State, w: nat)
    requires w < |s.flushers| && s.flushers[w] == Draining([])
    ensures Reaches(c, s, Drawn(s, w, [], s.queue))
  {
    ReachesSelf(c, s);
    assert s.flushers[w := Draining([])] == s.flushers && s.taken + [] == s.taken;
  }

  lemma DrawsOne(c: Config, s: State, w: nat, out: seq<Event>, rest: seq<Event>)
    requires w < |s.flushers| && rest != [] && |out| < c.batchSize
    requires Reaches(c, s, Drawn(s, w, out, rest))
    ensures Reaches(c, s, Drawn(s, w, out + [rest[0]], rest[1..]))
  {
    var u := Drawn(s, w, out, rest);
    ReachesNext(c, s, u, Get(w));
    assert (s.taken + out) + [rest[0]] == s.taken + (out + [rest[0]]);
    assert Do(c, u, Get(w)) == Drawn(s, w, out + [rest[0]], rest[1..]);
  }

  predicate HasRoom(length: nat, maxSize: int) {
    maxSize <= 0 || length < maxSize
  }

  // ---------------------------------------------------------------- one batch

  /** The parsed `Retry-After` header: seconds, or a value that parses as a float and makes the pause one
      `time.sleep` raises on (not a number, infinite, too large). */
  datatype RetryAfter = Seconds(value: real) | Unsleepable

  /** What a POST comes back with. */
  datatype Reply = Status(code: int, retryAfter: RetryAfter) | NetworkError | OtherException

  datatype Reaction = Done | AuthFailed | Rejected | Retry(pause: real) | Escapes

  function Pow2(n: nat): nat {
    if n == 0 then 1 else 2 * Pow2(n - 1)
  }

  function Backoff(attempt: nat): real {
    if Pow2(attempt) < 30 then Pow2(attempt) as real else 30.0
  }

  function Longer(a: real, b: real): (r: real)
    ensures r >= a && r >= b && (r == a || r == b)
  {
    if a > b then a else b
  }

  function React(reply: Reply, attempt: nat): Reaction {
    match reply
    case NetworkError => Retry(Backoff(attempt))
    case OtherException => Escapes
    case Status(code, retryAfter) =>
      if code == 202 then Done
      else if code == 401 then AuthFailed
      else if code == 400 then Rejected
      else if code == 429 then if retryAfter.Seconds? then Retry(Longer(retryAfter.value, Backoff(attempt))) else Escapes
      else if code >= 500 then Retry(Backoff(attempt))
      else Rejected
  }

  predicate Retryable(reply: Reply) {
    reply.NetworkError? || (reply.Status? && ((reply.code == 429 && reply.retryAfter.Seconds?) || reply.code >= 500))
  }

  predicate ServerOrNetworkError(reply: Reply) {
    reply.NetworkError? || (reply.Status? && reply.code >= 500)
  }

  /** Sum of the backoffs of the attempts `0..n`. */
  function BackoffSum(n: nat): real {
    if n == 0 then 0.0 else BackoffSum(n - 1) + Backoff(n - 1)
  }

  /** How long attempt `attempt` pauses after a retryable reply. */
  function Pause(reply: Reply, attempt: nat): real {
    if reply.Status? && reply.code == 429 && reply.retryAfter.Seconds? then Longer(reply.retryAfter.value, Backoff(attempt))
    else Backoff(attempt)
  }

  /** Sum of the pauses after the first `n` replies. */
  function PauseSum(replies: seq<Reply>, n: nat): real
    requires n <= |replies|
  {
    if n == 0 then 0.0 else PauseSum(replies, n - 1) + Pause(replies[n - 1], n - 1)
  }

  lemma {:induction false} PauseSumIsBackoff(replies: seq<Reply>, n: nat)
    requires n <= |replies| && forall a :: 0 <= a < n ==> ServerOrNetworkError(replies[a])
    ensures PauseSum(replies, n) == BackoffSum(n)
  {
    if n > 0 {
      PauseSumIsBackoff(replies, n - 1);
    }
  }

  /** The state after flusher `w` is done with `batch`: accepted, or dropped with the flag or the thread's
      death that comes with it. `last` is None when retries ran out or the flag was already set. */
  ghost function Ended(s: State, w: nat, batch: seq<Event>, last: Option<Reaction>): State
    requires w < |s.flushers|
  {
    match last
    case Some(Done) => At(s, w, Draining([])).(accepted := s.accepted + batch)
    case Some(AuthFailed) => At(s, w, Draining([])).(authFailed := true, dropped := s.dropped + batch)
    case Some(Escapes) => At(s, w, Dead).(dropped := s.dropped + batch)
    case _ => At(s, w, Draining([])).(dropped := s.dropped + batch)
  }

  /** The last of `posts` replies has this status. */
  predicate HasCode(replies: seq<Reply>, posts: nat, code: int)
    requires posts <= |replies|
  {
    posts > 0 && replies[posts - 1].Status? && replies[posts - 1].code == code
  }

  lemma EndedBy(s: State, w: nat, batch: seq<Event>, replies: seq<Reply>, posts: nat, last: Option<Reaction>)
    requires w < |s.flushers| && posts <= |replies|
    requires last.Some? ==> posts > 0 && last == Some(React(replies[posts - 1], posts - 1)) && !Retryable(replies[posts - 1])
    requires last.None? ==> posts == 0 || Retryable(replies[posts - 1])
    ensures var t := Ended(s, w, batch, last);
            && t.accepted == s.accepted + (if HasCode(replies, posts, 202) then batch else [])
            && t.dropped == s.dropped + (if HasCode(replies, posts, 202) then [] else batch)
            && (t.authFailed <==> s.authFailed || HasCode(replies, posts, 401))
            && t.flushers == s.flushers[w := if last == Some(Escapes) then Dead else Draining([])]
  {
    assert s.accepted + [] == s.accepted && s.dropped + [] == s.dropped;
  }

  /** The pause after a retryable reply: the backoff, and after 429 no less than the server asked for. */
  lemma PauseCovers(reply: Reply, attempt: nat)
    requires Retryable(reply)
    ensures React(reply, attempt).Retry? && React(reply, attempt).pause >= Backoff(attempt)
    ensures reply.Status? && reply.code == 429 && reply.retryAfter.Seconds? ==>
              React(reply, attempt).pause >= reply.retryAfter.value &&
              (React(reply, attempt).pause == reply.retryAfter.value || React(reply, attempt).pause == Backoff(attempt))
    ensures !(reply.Status? && reply.code == 429) ==> React(reply, attempt).pause == Backoff(attempt)
  {
  }

  /** What ends a batch besides 202, 400, 401 and the retries: any other status drops it, an exception that is
      no network error kills the thread. */
  lemma EndsIff(reply: Reply, attempt: nat)
    ensures React(reply, attempt) == Done <==> reply.Status? && reply.code == 202
    ensures React(reply, attempt) == AuthFailed <==> reply.Status? && reply.code == 401
    ensures React(reply, attempt) == Escapes <==> reply.OtherException? || (reply.Status? && reply.code == 429 && reply.retryAfter == Unsleepable)
    ensures React(reply, attempt) == Rejected <==> reply.Status? && reply.code != 202 && reply.code != 401 && reply.code != 429 && reply.code < 500
  {
  }

  /** `_send_batch`: `replies[a]` answers attempt `a`. `last` is the reaction that ended the loop, or
      `None` when it was never entered or all attempts were used up. The call takes the steps of flusher
      `w` from `s` to `t`. */
  method SendBatch(authFailed: bool, maxRetries: int, replies: seq<Reply>, ghost c: Config, ghost s: State, ghost w: nat)
    returns (posts: nat, slept: real, last: Option<Reaction>, ghost t: State)
    requires |replies| > maxRetries && c.maxRetries == maxRetries
    requires w < |s.flushers| && s.flushers[w].Drained? && s.authFailed == authFailed
    ensures authFailed ==> posts == 0 && slept == 0.0 && last == None
    ensures !authFailed ==> posts <= Attempts(maxRetries)
    ensures t.accepted == s.accepted + (if HasCode(replies, posts, 202) then s.flushers[w].batch else [])
    ensures t.dropped == s.dropped + (if HasCode(replies, posts, 202) then [] else s.flushers[w].batch)
    ensures t.authFailed <==> authFailed || HasCode(replies, posts, 401)
    ensures t.flushers == s.flushers[w := if last == Some(Escapes) then Dead else Draining([])]
    ensures !authFailed && last.None? ==> posts == Attempts(maxRetries) && forall a :: 0 <= a < posts ==> Retryable(replies[a])
    ensures !authFailed && last.Some? ==>
              && 1 <= posts && last == Some(React(replies[posts - 1], posts - 1)) && !Retryable(replies[posts - 1])
              && forall a :: 0 <= a < posts - 1 ==> Retryable(replies[a])
    ensures !authFailed ==> slept == PauseSum(replies, if last.Some? then posts - 1 else posts)
    ensures Reaches(c, s, t) && t == Ended(s, w, s.flushers[w].batch, last)
  {
    posts, slept, last, t := 0, 0.0, None, Ended(s, w, s.flushers[w].batch, None);
    SendStarts(c, s, w);
    if !authFailed {
      posts, slept, last := SendAttempts(maxRetries, replies);
      t := Ended(s, w, s.flushers[w].batch, last);
      OutcomeReaches(c, s, w, s.flushers[w].batch, replies, posts, last);
    }
    EndedBy(s, w, s.flushers[w].batch, replies, posts, last);
  }

  /** The loop of `_send_batch`. */
  method SendAttempts(maxRetries: int, replies: seq<Reply>) returns (posts: nat, slept: real, last: Option<Reaction>)
    requires |replies| > maxRetries
    ensures posts <= Attempts(maxRetries)
    ensures last.None? ==> posts == Attempts(maxRetries) && forall a :: 0 <= a < posts ==> Retryable(replies[a])
    ensures last.Some? ==>
              && 1 <= posts && last == Some(React(replies[posts - 1], posts - 1)) && !Retryable(replies[posts - 1])
              && forall a :: 0 <= a < posts - 1 ==> Retryable(replies[a])
    ensures slept == PauseSum(replies, if last.Some? then posts - 1 else posts)
  {
    posts, slept, last := 0, 0.0, None;
    var attempt: nat := 0;
    while attempt < maxRetries + 1
      invariant attempt == posts <= Attempts(maxRetries)
      invariant forall a :: 0 <= a < posts ==> Retryable(replies[a])
      invariant slept == PauseSum(replies, posts)
      decreases maxRetries + 1 - attempt
    {
      posts := posts + 1;
      var reaction := React(replies[attempt], attempt);
      RetriesIff(replies[attempt], attempt);
      if !reaction.Retry? {
        return posts, slept, Some(reaction);
      }
      slept := slept + reaction.pause;
      attempt := attempt + 1;
    }
  }

  lemma {:induction false} RetriesReach(c: Config, s: State, w: nat, batch: seq<Event>, replies: seq<Reply>, n: nat)
    requires w < |s.flushers| && n <= |replies| && n <= Attempts(c.maxRetries)
    requires Reaches(c, s, At(s, w, Sending(batch, 0, false)))
    requires forall a :: 0 <= a < n ==> Retryable(replies[a])
    ensures Reaches(c, s, At(s, w, Sending(batch, n, false)))
  {
    if n > 0 {
      RetriesReach(c, s, w, batch, replies, n - 1);
      RetryReaches(c, s, w, batch, n - 1, replies[n - 1]);
    }
  }

  lemma RetryReaches(c: Config, s: State, w: nat, batch: seq<Event>, attempt: nat, reply: Reply)
    requires w < |s.flushers| && attempt < Attempts(c.maxRetries) && Retryable(reply)
    requires Reaches(c, s, At(s, w, Sending(batch, attempt, false)))
    ensures Reaches(c, s, At(s, w, Sending(batch, attempt + 1, false)))
  {
    RetriesIff(reply, attempt);
    AttemptReaches(c, s, w, batch, attempt, reply);
  }

  /** The loop's outcome is a path of attempts. */
  lemma OutcomeReaches(c: Config, s: State, w: nat, batch: seq<Event>, replies: seq<Reply>, posts: nat, last: Option<Reaction>)
    requires w < |s.flushers| && posts <= |replies| && posts <= Attempts(c.maxRetries)
    requires Reaches(c, s, At(s, w, Sending(batch, 0, false)))
    requires last.None? ==> posts == Attempts(c.maxRetries) && forall a :: 0 <= a < posts ==> Retryable(replies[a])
    requires last.Some? ==>
               && 1 <= posts && last == Some(React(replies[posts - 1], posts - 1)) && !Retryable(replies[posts - 1])
               && forall a :: 0 <= a < posts - 1 ==> Retryable(replies[a])
    ensures Reaches(c, s, Ended(s, w, batch, last))
  {
    if last.None? {
      RetriesReach(c, s, w, batch, replies, posts);
      GivesUp(c, s, w, batch, posts);
    } else {
      RetriesReach(c, s, w, batch, replies, posts - 1);
      RetriesIff(replies[posts - 1], posts - 1);
      AttemptReaches(c, s, w, batch, posts - 1, replies[posts - 1]);
    }
  }

  lemma RetriesIff(reply: Reply, attempt: nat)
    ensures React(reply, attempt).Retry? <==> Retryable(reply)
    ensures Retryable(reply) ==> React(reply, attempt).pause == Pause(reply, attempt)
  {
  }

  lemma SendStarts(c: Config, s: State, w: nat)
    requires w < |s.flushers| && s.flushers[w].Drained?
    ensures s.authFailed ==> Reaches(c, s, Ended(s, w, s.flushers[w].batch, None))
    ensures !s.authFailed ==> Reaches(c, s, At(s, w, Sending(s.flushers[w].batch, 0, false)))
  {
    ReachesSelf(c, s);
    ReachesNext(c, s, s, EnterSend(w));
  }

  lemma GivesUp(c: Config, s: State, w: nat, batch: seq<Event>, attempt: nat)
    requires w < |s.flushers| && attempt >= Attempts(c.maxRetries)
    requires Reaches(c, s, At(s, w, Sending(batch, attempt, false)))
    ensures Reaches(c, s, Ended(s, w, batch, None))
  {
    var u := At(s, w, Sending(batch, attempt, false));
    ReachesNext(c, s, u, GiveUp(w));
    AtTwice(s, w, u.flushers[w], Draining([]));
  }

  /** The state after the answer to attempt `attempt`. */
  ghost function Answered(s: State, w: nat, batch: seq<Event>, attempt: nat, reply: Reply): State
    requires w < |s.flushers|
  {
    if React(reply, attempt).Retry? then At(s, w, Sending(batch, attempt + 1, false))
    else Ended(s, w, batch, Some(React(reply, attempt)))
  }

  lemma PostReaches(c: Config, s: State, w: nat, batch: seq<Event>, attempt: nat)
    requires w < |s.flushers| && attempt < Attempts(c.maxRetries)
    requires Reaches(c, s, At(s, w, Sending(batch, attempt, false)))
    ensures Reaches(c, s, At(s, w, Sending(batch, attempt, true)))
  {
    var u := At(s, w, Sending(batch, attempt, false));
    ReachesNext(c, s, u, Post(w));
    AtTwice(s, w, u.flushers[w], Sending(batch, attempt, true));
  }

  lemma AtTwice(s: State, w: nat, f: Flusher, g: Flusher)
    requires w < |s.flushers|
    ensures At(At(s, w, f), w, g) == At(s, w, g)
  {
  }

  lemma AnswerDoes(c: Config, s: State, w: nat, batch: seq<Event>, attempt: nat, reply: Reply)
    requires w < |s.flushers|
    ensures Enabled(c, At(s, w, Sending(batch, attempt, true)), Receive(w, reply))
    ensures Do(c, At(s, w, Sending(batch, attempt, true)), Receive(w, reply)) == Answered(s, w, batch, attempt, reply)
  {
    AtTwice(s, w, Sending(batch, attempt, true), Draining([]));
    AtTwice(s, w, Sending(batch, attempt, true), Dead);
    AtTwice(s, w, Sending(batch, attempt, true), Sending(batch, attempt + 1, false));
  }

  lemma AttemptReaches(c: Config, s: State, w: nat, batch: seq<Event>, attempt: nat, reply: Reply)
    requires w < |s.flushers| && attempt < Attempts(c.maxRetries)
    requires Reaches(c, s, At(s, w, Sending(batch, attempt, false)))
    ensures Reaches(c, s, Answered(s, w, batch, attempt, reply))
  {
    PostReaches(c, s, w, batch, attempt);
    AnswerDoes(c, s, w, batch, attempt, reply);
    ReachesNext(c, s, At(s, w, Sending(batch, attempt, true)), Receive(w, reply));
  }

  function Attempts(maxRetries: int): nat {
    if maxRetries < 0 then 0 else maxRetries + 1
  }

  /** The total pause of a batch that meets only server and network errors. */
  lemma {:induction false} BackoffTotal(maxRetries: nat)
    ensures maxRetries <= 4 ==> BackoffSum(maxRetries + 1) == (Pow2(maxRetries + 1) - 1) as real
    ensures maxRetries >= 4 ==> BackoffSum(maxRetries + 1) == (31 + 30 * (maxRetries - 4)) as real
  {
    assert Pow2(0) == 1 && Pow2(1) == 2 && Pow2(2) == 4 && Pow2(3) == 8 && Pow2(4) == 16 && Pow2(5) == 32;
    if maxRetries > 0 {
      BackoffTotal(maxRetries - 1);
    }
    if maxRetries >= 5 {
      Pow2AtLeast(maxRetries);
    }
  }

  lemma {:induction false} Pow2AtLeast(n: nat)
    requires n >= 5
    ensures Pow2(n) >= 32
  {
    assert Pow2(5) == 32;
    if n > 5 {
      Pow2AtLeast(n - 1);
    }
  }

  // ---------------------------------------------------------------- flushers side by side

  /** Where a thread inside `_flush` stands. `posting`: an HTTP call is under way. */
  datatype Flusher =
    | Idle
    | Draining(got: seq<Event>)
    | Drained(batch: seq<Event>)
    | Sending(batch: seq<Event>, attempt: nat, posting: bool)
    | Dead

  /** `puts` logs accepted events in order, `taken` those drained, `batches` every batch handed to
      `_send_batch`; the logs only record. */
  datatype State = State(
    queue: seq<Event>, authFailed: bool, flushers: seq<Flusher>,
    accepted: seq<Event>, dropped: seq<Event>,
    puts: seq<Event>, taken: seq<Event>, batches: seq<seq<Event>>)

  datatype Config = Config(maxSize: int, batchSize: nat, maxRetries: int)

  datatype Step =
    | Put(event: Event)
    | BeginFlush(w: nat)
    | Get(w: nat)
    | EndDrain(w: nat)
    | EnterSend(w: nat)
    | Post(w: nat)
    | Receive(w: nat, reply: Reply)
    | GiveUp(w: nat)

  function Fresh(workers: nat): State {
    State([], false, seq(workers, i => Idle), [], [], [], [], [])
  }

  predicate Enabled(c: Config, s: State, step: Step) {
    match step
    case Put(_) => HasRoom(|s.queue|, c.maxSize)
    case BeginFlush(w) => w < |s.flushers| && s.flushers[w].Idle?
    case Get(w) => w < |s.flushers| && s.flushers[w].Draining? && |s.flushers[w].got| < c.batchSize && s.queue != []
    case EndDrain(w) => w < |s.flushers| && s.flushers[w].Draining? && (|s.flushers[w].got| >= c.batchSize || s.queue == [])
    case EnterSend(w) => w < |s.flushers| && s.flushers[w].Drained?
    case Post(w) => w < |s.flushers| && s.flushers[w].Sending? && !s.flushers[w].posting && s.flushers[w].attempt < Attempts(c.maxRetries)
    case Receive(w, _) => w < |s.flushers| && s.flushers[w].Sending? && s.flushers[w].posting
    case GiveUp(w) => w < |s.flushers| && s.flushers[w].Sending? && !s.flushers[w].posting && s.flushers[w].attempt >= Attempts(c.maxRetries)
  }

  function At(s: State, w: nat, f: Flusher): State
    requires w < |s.flushers|
  {
    s.(flushers := s.flushers[w := f])
  }

  function Do(c: Config, s: State, step: Step): State
    requires Enabled(c, s, step)
  {
    match step
    case Put(e) => s.(queue := s.queue + [e], puts := s.puts + [e])
    case BeginFlush(w) => if s.authFailed then s else At(s, w, Draining([]))
    case Get(w) =>
      At(s, w, Draining(s.flushers[w].got + [s.queue[0]])).(queue := s.queue[1..], taken := s.taken + [s.queue[0]])
    case EndDrain(w) =>
      if s.flushers[w].got == [] then At(s, w, Idle)
      else At(s, w, Drained(s.flushers[w].got)).(batches := s.batches + [s.flushers[w].got])
    case EnterSend(w) =>
      if s.authFailed then At(s, w, Draining([])).(dropped := s.dropped + s.flushers[w].batch)
      else At(s, w, Sending(s.flushers[w].batch, 0, false))
    case Post(w) => At(s, w, s.flushers[w].(posting := true))
    case Receive(w, reply) =>
      var f := s.flushers[w];
      (match React(reply, f.attempt)
       case Done => At(s, w, Draining([])).(accepted := s.accepted + f.batch)
       case AuthFailed => At(s, w, Draining([])).(authFailed := true, dropped := s.dropped + f.batch)
       case Rejected => At(s, w, Draining([])).(dropped := s.dropped + f.batch)
       case Retry(_) => At(s, w, Sending(f.batch, f.attempt + 1, false))
       case Escapes => At(s, w, Dead).(dropped := s.dropped + f.batch))
    case GiveUp(w) => At(s, w, Draining([])).(dropped := s.dropped + s.flushers[w].batch)
  }

  ghost predicate Next(c: Config, s: State, s': State) {
    exists step :: Enabled(c, s, step) && s' == Do(c, s, step)
  }

  ghost predicate Run(c: Config, workers: nat, run: seq<State>) {
    && run != [] && run[0] == Fresh(workers)
    && forall i :: 0 <= i < |run| - 1 ==> Next(c, run[i], run[i + 1])
  }

  ghost predicate Path(c: Config, path: seq<State>) {
    path != [] && forall i :: 0 <= i < |path| - 1 ==> Next(c, path[i], path[i + 1])
  }

  /** Some sequence of steps leads from `s` to `t`. */
  ghost predicate Reaches(c: Config, s: State, t: State) {
    exists path :: Path(c, path) && path[0] == s && path[|path| - 1] == t
  }

  lemma ReachesSelf(c: Config, s: State)
    ensures Reaches(c, s, s)
  {
    assert Path(c, [s]);
  }

  lemma ReachesNext(c: Config, s: State, t: State, step: Step)
    requires Reaches(c, s, t) && Enabled(c, t, step)
    ensures Reaches(c, s, Do(c, t, step))
  {
    var path :| Path(c, path) && path[0] == s && path[|path| - 1] == t;
    var longer := path + [Do(c, t, step)];
    assert Next(c, t, Do(c, t, step));
    assert forall i :: 0 <= i < |longer| - 1 ==> longer[i] == path[i];
    assert Path(c, longer);
  }

  /** The events a flusher holds: its partial drain or its current batch. */
  function Held(f: Flusher): seq<Event> {
    match f
    case Idle => []
    case Draining(got) => got
    case Drained(batch) => batch
    case Sending(batch, _, _) => batch
    case Dead => []
  }

  /** The part of a drain that is not yet a batch. */
  function Partial(f: Flusher): seq<Event> {
    if f.Draining? then f.got else []
  }

  function HeldBag(f: Flusher): multiset<Event> {
    multiset(Held(f))
  }

  function PartialBag(f: Flusher): multiset<Event> {
    multiset(Partial(f))
  }

  function AllHeld(fs: seq<Flusher>): multiset<Event> {
    BagSum(fs, HeldBag)
  }

  ghost predicate Conserved(s: State) {
    multiset(s.taken) == AllHeld(s.flushers) + multiset(s.accepted) + multiset(s.dropped)
  }

  ghost predicate Batched(s: State) {
    multiset(s.taken) == BagSum(s.flushers, PartialBag) + multiset(Concat(s.batches))
  }

  ghost predicate PostsBounded(c: Config, s: State) {
    forall w :: 0 <= w < |s.flushers| && s.flushers[w].Sending? ==> Posts(s.flushers[w]) <= Attempts(c.maxRetries)
  }

  ghost predicate Inv(c: Config, s: State) {
    s.taken + s.queue == s.puts && Conserved(s) && Batched(s) && PostsBounded(c, s)
  }

  /** What flusher `w` holds grows by the event just taken, stays, or is handed over whole. */
  ghost predicate HeldEffect(s: State, s': State, w: nat)
    requires w < |s.flushers| == |s'.flushers|
  {
    var was, now := Held(s.flushers[w]), Held(s'.flushers[w]);
    || (exists x :: now == was + [x] && s'.taken == s.taken + [x] && s'.accepted == s.accepted && s'.dropped == s.dropped)
    || (now == was && s'.taken == s.taken && s'.accepted == s.accepted && s'.dropped == s.dropped)
    || (now == [] && s'.taken == s.taken && s'.accepted == s.accepted + was && s'.dropped == s.dropped)
    || (now == [] && s'.taken == s.taken && s'.accepted == s.accepted && s'.dropped == s.dropped + was)
  }

  /** The partial drain of `w` grows by the event just taken, stays, or becomes a batch. */
  ghost predicate PartialEffect(s: State, s': State, w: nat)
    requires w < |s.flushers| == |s'.flushers|
  {
    var was, now := Partial(s.flushers[w]), Partial(s'.flushers[w]);
    || (exists x :: now == was + [x] && s'.taken == s.taken + [x] && s'.batches == s.batches)
    || (now == was && s'.taken == s.taken && s'.batches == s.batches)
    || (now == [] && s'.taken == s.taken && s'.batches == s.batches + [was])
  }

  /** The queue stays, or its head is taken. */
  ghost predicate QueueEffect(s: State, s': State) {
    && s'.puts == s.puts
    && ((s'.taken == s.taken && s'.queue == s.queue) ||
        (s.queue != [] && s'.taken == s.taken + [s.queue[0]] && s'.queue == s.queue[1..]))
  }

  lemma OneFlusherMoves(c: Config, s: State, step: Step)
    requires Enabled(c, s, step) && !step.Put?
    ensures var s' := Do(c, s, step);
            && step.w < |s.flushers| == |s'.flushers|
            && s'.flushers == s.flushers[step.w := s'.flushers[step.w]]
            && QueueEffect(s, s')
  {
  }

  lemma HeldMoves(c: Config, s: State, step: Step)
    requires Enabled(c, s, step) && !step.Put? && |Do(c, s, step).flushers| == |s.flushers|
    ensures HeldEffect(s, Do(c, s, step), step.w)
  {
    if step.Receive? {
      ReceiveMoves(c, s, step.w, step.reply);
    }
  }

  lemma ReceiveMoves(c: Config, s: State, w: nat, reply: Reply)
    requires Enabled(c, s, Receive(w, reply)) && |Do(c, s, Receive(w, reply)).flushers| == |s.flushers|
    ensures HeldEffect(s, Do(c, s, Receive(w, reply)), w)
  {
  }

  lemma PartialMoves(c: Config, s: State, step: Step)
    requires Enabled(c, s, step) && !step.Put? && |Do(c, s, step).flushers| == |s.flushers|
    ensures PartialEffect(s, Do(c, s, step), step.w)
  {
  }

  lemma Effects(c: Config, s: State, step: Step)
    requires Enabled(c, s, step) && !step.Put?
    ensures var s' := Do(c, s, step);
            && step.w < |s.flushers| == |s'.flushers|
            && s'.flushers == s.flushers[step.w := s'.flushers[step.w]]
            && HeldEffect(s, s', step.w) && PartialEffect(s, s', step.w) && QueueEffect(s, s')
  {
    OneFlusherMoves(c, s, step);
    HeldMoves(c, s, step);
    PartialMoves(c, s, step);
  }

  lemma ConservedStep(s: State, s': State, w: nat)
    requires Conserved(s) && w < |s.flushers| == |s'.flushers| && s'.flushers == s.flushers[w := s'.flushers[w]]
    requires HeldEffect(s, s', w)
    ensures Conserved(s')
  {
    var held, held' := AllHeld(s.flushers), AllHeld(s'.flushers);
    var was, now := Held(s.flushers[w]), Held(s'.flushers[w]);
    BagUpdate(s.flushers, w, s'.flushers[w], HeldBag);
    if x :| now == was + [x] && s'.taken == s.taken + [x] && s'.accepted == s.accepted && s'.dropped == s.dropped {
      Gained(held, held', multiset(was), multiset(now), multiset{x});
      Widen(multiset(s.taken), held, multiset(s.accepted), multiset(s.dropped), multiset{x});
    } else if now == was {
      Gained(held, held', multiset(was), multiset(now), multiset{});
    } else {
      Gave(held, held', multiset(was), multiset(now), multiset(was));
      Hand(multiset(s.taken), held', multiset(was), multiset(s.accepted), multiset(s.dropped));
    }
  }

  lemma Widen(t: multiset<Event>, h: multiset<Event>, a: multiset<Event>, d: multiset<Event>, x: multiset<Event>)
    requires t == h + a + d
    ensures t + x == (h + x) + a + d
  {
  }

  lemma Hand(t: multiset<Event>, h: multiset<Event>, x: multiset<Event>, a: multiset<Event>, d: multiset<Event>)
    requires t == (h + x) + a + d
    ensures t == h + (a + x) + d && t == h + a + (d + x)
  {
  }

  lemma BatchedStep(s: State, s': State, w: nat)
    requires Batched(s) && w < |s.flushers| == |s'.flushers| && s'.flushers == s.flushers[w := s'.flushers[w]]
    requires PartialEffect(s, s', w)
    ensures Batched(s')
  {
    var was, now := Partial(s.flushers[w]), Partial(s'.flushers[w]);
    if x :| now == was + [x] && s'.taken == s.taken + [x] && s'.batches == s.batches {
      BagGained(s.flushers, w, s'.flushers[w], PartialBag, multiset{x});
      Widen(multiset(s.taken), BagSum(s.flushers, PartialBag), multiset(Concat(s.batches)), multiset{}, multiset{x});
    } else if now == was && s'.batches == s.batches {
      BagGained(s.flushers, w, s'.flushers[w], PartialBag, multiset{});
    } else {
      BecomesBatch(s, s', w, was);
    }
  }

  /** A partial drain becomes a batch. */
  lemma BecomesBatch(s: State, s': State, w: nat, was: seq<Event>)
    requires Batched(s) && w < |s.flushers| == |s'.flushers| && s'.flushers == s.flushers[w := s'.flushers[w]]
    requires Partial(s.flushers[w]) == was && Partial(s'.flushers[w]) == []
    requires s'.taken == s.taken && s'.batches == s.batches + [was]
    ensures Batched(s')
  {
    ConcatAppend(s.batches, [was]);
    assert Concat([was]) == was;
    BagGave(s.flushers, w, s'.flushers[w], PartialBag, multiset(was));
    Hand(multiset(s.taken), BagSum(s'.flushers, PartialBag), multiset(was), multiset(Concat(s.batches)), multiset{});
  }

  lemma StepKeepsInv(c: Config, s: State, step: Step)
    requires Inv(c, s) && Enabled(c, s, step)
    ensures Inv(c, Do(c, s, step))
  {
    PostsStep(c, s, step);
    if step.Put? {
      assert s.taken + (s.queue + [step.event]) == (s.taken + s.queue) + [step.event];
    } else {
      Effects(c, s, step);
      ConservedStep(s, Do(c, s, step), step.w);
      BatchedStep(s, Do(c, s, step), step.w);
      QueueStep(s, Do(c, s, step));
    }
  }

  lemma QueueStep(s: State, s': State)
    requires s.taken + s.queue == s.puts && QueueEffect(s, s')
    ensures s'.taken + s'.queue == s'.puts
  {
  }

  lemma PostsStep(c: Config, s: State, step: Step)
    requires PostsBounded(c, s) && Enabled(c, s, step)
    ensures PostsBounded(c, Do(c, s, step))
  {
  }

  lemma {:induction false} RunKeepsInv(c: Config, workers: nat, run: seq<State>)
    requires Run(c, workers, run)
    ensures Inv(c, run[|run| - 1])
    decreases |run|
  {
    var n := |run| - 1;
    if n > 0 {
      RunKeepsInv(c, workers, run[..n]);
      assert run[..n][n - 1] == run[n - 1];
      assert Next(c, run[n - 1], run[n - 1 + 1]);
      NextKeepsInv(c, run[n - 1], run[n]);
    } else {
      BagEmpty(Fresh(workers).flushers, HeldBag);
      BagEmpty(Fresh(workers).flushers, PartialBag);
    }
  }

  lemma NextKeepsInv(c: Config, s: State, s': State)
    requires Inv(c, s) && Next(c, s, s')
    ensures Inv(c, s')
  {
    var step :| Enabled(c, s, step) && s' == Do(c, s, step);
    StepKeepsInv(c, s, step);
  }

  /** How often the current batch was posted so far, the post under way included. */
  function Posts(f: Flusher): nat
    requires f.Sending?
  {
    f.attempt + (if f.posting then 1 else 0)
  }

  /** Conservation over every run, with any number of flushers interleaving event by event: each accepted
      put is queued, held by one flusher, accepted by the server or dropped, and nothing else is; no event
      enters two batches (as often as it was put); no batch is posted more than `max_retries` + 1 times. */
  lemma EventsConserved(c: Config, workers: nat, run: seq<State>)
    requires Run(c, workers, run)
    ensures var s := run[|run| - 1];
            && multiset(s.puts) == multiset(s.queue) + AllHeld(s.flushers) + multiset(s.accepted) + multiset(s.dropped)
            && multiset(Concat(s.batches)) <= multiset(s.puts)
            && forall w :: 0 <= w < |s.flushers| && s.flushers[w].Sending? ==> Posts(s.flushers[w]) <= Attempts(c.maxRetries)
  {
    RunKeepsInv(c, workers, run);
    Total(run[|run| - 1]);
  }

  lemma Total(s: State)
    requires s.taken + s.queue == s.puts && Conserved(s) && Batched(s)
    ensures multiset(s.puts) == multiset(s.queue) + AllHeld(s.flushers) + multiset(s.accepted) + multiset(s.dropped)
    ensures multiset(Concat(s.batches)) <= multiset(s.puts)
  {
    assert s.puts == s.taken + s.queue;
  }

  ghost predicate InTakenOrder(s: State) {
    |s.flushers| == 1 && Concat(s.batches) + Partial(s.flushers[0]) == s.taken
  }

  lemma OrderStep(c: Config, s: State, s': State)
    requires InTakenOrder(s) && Next(c, s, s')
    ensures InTakenOrder(s')
  {
    var step :| Enabled(c, s, step) && s' == Do(c, s, step);
    if !step.Put? {
      Effects(c, s, step);
      OrderEffect(s, s');
    }
  }

  lemma OrderEffect(s: State, s': State)
    requires InTakenOrder(s) && |s'.flushers| == 1 && PartialEffect(s, s', 0)
    ensures InTakenOrder(s')
  {
    var was, now := Partial(s.flushers[0]), Partial(s'.flushers[0]);
    if s'.batches == s.batches + [was] {
      ConcatAppend(s.batches, [was]);
      assert Concat([was]) == was;
    } else if x :| now == was + [x] && s'.taken == s.taken + [x] && s'.batches == s.batches {
      assert Concat(s.batches) + (was + [x]) == (Concat(s.batches) + was) + [x];
    }
  }

  lemma {:induction false} RunKeepsOrder(c: Config, run: seq<State>)
    requires Run(c, 1, run)
    ensures InTakenOrder(run[|run| - 1])
    decreases |run|
  {
    var n := |run| - 1;
    if n > 0 {
      RunKeepsOrder(c, run[..n]);
      assert run[..n][n - 1] == run[n - 1];
      assert Next(c, run[n - 1], run[n - 1 + 1]);
      OrderStep(c, run[n - 1], run[n]);
    }
  }

  /** With a single flusher the batches, the partial drain and the queue spell out the put order. */
  lemma OneFlusherKeepsOrder(c: Config, run: seq<State>)
    requires Run(c, 1, run)
    ensures var s := run[|run| - 1];
            |s.flushers| == 1 && Concat(s.batches) + Partial(s.flushers[0]) + s.queue == s.puts
  {
    RunKeepsOrder(c, run);
    RunKeepsInv(c, 1, run);
  }

  // ---------------------------------------------------------------- after a 401

  lemma StepAfter401(c: Config, s: State, step: Step, w: nat)
    requires Enabled(c, s, step) && s.authFailed && w < |s.flushers|
    ensures var s' := Do(c, s, step);
            && s'.authFailed && |s'.flushers| == |s.flushers|
            && (s'.flushers[w].Sending? ==> s.flushers[w].Sending? && s'.flushers[w].batch == s.flushers[w].batch)
  {
  }

  lemma NextAfter401(c: Config, s: State, s': State, w: nat)
    requires Next(c, s, s') && s.authFailed && w < |s.flushers|
    ensures s'.authFailed && |s'.flushers| == |s.flushers|
    ensures s'.flushers[w].Sending? ==> s.flushers[w].Sending? && s'.flushers[w].batch == s.flushers[w].batch
  {
    var step :| Enabled(c, s, step) && s' == Do(c, s, step);
    StepAfter401(c, s, step, w);
  }

  /** Once a 401 was seen no batch enters its send loop any more: whoever still posts was sending that very
      batch when the 401 came. */
  lemma {:induction false} NoNewBatchAfter401(c: Config, workers: nat, run: seq<State>, i: nat, j: nat, w: nat)
    requires Run(c, workers, run) && i <= j < |run| && run[i].authFailed && w < |run[i].flushers|
    ensures w < |run[j].flushers| && run[j].authFailed
    ensures run[j].flushers[w].Sending? ==> run[i].flushers[w].Sending? && run[j].flushers[w].batch == run[i].flushers[w].batch
    decreases j
  {
    if i < j {
      NoNewBatchAfter401(c, workers, run, i, j - 1, w);
      assert Next(c, run[j - 1], run[j - 1 + 1]);
      NextAfter401(c, run[j - 1], run[j], w);
    }
  }

  lemma OneFlusherStep(c: Config, s: State, s': State)
    requires Next(c, s, s') && |s.flushers| == 1 && (s.authFailed ==> !s.flushers[0].Sending?)
    ensures |s'.flushers| == 1 && (s'.authFailed ==> !s'.flushers[0].Sending?)
  {
    var step :| Enabled(c, s, step) && s' == Do(c, s, step);
    if s.authFailed {
      StepAfter401(c, s, step, 0);
    }
  }

  /** A single flusher never posts after a 401. */
  lemma {:induction false} OneFlusherSilentAfter401(c: Config, run: seq<State>)
    requires Run(c, 1, run)
    ensures var s := run[|run| - 1]; |s.flushers| == 1 && (s.authFailed ==> forall w :: !Enabled(c, s, Post(w)))
    ensures var s := run[|run| - 1]; s.authFailed ==> !s.flushers[0].Sending?
    decreases |run|
  {
    var n := |run| - 1;
    if n > 0 {
      OneFlusherSilentAfter401(c, run[..n]);
      assert run[..n][n - 1] == run[n - 1];
      assert Next(c, run[n - 1], run[n - 1 + 1]);
      OneFlusherStep(c, run[n - 1], run[n]);
    }
  }

  lemma PostsGrow(c: Config, s: State, s': State, w: nat)
    requires Next(c, s, s') && s.authFailed && w < |s.flushers|
    ensures s'.authFailed && |s'.flushers| == |s.flushers|
    ensures s'.flushers[w].Sending? ==> s.flushers[w].Sending? && Posts(s.flushers[w]) <= Posts(s'.flushers[w])
  {
  }

  lemma {:induction false} PostsGrowOnPath(c: Config, path: seq<State>, w: nat)
    requires Path(c, path) && path[0].authFailed && w < |path[0].flushers|
    ensures var t := path[|path| - 1];
            && t.authFailed && |t.flushers| == |path[0].flushers|
            && (t.flushers[w].Sending? ==> path[0].flushers[w].Sending? && Posts(path[0].flushers[w]) <= Posts(t.flushers[w]))
    decreases |path|
  {
    var n := |path| - 1;
    if n > 0 {
      PostsGrowOnPath(c, path[..n], w);
      assert path[..n][n - 1] == path[n - 1];
      assert Next(c, path[n - 1], path[n - 1 + 1]);
      PostsGrow(c, path[n - 1], path[n], w);
    }
  }

  /** After a 401, a flusher can still start a post exactly when it is in its send loop with an attempt left
      beyond those started: between two attempts it goes on at once, during one after a retryable reply. */
  lemma PostAfter401Iff(c: Config, s: State, w: nat)
    requires s.authFailed && w < |s.flushers|
    ensures (exists t :: Reaches(c, s, t) && Enabled(c, t, Post(w))) <==>
            s.flushers[w].Sending? && Posts(s.flushers[w]) < Attempts(c.maxRetries)
  {
    if t :| Reaches(c, s, t) && Enabled(c, t, Post(w)) {
      var path :| Path(c, path) && path[0] == s && path[|path| - 1] == t;
      PostsGrowOnPath(c, path, w);
    }
    if s.flushers[w].Sending? && Posts(s.flushers[w]) < Attempts(c.maxRetries) {
      ReachesSelf(c, s);
      if s.flushers[w].posting {
        ReachesNext(c, s, s, Receive(w, NetworkError));
        assert Enabled(c, Do(c, s, Receive(w, NetworkError)), Post(w));
      } else {
        assert Enabled(c, s, Post(w));
      }
    }
  }

  // ---------------------------------------------------------------- which configurations post after a 401

  /** Flusher `w` takes one event from an empty queue into its send loop. */
  lemma EntersSendLoop(c: Config, origin: State, s: State, w: nat, e: Event) returns (t: State)
    requires Reaches(c, origin, s) && w < |s.flushers| && s.flushers[w] == Idle && s.queue == [] && !s.authFailed
    requires c.batchSize >= 1
    ensures Reaches(c, origin, t) && t.queue == [] && !t.authFailed
    ensures t.flushers == s.flushers[w := Sending([e], 0, false)]
  {
    var s1 := Do(c, s, Put(e));
    ReachesNext(c, origin, s, Put(e));
    var s2 := Do(c, s1, BeginFlush(w));
    ReachesNext(c, origin, s1, BeginFlush(w));
    var s3 := Do(c, s2, Get(w));
    ReachesNext(c, origin, s2, Get(w));
    var s4 := Do(c, s3, EndDrain(w));
    assert s3.flushers[w] == Draining([e]) && s3.queue == [];
    ReachesNext(c, origin, s3, EndDrain(w));
    t := Do(c, s4, EnterSend(w));
    ReachesNext(c, origin, s4, EnterSend(w));
  }

  /** Two flushers each send a batch; one is told 401 before the other starts its first post. */
  lemma SecondFlusherPosts(c: Config, workers: nat, v: nat, w: nat) returns (t: State)
    requires v < workers && w < workers && v != w && c.batchSize >= 1 && Attempts(c.maxRetries) > 0
    ensures Reaches(c, Fresh(workers), t) && t.authFailed && Enabled(c, t, Post(w))
  {
    var s0 := Fresh(workers);
    ReachesSelf(c, s0);
    var s1 := EntersSendLoop(c, s0, s0, v, 0);
    var s2 := EntersSendLoop(c, s0, s1, w, 1);
    ReachesNext(c, s0, s2, Post(v));
    var s3 := Do(c, s2, Post(v));
    ReachesNext(c, s0, s3, Receive(v, Status(401, Seconds(1.0))));
    t := Do(c, s3, Receive(v, Status(401, Seconds(1.0))));
  }

  /** Flushers keep their number; with a batch size of zero none ever holds an event. */
  ghost predicate Shape(c: Config, workers: nat, s: State) {
    |s.flushers| == workers &&
    (c.batchSize == 0 ==> forall v :: 0 <= v < workers ==> HoldsNothing(s.flushers[v]))
  }

  predicate HoldsNothing(f: Flusher) {
    f == Idle || f == Draining([])
  }

  lemma NothingDrawn(c: Config, s: State, step: Step, v: nat)
    requires c.batchSize == 0 && Enabled(c, s, step) && v < |s.flushers| == |Do(c, s, step).flushers|
    requires forall u :: 0 <= u < |s.flushers| ==> HoldsNothing(s.flushers[u])
    ensures HoldsNothing(Do(c, s, step).flushers[v])
  {
  }

  lemma ShapeStep(c: Config, workers: nat, s: State, s': State)
    requires Shape(c, workers, s) && Next(c, s, s')
    ensures Shape(c, workers, s')
  {
    var step :| Enabled(c, s, step) && s' == Do(c, s, step);
    if c.batchSize == 0 {
      forall v | 0 <= v < workers ensures HoldsNothing(s'.flushers[v]) {
        NothingDrawn(c, s, step, v);
      }
    }
  }

  lemma {:induction false} RunKeepsShape(c: Config, workers: nat, run: seq<State>)
    requires Run(c, workers, run)
    ensures Shape(c, workers, run[|run| - 1])
    decreases |run|
  {
    var n := |run| - 1;
    if n > 0 {
      RunKeepsShape(c, workers, run[..n]);
      assert run[..n][n - 1] == run[n - 1];
      assert Next(c, run[n - 1], run[n - 1 + 1]);
      ShapeStep(c, workers, run[n - 1], run[n]);
    }
  }

  /** Exactly which configurations can start a post after a 401: two flushers or more, batches of at least
      one event, and at least one attempt. */
  lemma SecondFlusherPostsAfter401(c: Config, workers: nat, w: nat)
    ensures (exists t :: Reaches(c, Fresh(workers), t) && t.authFailed && Enabled(c, t, Post(w))) <==>
            workers >= 2 && w < workers && c.batchSize >= 1 && Attempts(c.maxRetries) > 0
  {
    if workers >= 2 && w < workers && c.batchSize >= 1 && Attempts(c.maxRetries) > 0 {
      var t := SecondFlusherPosts(c, workers, if w == 0 then 1 else 0, w);
    }
    if t :| Reaches(c, Fresh(workers), t) && t.authFailed && Enabled(c, t, Post(w)) {
      var run :| Path(c, run) && run[0] == Fresh(workers) && run[|run| - 1] == t;
      RunKeepsShape(c, workers, run);
      if workers == 1 {
        OneFlusherSilentAfter401(c, run);
      }
    }
  }
}
