/** The delivery pipeline: the deduplicating work-queue stream (server/internal/nats), workers that enrich
    and batch (server/internal/worker), and the `events` table, over every run with redelivery, overlapping
    flushes, failed inserts, lost acks and crashes. */
module Delivery {
  import opened Sequences
  import opened Calendar
  import opened Domain
  import opened EventsTable
  import B = BatchWriting
  import P = Prices
  import W = Warehouse

  // ---------------------------------------------------------------- handling one message

  /** What `handleMessage` adds to the batch for a published event, under the prices cached then. */
  function Enrich(e: Event, prices: map<P.PriceKey, seq<P.Price>>): Event {
    Stamped(Counted(e, prices))
  }

  function Counted(e: Event, prices: map<P.PriceKey, seq<P.Price>>): Event {
    var (cost, tags) := P.Priced(prices, e);
    e.(cost := cost, tags := tags, totalTokens := (e.promptTokens + e.completionTokens) % TWO_32)
  }

  function Stamped(e: Event): Event {
    if HasText(e) then e.(s3Status := Pending, s3Key := S3ObjectKey(e)) else e.(s3Status := NoText)
  }

  /** The key of the row an event becomes. */
  function EventKey(e: Event): Key
    requires e.uuid.Some?
  {
    Key(e.org, DayOf(e.ms), e.uuid.value)
  }

  /** `r` is a row of the published event `e`: the columns the payload fixes, with the total the worker
      computes. Cost, tags and S3 columns depend on when it was handled. */
  predicate RowFor(r: Row, e: Event) {
    && e.uuid == Some(r.uuid) && r.org == e.org && r.ms == e.ms
    && r.project == e.project && r.model == e.model && r.provider == e.provider
    && r.promptTokens == e.promptTokens && r.completionTokens == e.completionTokens
    && r.totalTokens == (e.promptTokens + e.completionTokens) % TWO_32
  }

  lemma EnrichedRow(e: Event, prices: map<P.PriceKey, seq<P.Price>>, now: int)
    requires e.uuid.Some?
    ensures RowFor(W.RowOf(Enrich(e, prices), now), e) && KeyOf(W.RowOf(Enrich(e, prices), now)) == EventKey(e)
  {
  }

  // ---------------------------------------------------------------- state

  /** A stored message; `payload` is None when its data does not decode. */
  datatype Message = Message(msgId: string, payload: Option<Event>, at: int)

  const DUPLICATE_WINDOW_MS := 10 * 60 * 1000

  /** A publish that reached the server: whether the id was remembered then, and whether the caller was
      told success (the answer may get lost). */
  datatype Attempt = Attempt(event: Event, remembered: bool, ok: bool)

  /** What a call of `UpdateS3Status` asked for. */
  datatype StatusUpdate = StatusUpdate(id: nat, status: S3Status, key: string)

  /** `messages` lists all the stream ever stored, `pending` those not yet acked; `attempts` all publishes
      that reached it; `updates` all status updates. */
  datatype State = State(
    messages: seq<Message>, pending: set<nat>, attempts: seq<Attempt>, workers: seq<B.State>, store: W.Store, updates: seq<StatusUpdate>)

  /** The server still remembers the message id. */
  predicate Duplicate(messages: seq<Message>, msgId: string, now: int) {
    exists i :: 0 <= i < |messages| && messages[i].msgId == msgId && now - messages[i].at < DUPLICATE_WINDOW_MS
  }

  function Offer(s: State, m: Message): State {
    if Duplicate(s.messages, m.msgId, m.at) then s
    else s.(messages := s.messages + [m], pending := s.pending + {|s.messages|})
  }

  function WithWorker(s: State, w: nat, writer: B.State): State
    requires w < |s.workers|
  {
    s.(workers := s.workers[w := writer])
  }

  datatype Step =
    | Publish(e: Event, now: int, ok: bool)
    | Foreign(msgId: string, now: int)
    | Deliver(w: nat, i: nat, prices: map<P.PriceKey, seq<P.Price>>)
    | Begin(w: nat)
    | InsertOk(w: nat, f: nat, now: int)
    | InsertError(w: nat, f: nat, now: int, rows: seq<Row>)
    | LateInsert(rows: seq<Row>)
    | RunAck(w: nat, f: nat, reached: bool)
    | Crash(w: nat)
    | UpdateStatus(id: nat, status: S3Status, key: string)
    | Background
    | Idle

  /** The writer of a live worker. */
  predicate Writer(s: State, w: nat) {
    w < |s.workers| && |s.workers[w].buffer| == |s.workers[w].acks| &&
    forall i :: 0 <= i < |s.workers[w].flights| ==> |s.workers[w].flights[i].events| == |s.workers[w].flights[i].acks|
  }

  /** Rows of a batch, perhaps not all of them: what a failing insert may have stored all the same. */
  predicate SomeRowsOf(rows: seq<Row>, events: seq<Event>, now: int) {
    forall n :: 0 <= n < |rows| ==>
      exists k :: 0 <= k < |events| && W.WellFormed(events) && rows[n] == W.RowOf(events[k], now)
  }

  /** Rows some handling of stored messages gives. An insert reported as failed, or whose worker crashed,
      may still land at any later time; this allows all that and more. */
  ghost predicate Handled(rows: seq<Row>, messages: seq<Message>) {
    forall r :: r in rows ==> exists i, prices, now ::
      && 0 <= i < |messages| && messages[i].payload.Some? && messages[i].payload.value.uuid.Some?
      && r == W.RowOf(Enrich(messages[i].payload.value, prices), now)
  }

  /** Messages that do not decode are NAKed and stay as they are, so delivering one is `Idle`. */
  ghost predicate Takes(s: State, s': State, a: Step) {
    match a
    case Publish(e, now, ok) =>
      s' == Offer(s, Message(e.eventId, Some(e), now)).(
              attempts := s.attempts + [Attempt(e, Duplicate(s.messages, e.eventId, now), ok)])
    case Foreign(msgId, now) => s' == Offer(s, Message(msgId, None, now))
    case Deliver(w, i, prices) =>
      && w < |s.workers| && i in s.pending && i < |s.messages| && s.messages[i].payload.Some?
      && s' == WithWorker(s, w, B.AddStep(s.workers[w], B.Item(Enrich(s.messages[i].payload.value, prices), B.AckOf(i))))
    case Begin(w) => w < |s.workers| && s' == WithWorker(s, w, B.BeginStep(s.workers[w]))
    case InsertOk(w, f, now) =>
      && Writer(s, w) && B.IsInserting(s.workers[w], f) && W.WellFormed(s.workers[w].flights[f].events)
      && W.Ingests(s.store, s'.store, W.BatchOf(s.workers[w].flights[f].events, now).value)
      && s' == WithWorker(s, w, B.InsertOkStep(s.workers[w], f)).(store := s'.store)
    case InsertError(w, f, now, rows) =>
      && Writer(s, w) && B.IsInserting(s.workers[w], f) && SomeRowsOf(rows, s.workers[w].flights[f].events, now)
      && (s'.store == s.store || W.Ingests(s.store, s'.store, rows))
      && s' == WithWorker(s, w, B.PutBackStep(s.workers[w], f)).(store := s'.store)
    case LateInsert(rows) => Handled(rows, s.messages) && W.Ingests(s.store, s'.store, rows) && s' == s.(store := s'.store)
    case RunAck(w, f, reached) =>
      && w < |s.workers| && B.IsAcking(s.workers[w], f)
      && s' == WithWorker(s, w, B.AckStep(s.workers[w], f)).(
           pending := if reached then s.pending - AckedBy(s.workers[w].flights[f]) else s.pending)
    case Crash(w) => w < |s.workers| && s' == WithWorker(s, w, B.START)
    case UpdateStatus(id, status, key) =>
      && W.UpdatesStatus(s.store, s'.store, id, status, key)
      && s' == s.(store := s'.store, updates := s.updates + [StatusUpdate(id, status, key)])
    case Background => W.Background(s.store, s'.store) && s' == s.(store := s'.store)
    case Idle => s' == s
  }

  /** The message the flight's next ack removes from the work queue. */
  function AckedBy(f: B.Flight): set<nat>
    requires f.phase.Acking? && f.phase.next < |f.acks|
  {
    match f.acks[f.phase.next]
    case NoAck => {}
    case AckOf(i) => {i}
  }

  ghost predicate Next(s: State, s': State) {
    exists a :: Takes(s, s', a)
  }

  ghost predicate Starts(s: State) {
    s.messages == [] && s.pending == {} && s.attempts == [] && s.store == W.EMPTY && s.updates == [] &&
    forall w :: 0 <= w < |s.workers| ==> s.workers[w] == B.START
  }

  ghost predicate Run(run: seq<State>) {
    run != [] && Starts(run[0]) && forall i :: 0 <= i < |run| - 1 ==> Next(run[i], run[i + 1])
  }

  ghost predicate Path(path: seq<State>) {
    path != [] && forall i :: 0 <= i < |path| - 1 ==> Next(path[i], path[i + 1])
  }

  /** Some sequence of steps leads from `s` to `t`. */
  ghost predicate Reaches(s: State, t: State) {
    exists path :: Path(path) && path[0] == s && path[|path| - 1] == t
  }

  lemma ReachesSelf(s: State)
    ensures Reaches(s, s)
  {
    assert Path([s]);
  }

  lemma ReachesNext(s: State, t: State, u: State)
    requires Reaches(s, t) && Next(t, u)
    ensures Reaches(s, u)
  {
    var path :| Path(path) && path[0] == s && path[|path| - 1] == t;
    var longer := path + [u];
    assert forall i :: 0 <= i < |path| ==> longer[i] == path[i];
    assert Path(longer);
  }

  // ---------------------------------------------------------------- invariant

  /** A batch item stands for a stored message. */
  ghost predicate FromMessage(x: B.Item, messages: seq<Message>) {
    && x.ack.AckOf? && x.ack.message < |messages| && messages[x.ack.message].payload.Some?
    && exists prices :: x.event == Enrich(messages[x.ack.message].payload.value, prices)
  }

  ghost predicate HasRow(history: seq<Row>, m: Message) {
    m.payload.Some? && exists r :: r in history && RowFor(r, m.payload.value)
  }

  ghost predicate WorkerInv(b: B.State, messages: seq<Message>, history: seq<Row>) {
    && B.Inv(b)
    && (forall x :: x in b.added ==> FromMessage(x, messages))
    && (forall x :: x in b.stored ==> FromMessage(x, messages) && HasRow(history, messages[x.ack.message]))
  }

  ghost predicate Published(r: Row, messages: seq<Message>) {
    exists i :: 0 <= i < |messages| && messages[i].payload.Some? && RowFor(r, messages[i].payload.value)
  }

  ghost predicate HasId(messages: seq<Message>, msgId: string) {
    exists i :: 0 <= i < |messages| && messages[i].msgId == msgId
  }

  ghost predicate Inv(s: State) {
    && W.Inv(s.store)
    && (forall w :: 0 <= w < |s.workers| ==> WorkerInv(s.workers[w], s.messages, s.store.events.history))
    && (forall i :: 0 <= i < |s.messages| ==> i in s.pending || HasRow(s.store.events.history, s.messages[i]))
    && (forall r :: r in s.store.events.history ==> Published(r, s.messages))
    && (forall j :: 0 <= j < |s.attempts| ==> HasId(s.messages, s.attempts[j].event.eventId))
  }

  lemma MoreHistory(b: B.State, messages: seq<Message>, history: seq<Row>, more: seq<Row>)
    requires WorkerInv(b, messages, history)
    ensures WorkerInv(b, messages, history + more)
  {
    forall x | x in b.stored ensures HasRow(history + more, messages[x.ack.message]) {
      MoreRows(history, more, messages[x.ack.message]);
    }
  }

  lemma MoreRows(history: seq<Row>, more: seq<Row>, m: Message)
    requires HasRow(history, m)
    ensures HasRow(history + more, m)
  {
    var r :| r in history && RowFor(r, m.payload.value);
    assert r in history + more;
  }

  lemma MoreMessages(b: B.State, messages: seq<Message>, m: Message, history: seq<Row>)
    requires WorkerInv(b, messages, history)
    ensures WorkerInv(b, messages + [m], history)
  {
    forall x | FromMessage(x, messages)
      ensures FromMessage(x, messages + [m]) && (messages + [m])[x.ack.message] == messages[x.ack.message]
    {
      var prices :| x.event == Enrich(messages[x.ack.message].payload.value, prices);
      assert (messages + [m])[x.ack.message] == messages[x.ack.message];
    }
  }

  lemma StillPublished(r: Row, messages: seq<Message>, m: Message)
    requires Published(r, messages)
    ensures Published(r, messages + [m])
  {
    var i :| 0 <= i < |messages| && messages[i].payload.Some? && RowFor(r, messages[i].payload.value);
    assert (messages + [m])[i] == messages[i];
  }

  lemma OfferKeepsInv(s: State, m: Message)
    requires Inv(s)
    ensures Inv(Offer(s, m))
    ensures HasId(Offer(s, m).messages, m.msgId)
  {
    var s' := Offer(s, m);
    if s' != s {
      var n := |s.messages|;
      assert s'.messages[n] == m;
      forall w | 0 <= w < |s.workers| ensures WorkerInv(s.workers[w], s'.messages, s.store.events.history) {
        MoreMessages(s.workers[w], s.messages, m, s.store.events.history);
      }
      forall r | r in s.store.events.history ensures Published(r, s'.messages) {
        StillPublished(r, s.messages, m);
      }
      forall j | 0 <= j < |s.attempts| ensures HasId(s'.messages, s.attempts[j].event.eventId) {
        var i :| 0 <= i < |s.messages| && s.messages[i].msgId == s.attempts[j].event.eventId;
        assert s'.messages[i] == s.messages[i];
      }
    }
  }

  /** Replacing one worker's writer by another good one. */
  lemma WorkerKeepsInv(s: State, w: nat, b: B.State)
    requires Inv(s) && w < |s.workers| && WorkerInv(b, s.messages, s.store.events.history)
    ensures Inv(WithWorker(s, w, b))
  {
    var s' := WithWorker(s, w, b);
    forall v | 0 <= v < |s'.workers| ensures WorkerInv(s'.workers[v], s.messages, s.store.events.history) {
      assert s'.workers[v] == if v == w then b else s.workers[v];
    }
  }

  /** Storing rows of published events. */
  lemma StoreKeepsInv(s: State, store: W.Store, more: seq<Row>)
    requires Inv(s) && W.Inv(store) && store.events.history == s.store.events.history + more
    requires forall r :: r in more ==> Published(r, s.messages)
    ensures Inv(s.(store := store))
  {
    var history := s.store.events.history;
    forall w | 0 <= w < |s.workers| ensures WorkerInv(s.workers[w], s.messages, history + more) {
      MoreHistory(s.workers[w], s.messages, history, more);
    }
    forall i | 0 <= i < |s.messages| && i !in s.pending ensures HasRow(history + more, s.messages[i]) {
      MoreRows(history, more, s.messages[i]);
    }
  }

  lemma DeliverKeepsInv(s: State, w: nat, i: nat, prices: map<P.PriceKey, seq<P.Price>>)
    requires Inv(s) && w < |s.workers| && i < |s.messages| && s.messages[i].payload.Some?
    ensures Inv(WithWorker(s, w, B.AddStep(s.workers[w], B.Item(Enrich(s.messages[i].payload.value, prices), B.AckOf(i)))))
  {
    var x := B.Item(Enrich(s.messages[i].payload.value, prices), B.AckOf(i));
    assert FromMessage(x, s.messages);
    B.NextKeepsInv(s.workers[w], B.AddOne(x));
    WorkerKeepsInv(s, w, B.AddStep(s.workers[w], x));
  }

  lemma BeginKeepsInv(s: State, w: nat)
    requires Inv(s) && w < |s.workers|
    ensures Inv(WithWorker(s, w, B.BeginStep(s.workers[w])))
  {
    B.NextKeepsInv(s.workers[w], B.Begin);
    WorkerKeepsInv(s, w, B.BeginStep(s.workers[w]));
  }

  lemma PutBackKeepsInv(s: State, w: nat, f: nat)
    requires Inv(s) && w < |s.workers| && B.IsInserting(s.workers[w], f)
    ensures Inv(WithWorker(s, w, B.PutBackStep(s.workers[w], f)))
  {
    B.NextKeepsInv(s.workers[w], B.PutBack(f));
    WorkerKeepsInv(s, w, B.PutBackStep(s.workers[w], f));
  }

  /** A flight in `InsertEvents` holds items that were added, hence stand for messages. */
  lemma InFlightFromMessages(s: State, w: nat, f: nat, k: nat)
    requires Inv(s) && w < |s.workers| && B.IsInserting(s.workers[w], f) && k < |s.workers[w].flights[f].events|
    ensures |s.workers[w].flights[f].events| == |s.workers[w].flights[f].acks|
    ensures FromMessage(B.Item(s.workers[w].flights[f].events[k], s.workers[w].flights[f].acks[k]), s.messages)
  {
    var b := s.workers[w];
    B.HeldWasAdded(b, f, k);
  }

  lemma BatchRowPublished(s: State, w: nat, f: nat, k: nat, now: int)
    requires Inv(s) && w < |s.workers| && B.IsInserting(s.workers[w], f) && k < |s.workers[w].flights[f].events|
    requires s.workers[w].flights[f].events[k].uuid.Some?
    ensures |s.workers[w].flights[f].events| == |s.workers[w].flights[f].acks|
    ensures FromMessage(B.Item(s.workers[w].flights[f].events[k], s.workers[w].flights[f].acks[k]), s.messages)
    ensures RowFor(W.RowOf(s.workers[w].flights[f].events[k], now), s.messages[s.workers[w].flights[f].acks[k].message].payload.value)
    ensures Published(W.RowOf(s.workers[w].flights[f].events[k], now), s.messages)
  {
    InFlightFromMessages(s, w, f, k);
    var flight := s.workers[w].flights[f];
    var i := flight.acks[k].message;
    var e := s.messages[i].payload.value;
    var prices :| flight.events[k] == Enrich(e, prices);
    EnrichedRow(e, prices, now);
    assert RowFor(W.RowOf(flight.events[k], now), s.messages[i].payload.value);
  }

  lemma InsertErrorKeepsInv(s: State, s': State, w: nat, f: nat, now: int, rows: seq<Row>)
    requires Inv(s) && Takes(s, s', InsertError(w, f, now, rows))
    ensures Inv(s')
  {
    var put := WithWorker(s, w, B.PutBackStep(s.workers[w], f));
    PutBackKeepsInv(s, w, f);
    if s'.store != s.store {
      W.IngestKeepsInv(s.store, s'.store, rows);
      var events := s.workers[w].flights[f].events;
      forall r | r in rows ensures Published(r, s.messages) {
        var n :| 0 <= n < |rows| && rows[n] == r;
        var k :| 0 <= k < |events| && W.WellFormed(events) && rows[n] == W.RowOf(events[k], now);
        BatchRowPublished(s, w, f, k, now);
      }
      StoreKeepsInv(put, s'.store, rows);
    }
  }

  lemma BatchPublished(s: State, w: nat, f: nat, now: int)
    requires Inv(s) && w < |s.workers| && B.IsInserting(s.workers[w], f) && W.WellFormed(s.workers[w].flights[f].events)
    ensures forall r :: r in W.BatchOf(s.workers[w].flights[f].events, now).value ==> Published(r, s.messages)
  {
    var rows := W.BatchOf(s.workers[w].flights[f].events, now).value;
    forall r | r in rows ensures Published(r, s.messages) {
      var k :| 0 <= k < |rows| && rows[k] == r;
      BatchRowPublished(s, w, f, k, now);
    }
  }

  /** Every event of the batch now has its row. */
  lemma BatchHasRows(s: State, w: nat, f: nat, now: int, x: B.Item)
    requires Inv(s) && w < |s.workers| && B.IsInserting(s.workers[w], f) && W.WellFormed(s.workers[w].flights[f].events)
    requires |s.workers[w].flights[f].events| == |s.workers[w].flights[f].acks|
    requires x in B.Pair(s.workers[w].flights[f].events, s.workers[w].flights[f].acks)
    ensures FromMessage(x, s.messages)
    ensures HasRow(s.store.events.history + W.BatchOf(s.workers[w].flights[f].events, now).value, s.messages[x.ack.message])
  {
    var flight := s.workers[w].flights[f];
    var rows := W.BatchOf(flight.events, now).value;
    var k :| 0 <= k < |flight.events| && x == B.Pair(flight.events, flight.acks)[k];
    BatchRowPublished(s, w, f, k, now);
    assert rows[k] == W.RowOf(flight.events[k], now);
    assert rows[k] in s.store.events.history + rows;
  }

  lemma InsertedWorker(s: State, w: nat, f: nat, now: int)
    requires Inv(s) && w < |s.workers| && B.IsInserting(s.workers[w], f) && W.WellFormed(s.workers[w].flights[f].events)
    ensures WorkerInv(B.InsertOkStep(s.workers[w], f), s.messages,
                      s.store.events.history + W.BatchOf(s.workers[w].flights[f].events, now).value)
  {
    var b, b' := s.workers[w], B.InsertOkStep(s.workers[w], f);
    var history, rows := s.store.events.history, W.BatchOf(b.flights[f].events, now).value;
    B.NextKeepsInv(b, B.InsertOk(f));
    forall x | x in b'.stored ensures FromMessage(x, s.messages) && HasRow(history + rows, s.messages[x.ack.message]) {
      if x in b.stored {
        MoreRows(history, rows, s.messages[x.ack.message]);
      } else {
        BatchHasRows(s, w, f, now, x);
      }
    }
  }

  lemma InsertOkKeepsInv(s: State, s': State, w: nat, f: nat, now: int)
    requires Inv(s) && Takes(s, s', InsertOk(w, f, now))
    ensures Inv(s')
  {
    var rows := W.BatchOf(s.workers[w].flights[f].events, now).value;
    W.IngestKeepsInv(s.store, s'.store, rows);
    BatchPublished(s, w, f, now);
    StoreKeepsInv(s, s'.store, rows);
    InsertedWorker(s, w, f, now);
    WorkerKeepsInv(s.(store := s'.store), w, B.InsertOkStep(s.workers[w], f));
  }

  /** The message an ack is about to remove has its row. */
  lemma AckedHasRow(s: State, w: nat, f: nat, i: nat)
    requires Inv(s) && w < |s.workers| && B.IsAcking(s.workers[w], f) && i in AckedBy(s.workers[w].flights[f])
    ensures i < |s.messages| && HasRow(s.store.events.history, s.messages[i])
  {
    var b := s.workers[w];
    var x := B.WaitingWasStored(b, f);
    assert x.ack == B.AckOf(i);
    assert WorkerInv(b, s.messages, s.store.events.history);
  }

  /** An ack that reaches the server takes its message, and no other, out of the work queue. */
  lemma AckRemoves(s: State, s': State, w: nat, f: nat, i: nat)
    requires Takes(s, s', RunAck(w, f, true)) && s.workers[w].flights[f].acks[s.workers[w].flights[f].phase.next] == B.AckOf(i)
    ensures s'.pending == s.pending - {i} && s'.messages == s.messages
  {
  }

  lemma FewerPendingKeepsInv(s: State, acked: set<nat>)
    requires Inv(s)
    requires forall i :: i in acked ==> i < |s.messages| && HasRow(s.store.events.history, s.messages[i])
    ensures Inv(s.(pending := s.pending - acked))
  {
  }

  lemma AckKeepsInv(s: State, s': State, w: nat, f: nat, reached: bool)
    requires Inv(s) && Takes(s, s', RunAck(w, f, reached))
    ensures Inv(s')
  {
    var b := s.workers[w];
    B.NextKeepsInv(b, B.RunAck(f));
    WorkerKeepsInv(s, w, B.AckStep(b, f));
    if reached {
      var acked := AckedBy(b.flights[f]);
      forall i | i in acked ensures i < |s.messages| && HasRow(s.store.events.history, s.messages[i]) {
        AckedHasRow(s, w, f, i);
      }
      FewerPendingKeepsInv(WithWorker(s, w, B.AckStep(b, f)), acked);
    }
  }

  lemma CrashKeepsInv(s: State, w: nat)
    requires Inv(s) && w < |s.workers|
    ensures Inv(WithWorker(s, w, B.START))
  {
    B.RunKeepsInv([B.START]);
    WorkerKeepsInv(s, w, B.START);
  }

  lemma RestatedPublished(s: State, r: Row, status: S3Status, key: string, now: int)
    requires Inv(s) && r in Contents(s.store.events.parts)
    ensures Published(W.Restated(r, status, key, now), s.messages)
  {
    assert r in s.store.events.history;
    var i :| 0 <= i < |s.messages| && s.messages[i].payload.Some? && RowFor(r, s.messages[i].payload.value);
    assert RowFor(W.Restated(r, status, key, now), s.messages[i].payload.value);
  }

  lemma StatusKeepsInv(s: State, s': State, id: nat, status: S3Status, key: string)
    requires Inv(s) && Takes(s, s', UpdateStatus(id, status, key))
    ensures Inv(s')
  {
    RestatedKeepsInv(s, s'.store, id, status, key);
  }

  lemma RestatedKeepsInv(s: State, store: W.Store, id: nat, status: S3Status, key: string)
    requires Inv(s) && W.UpdatesStatus(s.store, store, id, status, key)
    ensures Inv(s.(store := store))
  {
    if r: Row, now :| r in Contents(s.store.events.parts) && W.Ingests(s.store, store, [W.Restated(r, status, key, now)]) {
      RestatedPublished(s, r, status, key, now);
      W.IngestKeepsInv(s.store, store, [W.Restated(r, status, key, now)]);
      StoreKeepsInv(s, store, [W.Restated(r, status, key, now)]);
    } else {
      assert store == s.store;
    }
  }

  lemma HandledIsPublished(rows: seq<Row>, messages: seq<Message>, r: Row)
    requires Handled(rows, messages) && r in rows
    ensures Published(r, messages)
  {
    var i, prices, now :| 0 <= i < |messages| && messages[i].payload.Some? && messages[i].payload.value.uuid.Some? &&
      r == W.RowOf(Enrich(messages[i].payload.value, prices), now);
    EnrichedRow(messages[i].payload.value, prices, now);
  }

  lemma LandedKeepsInv(s: State, store: W.Store, rows: seq<Row>)
    requires Inv(s) && Handled(rows, s.messages) && W.Ingests(s.store, store, rows)
    ensures Inv(s.(store := store))
  {
    W.IngestKeepsInv(s.store, store, rows);
    forall r | r in rows ensures Published(r, s.messages) {
      HandledIsPublished(rows, s.messages, r);
    }
    StoreKeepsInv(s, store, rows);
  }

  lemma NextKeepsInv(s: State, s': State, a: Step)
    requires Inv(s) && Takes(s, s', a)
    ensures Inv(s')
  {
    match a {
      case Publish(e, now, ok) => OfferKeepsInv(s, Message(e.eventId, Some(e), now));
      case LateInsert(rows) => LandedKeepsInv(s, s'.store, rows);
      case Foreign(msgId, now) => OfferKeepsInv(s, Message(msgId, None, now));
      case Deliver(w, i, prices) => DeliverKeepsInv(s, w, i, prices);
      case Begin(w) => BeginKeepsInv(s, w);
      case InsertOk(w, f, now) => InsertOkKeepsInv(s, s', w, f, now);
      case InsertError(w, f, now, rows) => InsertErrorKeepsInv(s, s', w, f, now, rows);
      case RunAck(w, f, reached) => AckKeepsInv(s, s', w, f, reached);
      case Crash(w) => CrashKeepsInv(s, w);
      case UpdateStatus(id, status, key) => StatusKeepsInv(s, s', id, status, key);
      case Background =>
        W.BackgroundKeepsInv(s.store, s'.store);
        assert s.store.events.history + [] == s.store.events.history;
        StoreKeepsInv(s, s'.store, []);
      case Idle =>
    }
  }

  lemma {:induction false} RunKeepsInv(run: seq<State>)
    requires Run(run)
    ensures Inv(run[|run| - 1])
    decreases |run|
  {
    if |run| == 1 {
      W.RunKeepsInv([W.EMPTY]);
      B.RunKeepsInv([B.START]);
    } else {
      var n := |run| - 1;
      RunKeepsInv(run[..n]);
      assert run[..n][n - 1] == run[n - 1];
      assert Next(run[n - 1], run[n - 1 + 1]);
      var a :| Takes(run[n - 1], run[n], a);
      NextKeepsInv(run[n - 1], run[n], a);
    }
  }

  // ---------------------------------------------------------------- what it promises

  ghost predicate Reachable(s: State) {
    exists run :: Run(run) && s == run[|run| - 1]
  }

  lemma ReachableInv(s: State)
    requires Reachable(s)
    ensures Inv(s) && OwnMessages(s)
  {
    var run :| Run(run) && s == run[|run| - 1];
    RunKeepsInv(run);
    RunOwnsMessages(run);
  }

  /** No loss: every message the stream stored is still un-acked, or FINAL reads exactly one row of its
      key, and that row is one of a message published under this key. */
  lemma NoLoss(s: State, i: nat, final: seq<Row>)
    requires Reachable(s)
    requires i < |s.messages| && i !in s.pending
    requires FinalRead(s.store.events, final)
    ensures s.messages[i].payload.Some? && s.messages[i].payload.value.uuid.Some?
    ensures exists r :: r in final && r.org == s.messages[i].payload.value.org &&
              DayOf(r.ms) == DayOf(s.messages[i].payload.value.ms) && s.messages[i].payload.value.uuid == Some(r.uuid)
    ensures forall a, b :: 0 <= a < b < |final| ==> !SameSortKey(final[a], final[b])
    ensures forall r :: r in final ==> Published(r, s.messages)
  {
    ReachableInv(s);
    var history := s.store.events.history;
    FinalIsHistoryCollapse(s.store.events, final);
    var r :| r in history && RowFor(r, s.messages[i].payload.value);
    var x := FinalRowOf(s.store.events, final, r);
    FinalRowsPublished(s, final);
  }

  lemma FinalRowsPublished(s: State, final: seq<Row>)
    requires Inv(s) && FinalRead(s.store.events, final)
    ensures forall r :: r in final ==> r in s.store.events.history && Published(r, s.messages)
  {
    FinalIsHistoryCollapse(s.store.events, final);
    forall r | r in final ensures r in s.store.events.history {
      UniqueLatest(final, r);
      assert Latest(final, KeyOf(r)) == Latest(s.store.events.history, KeyOf(r));
      LatestMember(s.store.events.history, KeyOf(r));
    }
  }

  // ---------------------------------------------------------------- what a stored row says

  /** `r` is the row `first`, or a copy of it with S3 columns that a status update of this id wrote. */
  predicate StandsFor(r: Row, first: Row, updates: seq<StatusUpdate>) {
    || r == first
    || (r == first.(insertedAt := r.insertedAt, s3Status := r.s3Status, s3Key := r.s3Key) &&
        StatusUpdate(r.uuid, r.s3Status, r.s3Key) in updates)
  }

  predicate Origin(r: Row, messages: seq<Message>, updates: seq<StatusUpdate>, i: nat, prices: map<P.PriceKey, seq<P.Price>>, now: int) {
    && i < |messages| && messages[i].payload.Some? && messages[i].payload.value.uuid.Some?
    && StandsFor(r, W.RowOf(Enrich(messages[i].payload.value, prices), now), updates)
  }

  ghost predicate Traced(r: Row, messages: seq<Message>, updates: seq<StatusUpdate>) {
    exists i: nat, prices, now :: Origin(r, messages, updates, i, prices, now)
  }

  ghost predicate AllTraced(s: State) {
    forall r :: r in s.store.events.history ==> Traced(r, s.messages, s.updates)
  }

  lemma StillTraced(s: State, s': State, more: seq<Row>)
    requires AllTraced(s) && s.messages <= s'.messages && s.updates <= s'.updates
    requires s'.store.events.history == s.store.events.history + more
    requires forall r :: r in more ==> Traced(r, s'.messages, s'.updates)
    ensures AllTraced(s')
  {
    forall r | r in s.store.events.history ensures Traced(r, s'.messages, s'.updates) {
      var i: nat, prices, now :| Origin(r, s.messages, s.updates, i, prices, now);
      assert Origin(r, s'.messages, s'.updates, i, prices, now);
    }
  }

  lemma BatchRowTraced(s: State, w: nat, f: nat, k: nat, now: int)
    requires Inv(s) && w < |s.workers| && B.IsInserting(s.workers[w], f) && k < |s.workers[w].flights[f].events|
    requires s.workers[w].flights[f].events[k].uuid.Some?
    ensures Traced(W.RowOf(s.workers[w].flights[f].events[k], now), s.messages, s.updates)
  {
    InFlightFromMessages(s, w, f, k);
    var flight := s.workers[w].flights[f];
    var i := flight.acks[k].message;
    var prices :| flight.events[k] == Enrich(s.messages[i].payload.value, prices);
    assert Origin(W.RowOf(flight.events[k], now), s.messages, s.updates, i, prices, now);
  }

  lemma BatchTraced(s: State, w: nat, f: nat, now: int)
    requires Inv(s) && w < |s.workers| && B.IsInserting(s.workers[w], f) && W.WellFormed(s.workers[w].flights[f].events)
    ensures forall r :: r in W.BatchOf(s.workers[w].flights[f].events, now).value ==> Traced(r, s.messages, s.updates)
  {
    var rows := W.BatchOf(s.workers[w].flights[f].events, now).value;
    forall r | r in rows ensures Traced(r, s.messages, s.updates) {
      var k :| 0 <= k < |rows| && rows[k] == r;
      BatchRowTraced(s, w, f, k, now);
    }
  }

  lemma SomeRowsTraced(s: State, w: nat, f: nat, now: int, rows: seq<Row>)
    requires Inv(s) && w < |s.workers| && B.IsInserting(s.workers[w], f) && SomeRowsOf(rows, s.workers[w].flights[f].events, now)
    ensures forall r :: r in rows ==> Traced(r, s.messages, s.updates)
  {
    var events := s.workers[w].flights[f].events;
    forall r | r in rows ensures Traced(r, s.messages, s.updates) {
      var n :| 0 <= n < |rows| && rows[n] == r;
      var k :| 0 <= k < |events| && W.WellFormed(events) && rows[n] == W.RowOf(events[k], now);
      BatchRowTraced(s, w, f, k, now);
    }
  }

  lemma HandledTraced(s: State, rows: seq<Row>)
    requires Handled(rows, s.messages)
    ensures forall r :: r in rows ==> Traced(r, s.messages, s.updates)
  {
    forall r | r in rows ensures Traced(r, s.messages, s.updates) {
      var i, prices, now :| 0 <= i < |s.messages| && s.messages[i].payload.Some? && s.messages[i].payload.value.uuid.Some? &&
        r == W.RowOf(Enrich(s.messages[i].payload.value, prices), now);
      assert Origin(r, s.messages, s.updates, i, prices, now);
    }
  }

  lemma StillStands(r: Row, first: Row, updates: seq<StatusUpdate>, status: S3Status, key: string, now: int)
    requires StandsFor(r, first, updates)
    ensures StandsFor(W.Restated(r, status, key, now), first, updates + [StatusUpdate(r.uuid, status, key)])
  {
    assert (updates + [StatusUpdate(r.uuid, status, key)])[|updates|] == StatusUpdate(r.uuid, status, key);
  }

  lemma CopyTraced(r: Row, messages: seq<Message>, updates: seq<StatusUpdate>, status: S3Status, key: string, now: int)
    requires Traced(r, messages, updates)
    ensures Traced(W.Restated(r, status, key, now), messages, updates + [StatusUpdate(r.uuid, status, key)])
  {
    var i: nat, prices, at :| Origin(r, messages, updates, i, prices, at);
    StillStands(r, W.RowOf(Enrich(messages[i].payload.value, prices), at), updates, status, key, now);
    assert Origin(W.Restated(r, status, key, now), messages, updates + [StatusUpdate(r.uuid, status, key)], i, prices, at);
  }

  lemma RestatedTraced(s: State, s': State, id: nat, status: S3Status, key: string)
    requires W.Inv(s.store) && AllTraced(s) && Takes(s, s', UpdateStatus(id, status, key))
    ensures AllTraced(s')
  {
    var more := W.StatusRows(s.store, s'.store, id, status, key);
    forall x | x in more ensures Traced(x, s'.messages, s'.updates) {
      var r :| r in s.store.events.history && r.uuid == id && x == W.Restated(r, status, key, x.insertedAt);
      CopyTraced(r, s.messages, s.updates, status, key, x.insertedAt);
    }
    StillTraced(s, s', more);
  }

  lemma NextTraced(s: State, s': State, a: Step)
    requires Inv(s) && AllTraced(s) && Takes(s, s', a)
    ensures AllTraced(s')
  {
    match a {
      case InsertOk(w, f, now) =>
        BatchTraced(s, w, f, now);
        StillTraced(s, s', W.BatchOf(s.workers[w].flights[f].events, now).value);
      case InsertError(w, f, now, rows) =>
        SomeRowsTraced(s, w, f, now, rows);
        if s'.store != s.store {
          StillTraced(s, s', rows);
        }
      case LateInsert(rows) =>
        HandledTraced(s, rows);
        StillTraced(s, s', rows);
      case UpdateStatus(id, status, key) => RestatedTraced(s, s', id, status, key);
      case Background =>
        W.BackgroundKeepsInv(s.store, s'.store);
      case _ =>
        assert s'.store.events.history == s.store.events.history + [];
        StillTraced(s, s', []);
    }
  }

  lemma {:induction false} RunTraced(run: seq<State>)
    requires Run(run)
    ensures AllTraced(run[|run| - 1])
    decreases |run|
  {
    if |run| > 1 {
      var n := |run| - 1;
      RunTraced(run[..n]);
      RunKeepsInv(run[..n]);
      assert run[..n][n - 1] == run[n - 1];
      assert Next(run[n - 1], run[n - 1 + 1]);
      var a :| Takes(run[n - 1], run[n], a);
      NextTraced(run[n - 1], run[n], a);
    }
  }

  /** Cost and tags are those of pricing `e` under `prices`; the S3 columns are those the worker sets, or what
      a status update of this id asked for. */
  predicate Columns(r: Row, e: Event, prices: map<P.PriceKey, seq<P.Price>>, updates: seq<StatusUpdate>) {
    && RowFor(r, e) && (r.cost, r.tags) == P.Priced(prices, e)
    && (|| StatusUpdate(r.uuid, r.s3Status, r.s3Key) in updates
        || if e.prompt != "" || e.response != "" then r.s3Status == Pending && r.s3Key == S3ObjectKey(e)
           else r.s3Status == NoText && r.s3Key == e.s3Key)
  }

  /** In every reachable state: each row ever stored is that of a published event in every column. */
  lemma StoredColumns(s: State, r: Row)
    requires Reachable(s) && r in s.store.events.history
    ensures exists i, prices :: 0 <= i < |s.messages| && s.messages[i].payload.Some? && Columns(r, s.messages[i].payload.value, prices, s.updates)
  {
    var run :| Run(run) && s == run[|run| - 1];
    RunTraced(run);
    var i: nat, prices, now :| Origin(r, s.messages, s.updates, i, prices, now);
    OriginColumns(r, s.messages[i].payload.value, prices, now, s.updates);
  }

  lemma OriginColumns(r: Row, e: Event, prices: map<P.PriceKey, seq<P.Price>>, now: int, updates: seq<StatusUpdate>)
    requires e.uuid.Some? && StandsFor(r, W.RowOf(Enrich(e, prices), now), updates)
    ensures Columns(r, e, prices, updates)
  {
    EnrichedRow(e, prices, now);
    S3KeyInjective(e, Counted(e, prices));
  }

  /** FINAL reads such rows only. */
  lemma FinalColumns(s: State, final: seq<Row>, r: Row)
    requires Reachable(s) && FinalRead(s.store.events, final) && r in final
    ensures exists i, prices :: 0 <= i < |s.messages| && s.messages[i].payload.Some? && Columns(r, s.messages[i].payload.value, prices, s.updates)
  {
    ReachableInv(s);
    FinalRowsPublished(s, final);
    StoredColumns(s, r);
  }

  /** Publishes that reuse a key carry the same token counts. */
  ghost predicate SamePayloads(messages: seq<Message>, e: Event)
    requires e.uuid.Some?
  {
    forall j :: 0 <= j < |messages| && messages[j].payload.Some? && messages[j].payload.value.uuid.Some? &&
                EventKey(messages[j].payload.value) == EventKey(e) ==>
                messages[j].payload.value.promptTokens == e.promptTokens &&
                messages[j].payload.value.completionTokens == e.completionTokens
  }

  /** Then the row FINAL reads for an acked message carries the published counts, and their sum modulo
      2^32, after any redeliveries, retries, status updates and merges. */
  lemma TokensAsPublished(s: State, i: nat, final: seq<Row>, r: Row)
    requires Reachable(s)
    requires i < |s.messages| && s.messages[i].payload.Some?
    requires s.messages[i].payload.value.uuid.Some?
    requires SamePayloads(s.messages, s.messages[i].payload.value)
    requires FinalRead(s.store.events, final)
    requires r in final && KeyOf(r) == EventKey(s.messages[i].payload.value)
    ensures r.promptTokens == s.messages[i].payload.value.promptTokens
    ensures r.completionTokens == s.messages[i].payload.value.completionTokens
    ensures r.totalTokens == (r.promptTokens + r.completionTokens) % TWO_32
  {
    ReachableInv(s);
    FinalRowsPublished(s, final);
    var j :| 0 <= j < |s.messages| && s.messages[j].payload.Some? && RowFor(r, s.messages[j].payload.value);
    CountsOfRow(r, s.messages[j].payload.value);
  }

  lemma CountsOfRow(r: Row, e: Event)
    requires RowFor(r, e)
    ensures e.uuid.Some? && EventKey(e) == KeyOf(r)
    ensures r.promptTokens == e.promptTokens && r.completionTokens == e.completionTokens
    ensures r.totalTokens == (r.promptTokens + r.completionTokens) % TWO_32
  {
  }

  /** The stream stores `e` itself. */
  ghost predicate Stores(messages: seq<Message>, e: Event) {
    exists i :: 0 <= i < |messages| && messages[i].payload == Some(e)
  }

  /** A publish leaves its own event in the stream exactly when no message of that id was stored in the last ten
      minutes, or that very event was there. */
  lemma PublishStoresIff(s: State, s': State, e: Event, now: int, ok: bool)
    requires Takes(s, s', Publish(e, now, ok))
    ensures Stores(s'.messages, e) <==>
            || (forall i :: 0 <= i < |s.messages| && s.messages[i].msgId == e.eventId ==> now - s.messages[i].at >= 10 * 60 * 1000)
            || Stores(s.messages, e)
  {
    if !Duplicate(s.messages, e.eventId, now) {
      assert s'.messages[|s.messages|].payload == Some(e);
    }
  }

  /** Some publish of `e` met a stream that did not remember its id. */
  ghost predicate GotThrough(attempts: seq<Attempt>, e: Event) {
    exists j :: 0 <= j < |attempts| && attempts[j].event == e && !attempts[j].remembered
  }

  /** The stream stores what got through, under its event id, and nothing else that decodes. */
  ghost predicate OwnMessages(s: State) {
    && (forall e :: Stores(s.messages, e) <==> GotThrough(s.attempts, e))
    && (forall i :: 0 <= i < |s.messages| && s.messages[i].payload.Some? ==> s.messages[i].msgId == s.messages[i].payload.value.eventId)
  }

  lemma StoresMore(messages: seq<Message>, m: Message, e: Event)
    ensures Stores(messages + [m], e) <==> Stores(messages, e) || m.payload == Some(e)
  {
    if i :| 0 <= i < |messages| && messages[i].payload == Some(e) {
      assert (messages + [m])[i].payload == Some(e);
    }
    assert (messages + [m])[|messages|] == m;
  }

  lemma GotThroughMore(attempts: seq<Attempt>, a: Attempt, e: Event)
    ensures GotThrough(attempts + [a], e) <==> GotThrough(attempts, e) || (a.event == e && !a.remembered)
  {
    if j :| 0 <= j < |attempts| && attempts[j].event == e && !attempts[j].remembered {
      assert (attempts + [a])[j] == attempts[j];
    }
    assert (attempts + [a])[|attempts|] == a;
  }

  lemma {:induction false} RunOwnsMessages(run: seq<State>)
    requires Run(run)
    ensures OwnMessages(run[|run| - 1])
    decreases |run|
  {
    if |run| > 1 {
      var n := |run| - 1;
      RunOwnsMessages(run[..n]);
      assert run[..n][n - 1] == run[n - 1];
      assert Next(run[n - 1], run[n - 1 + 1]);
      var a :| Takes(run[n - 1], run[n], a);
      NextOwnsMessages(run[n - 1], run[n], a);
    }
  }

  lemma NextOwnsMessages(s: State, s': State, a: Step)
    requires OwnMessages(s) && Takes(s, s', a)
    ensures OwnMessages(s')
  {
    match a {
      case Publish(e, now, ok) => PublishOwnsMessages(s, s', e, now, ok);
      case Foreign(msgId, now) =>
        forall e ensures Stores(s'.messages, e) <==> Stores(s.messages, e) {
          StoresMore(s.messages, Message(msgId, None, now), e);
        }
      case _ => assert s'.messages == s.messages && s'.attempts == s.attempts;
    }
  }

  lemma PublishOwnsMessages(s: State, s': State, e: Event, now: int, ok: bool)
    requires OwnMessages(s) && Takes(s, s', Publish(e, now, ok))
    ensures OwnMessages(s')
  {
    var m, a := Message(e.eventId, Some(e), now), Attempt(e, Duplicate(s.messages, e.eventId, now), ok);
    forall x ensures Stores(s'.messages, x) <==> GotThrough(s'.attempts, x) {
      StoresMore(s.messages, m, x);
      GotThroughMore(s.attempts, a, x);
    }
  }

  /** In every reachable state: an event is in the stream exactly when one of its publishes met a stream
      that did not remember its id. */
  lemma SentStoredIff(s: State, e: Event)
    requires Reachable(s)
    ensures Stores(s.messages, e) <==> GotThrough(s.attempts, e)
  {
    ReachableInv(s);
  }

  /** When event ids identify the events published (and nobody else writes to the stream), every event whose
      publish reached the server is in the stream, hence never lost. */
  lemma SentNotLost(s: State, j: nat)
    requires Reachable(s) && j < |s.attempts|
    requires forall a, b :: a in s.attempts && b in s.attempts && a.event.eventId == b.event.eventId ==> a.event == b.event
    requires forall i :: 0 <= i < |s.messages| ==> s.messages[i].payload.Some?
    ensures Stores(s.messages, s.attempts[j].event)
  {
    ReachableInv(s);
    var e := s.attempts[j].event;
    assert HasId(s.messages, e.eventId);
    var i :| 0 <= i < |s.messages| && s.messages[i].msgId == e.eventId;
    var x := s.messages[i].payload.value;
    assert Stores(s.messages, x);
    var k :| 0 <= k < |s.attempts| && s.attempts[k].event == x && !s.attempts[k].remembered;
    assert s.attempts[k] in s.attempts && s.attempts[j] in s.attempts;
  }

  lemma FirstPublish(s: State, s': State, a: Event, b: Event, now: int)
    requires s.messages == [] && s.pending == {} && s.attempts == [] && a.eventId == b.eventId
    requires s' == State([Message(a.eventId, Some(a), now)], {0}, [Attempt(a, false, true)], s.workers, s.store, s.updates)
    ensures Next(s, s') && Duplicate(s'.messages, b.eventId, now + 1)
  {
    assert s'.messages[0].msgId == b.eventId;
    assert [] + s'.messages == s'.messages && [] + s'.attempts == s'.attempts;
    assert Takes(s, s', Publish(a, now, true));
  }

  lemma DroppedPublish(s: State, s': State, e: Event, now: int)
    requires Duplicate(s.messages, e.eventId, now) && s' == s.(attempts := s.attempts + [Attempt(e, true, true)])
    ensures Next(s, s')
  {
    assert Takes(s, s', Publish(e, now, true));
  }

  /** Ids are remembered across organisations: of two organisations publishing one id within ten minutes,
      both are told success, but the second one's event is in no message and gets no row. */
  lemma OtherOrgDropped(workers: seq<B.State>, a: Event, b: Event)
    requires forall w :: 0 <= w < |workers| ==> workers[w] == B.START
    requires a.eventId == b.eventId && a.org != b.org
    ensures exists run: seq<State> ::
      && Run(run) && |run| == 3
      && run[2].attempts == [Attempt(a, false, true), Attempt(b, true, true)]
      && forall i :: 0 <= i < |run[2].messages| ==> run[2].messages[i].payload == Some(a)
  {
    var s0, s1, s2 := TwoPublishes(workers, a, b);
    RunOfThree(s0, s1, s2);
    var run := [s0, s1, s2];
    assert run[2] == s2 && s2.messages[0].payload == Some(a);
  }

  lemma TwoPublishes(workers: seq<B.State>, a: Event, b: Event) returns (s0: State, s1: State, s2: State)
    requires forall w :: 0 <= w < |workers| ==> workers[w] == B.START
    requires a.eventId == b.eventId
    ensures Starts(s0) && Next(s0, s1) && Next(s1, s2)
    ensures s2.attempts == [Attempt(a, false, true), Attempt(b, true, true)] && s2.messages == [Message(a.eventId, Some(a), 0)]
  {
    var m := Message(a.eventId, Some(a), 0);
    s0 := State([], {}, [], workers, W.EMPTY, []);
    s1 := State([m], {0}, [Attempt(a, false, true)], workers, W.EMPTY, []);
    s2 := State([m], {0}, [Attempt(a, false, true), Attempt(b, true, true)], workers, W.EMPTY, []);
    FirstPublish(s0, s1, a, b, 0);
    DroppedPublish(s1, s2, b, 1);
  }

  lemma RunOfThree(s0: State, s1: State, s2: State)
    requires Starts(s0) && Next(s0, s1) && Next(s1, s2)
    ensures Run([s0, s1, s2])
  {
  }

  /** A key no stored message carries has no row, in every reachable state. */
  lemma NoMessageNoRow(s: State, k: Key, final: seq<Row>)
    requires Reachable(s) && FinalRead(s.store.events, final)
    requires forall i :: 0 <= i < |s.messages| ==>
      s.messages[i].payload.None? || s.messages[i].payload.value.uuid.None? ||
      EventKey(s.messages[i].payload.value) != k
    ensures forall r :: r in final ==> KeyOf(r) != k
  {
    ReachableInv(s);
    FinalRowsPublished(s, final);
    forall r | r in final ensures KeyOf(r) != k {
      var j :| 0 <= j < |s.messages| && s.messages[j].payload.Some? && RowFor(r, s.messages[j].payload.value);
      assert EventKey(s.messages[j].payload.value) == KeyOf(r);
    }
  }
}
