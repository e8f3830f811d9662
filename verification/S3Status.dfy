/** The S3 uploader (server/internal/worker/s3uploader.go): bounded queue, upload, then a status row; and
    the reconciler, which uploads again what the table still shows as pending. */
module S3Status {
  import opened Sequences
  import opened Domain
  import opened EventsTable
  import W = Warehouse

  const QUEUE_CAPACITY := 1000
  const RECONCILE_LIMIT := 100

  // ---------------------------------------------------------------- state and steps

  /** One `uploadEvent` call: before its upload, between upload and status update, or returned. */
  datatype Upload = Uploading(event: Event) | Updating(event: Event) | Done

  /** `objects` are the keys present in the bucket; `uploads` lists every `uploadEvent` call, by the queue
      consumer or the reconciler; `fetched` is what the reconciler has still to work through; `unsettled` are
      the events whose status update was reported as failed or outlived its process, and may still land;
      `kept` records the events whose upload succeeded. */
  datatype State = State(
    store: W.Store, objects: set<string>, queue: seq<Event>, fetched: seq<Event>,
    uploads: seq<Upload>, unsettled: seq<Event>, kept: seq<Event>)

  const EMPTY := State(W.EMPTY, {}, [], [], [], [], [])

  /** What `GetPendingS3Events` makes of a row: the id as the canonical text of its UUID, no prompt or
      response, and the timestamp in the zone the driver returns. */
  predicate ReadsAs(r: Row, e: Event) {
    && e.org == r.org && e.uuid == Some(r.uuid) && e.ms == r.ms
    && e.project == r.project && e.model == r.model && e.provider == r.provider
    && e.promptTokens == r.promptTokens && e.completionTokens == r.completionTokens && e.totalTokens == r.totalTokens
    && e.cost == r.cost && e.tags == r.tags && e.s3Key == r.s3Key && e.s3Status == r.s3Status
    && e.prompt == "" && e.response == ""
  }

  datatype Step =
    | InsertRows(rows: seq<Row>)
    | Enqueue(e: Event)
    | Take
    | Fetch(events: seq<Event>)
    | Reconcile
    | UploadOk(i: nat)
    | UploadFails(i: nat)
    | StatusOk(i: nat)
    | StatusFails(i: nat)
    | StatusLands(n: nat)
    | Background
    | Restart

  function Put(queue: seq<Event>, e: Event): seq<Event> {
    if |queue| < QUEUE_CAPACITY then queue + [e] else queue
  }

  function WithUpload(s: State, i: nat, u: Upload): State
    requires i < |s.uploads|
  {
    s.(uploads := s.uploads[i := u])
  }

  predicate IsUploading(s: State, i: nat) {
    i < |s.uploads| && s.uploads[i].Uploading?
  }

  predicate IsUpdating(s: State, i: nat) {
    i < |s.uploads| && s.uploads[i].Updating?
  }

  /** Rows as the worker inserts them: it writes `pending` or `none`, never `uploaded`. */
  predicate WorkerRows(rows: seq<Row>) {
    forall n :: 0 <= n < |rows| ==> rows[n].s3Status != Uploaded
  }

  /** The events whose status update is under way. */
  function UpdatingEvents(uploads: seq<Upload>): seq<Event> {
    if uploads == [] then []
    else (if uploads[0].Updating? then [uploads[0].event] else []) + UpdatingEvents(uploads[1..])
  }

  lemma {:induction false} UpdatingEvent(uploads: seq<Upload>, e: Event)
    ensures e in UpdatingEvents(uploads) <==> Updating(e) in uploads
  {
    if uploads != [] {
      UpdatingEvent(uploads[1..], e);
      assert uploads == [uploads[0]] + uploads[1..];
    }
  }

  /** The status update for `e`. */
  ghost predicate Announces(store: W.Store, store': W.Store, e: Event)
    requires e.uuid.Some?
  {
    W.UpdatesStatus(store, store', e.uuid.value, Uploaded, S3ObjectKey(e))
  }

  function Landed(s: State, n: nat, store: W.Store): State
    requires n < |s.unsettled|
  {
    s.(store := store, unsettled := s.unsettled[..n] + s.unsettled[n + 1..])
  }

  ghost predicate Takes(s: State, s': State, a: Step) {
    match a
    case InsertRows(rows) => WorkerRows(rows) && W.Ingests(s.store, s'.store, rows) && s' == s.(store := s'.store)
    case Enqueue(e) => s' == s.(queue := Put(s.queue, e))
    case Take => s.queue != [] && s' == s.(queue := s.queue[1..], uploads := s.uploads + [Uploading(s.queue[0])])
    case Fetch(events) =>
      && |events| <= RECONCILE_LIMIT
      && (forall n :: 0 <= n < |events| ==>
           exists r :: r in Contents(s.store.events.parts) && r.s3Status == Pending && ReadsAs(r, events[n]))
      && s' == s.(fetched := events)
    case Reconcile => s.fetched != [] && s' == s.(fetched := s.fetched[1..], uploads := s.uploads + [Uploading(s.fetched[0])])
    case UploadOk(i) =>
      && IsUploading(s, i)
      && s' == WithUpload(s, i, Updating(s.uploads[i].event)).(
           objects := s.objects + {S3ObjectKey(s.uploads[i].event)}, kept := s.kept + [s.uploads[i].event])
    case UploadFails(i) => IsUploading(s, i) && s' == WithUpload(s, i, Done)
    case StatusOk(i) =>
      && IsUpdating(s, i) && s.uploads[i].event.uuid.Some?
      && Announces(s.store, s'.store, s.uploads[i].event)
      && s' == WithUpload(s, i, Done).(store := s'.store)
    case StatusFails(i) =>
      IsUpdating(s, i) && s' == WithUpload(s, i, Done).(unsettled := s.unsettled + [s.uploads[i].event])
    case StatusLands(n) =>
      && n < |s.unsettled| && s.unsettled[n].uuid.Some?
      && Announces(s.store, s'.store, s.unsettled[n]) && s' == Landed(s, n, s'.store)
    case Background => W.Background(s.store, s'.store) && s' == s.(store := s'.store)
    case Restart => s' == s.(queue := [], fetched := [], uploads := [], unsettled := s.unsettled + UpdatingEvents(s.uploads))
  }

  ghost predicate Next(s: State, s': State) {
    exists a :: Takes(s, s', a)
  }

  ghost predicate Run(run: seq<State>) {
    run != [] && run[0] == EMPTY && forall i :: 0 <= i < |run| - 1 ==> Next(run[i], run[i + 1])
  }

  // ---------------------------------------------------------------- invariant

  /** An uploaded row got its key from a kept event of its id, and the key is in the bucket. */
  ghost predicate Backed(r: Row, s: State) {
    && r.s3Key in s.objects
    && exists e :: e in s.kept && e.uuid == Some(r.uuid) && S3ObjectKey(e) == r.s3Key
  }

  /** A status update for `e` may still take effect. */
  ghost predicate Outstanding(s: State, e: Event) {
    Updating(e) in s.uploads || e in s.unsettled
  }

  ghost predicate Inv(s: State) {
    && W.Inv(s.store)
    && (forall r :: r in s.store.events.history && r.s3Status == Uploaded ==> Backed(r, s))
    && (forall e :: Outstanding(s, e) ==> e in s.kept)
    && (forall e :: e in s.kept ==> S3ObjectKey(e) in s.objects)
    && |s.queue| <= QUEUE_CAPACITY
  }

  lemma InsertKeepsInv(s: State, s': State, rows: seq<Row>)
    requires Inv(s) && Takes(s, s', InsertRows(rows))
    ensures Inv(s')
  {
    W.IngestKeepsInv(s.store, s'.store, rows);
    assert s'.store.events.history == s.store.events.history + rows;
    forall r | r in s'.store.events.history && r.s3Status == Uploaded ensures Backed(r, s') {
      assert r in s.store.events.history;
      assert Backed(r, s);
    }
  }

  lemma UploadOkKeepsInv(s: State, s': State, i: nat)
    requires Inv(s) && Takes(s, s', UploadOk(i))
    ensures Inv(s')
  {
    forall r | r in s'.store.events.history && r.s3Status == Uploaded ensures Backed(r, s') {
      assert Backed(r, s);
      var e :| e in s.kept && e.uuid == Some(r.uuid) && S3ObjectKey(e) == r.s3Key;
      assert e in s'.kept;
    }
    forall e | Outstanding(s', e) ensures e in s'.kept {
      assert e == s.uploads[i].event || Outstanding(s, e);
    }
  }

  lemma StatusRowKeepsInv(s: State, store: W.Store, r': Row)
    requires Inv(s) && Backed(r', s) && W.Ingests(s.store, store, [r'])
    ensures Inv(s.(store := store))
  {
    W.IngestKeepsInv(s.store, store, [r']);
    assert store.events.history == s.store.events.history + [r'];
    forall x | x in store.events.history && x.s3Status == Uploaded ensures Backed(x, s.(store := store)) {
      assert x == r' || x in s.store.events.history;
      assert Backed(x, s);
    }
    assert forall e :: Outstanding(s.(store := store), e) ==> Outstanding(s, e);
  }

  lemma LandedKeepsInv(s: State, id: nat, key: string, store: W.Store)
    requires Inv(s) && W.UpdatesStatus(s.store, store, id, Uploaded, key)
    requires forall r: Row :: r.uuid == id && r.s3Key == key ==> Backed(r, s)
    ensures Inv(s.(store := store))
  {
    if r: Row, now :| r.uuid == id && W.Ingests(s.store, store, [W.Restated(r, Uploaded, key, now)]) {
      assert Backed(W.Restated(r, Uploaded, key, now), s);
      StatusRowKeepsInv(s, store, W.Restated(r, Uploaded, key, now));
    } else {
      assert store == s.store;
    }
  }

  lemma StatusKeepsInv(s: State, e: Event, store: W.Store)
    requires Inv(s) && e in s.kept && e.uuid.Some?
    requires Announces(s.store, store, e)
    ensures Inv(s.(store := store))
  {
    LandedKeepsInv(s, e.uuid.value, S3ObjectKey(e), store);
  }

  lemma StatusOkKeepsInv(s: State, s': State, i: nat)
    requires Inv(s) && Takes(s, s', StatusOk(i))
    ensures Inv(s')
  {
    assert Outstanding(s, s.uploads[i].event);
    StatusKeepsInv(s, s.uploads[i].event, s'.store);
    QueueStepKeepsInv(s.(store := s'.store), s');
  }

  lemma StatusLandsKeepsInv(s: State, s': State, n: nat)
    requires Inv(s) && Takes(s, s', StatusLands(n))
    ensures Inv(s')
  {
    assert Outstanding(s, s.unsettled[n]);
    StatusKeepsInv(s, s.unsettled[n], s'.store);
    QueueStepKeepsInv(s.(store := s'.store), s');
  }

  lemma QueueStepKeepsInv(s: State, s': State)
    requires Inv(s) && s'.store == s.store && s'.objects == s.objects && s'.kept == s.kept
    requires |s'.queue| <= QUEUE_CAPACITY
    requires forall e :: Outstanding(s', e) ==> Outstanding(s, e)
    ensures Inv(s')
  {
    forall r | r in s'.store.events.history && r.s3Status == Uploaded ensures Backed(r, s') {
      assert Backed(r, s);
    }
  }

  lemma QuietKeepsInv(s: State, s': State, a: Step)
    requires Inv(s) && Takes(s, s', a)
    requires !a.InsertRows? && !a.UploadOk? && !a.StatusOk? && !a.StatusLands? && !a.Background?
    ensures Inv(s')
  {
    forall e | Outstanding(s', e) ensures Outstanding(s, e) {
      UpdatingEvent(s.uploads, e);
    }
    QueueStepKeepsInv(s, s');
  }

  lemma BackgroundKeepsInv(s: State, s': State)
    requires Inv(s) && Takes(s, s', Background)
    ensures Inv(s')
  {
    W.BackgroundKeepsInv(s.store, s'.store);
    forall r | r in s'.store.events.history && r.s3Status == Uploaded ensures Backed(r, s') {
      assert Backed(r, s);
    }
  }

  lemma NextKeepsInv(s: State, s': State, a: Step)
    requires Inv(s) && Takes(s, s', a)
    ensures Inv(s')
  {
    match a {
      case InsertRows(rows) => InsertKeepsInv(s, s', rows);
      case UploadOk(i) => UploadOkKeepsInv(s, s', i);
      case StatusOk(i) => StatusOkKeepsInv(s, s', i);
      case StatusLands(n) => StatusLandsKeepsInv(s, s', n);
      case Background => BackgroundKeepsInv(s, s');
      case _ => QuietKeepsInv(s, s', a);
    }
  }

  lemma {:induction false} RunKeepsInv(run: seq<State>)
    requires Run(run)
    ensures Inv(run[|run| - 1])
    decreases |run|
  {
    if |run| == 1 {
      W.RunKeepsInv([W.EMPTY]);
    } else {
      var n := |run| - 1;
      RunKeepsInv(run[..n]);
      assert run[..n][n - 1] == run[n - 1];
      assert Next(run[n - 1], run[n - 1 + 1]);
      var a :| Takes(run[n - 1], run[n], a);
      NextKeepsInv(run[n - 1], run[n], a);
    }
  }

  ghost predicate Reachable(s: State) {
    exists run :: Run(run) && s == run[|run| - 1]
  }

  // ---------------------------------------------------------------- what it promises

  /** Safety: in every reachable state every row that says `uploaded`, whether in a part or read through
      FINAL, names a key at which an object exists. */
  lemma UploadedHasObject(s: State, final: seq<Row>)
    requires Reachable(s) && FinalRead(s.store.events, final)
    ensures forall r :: r in Contents(s.store.events.parts) && r.s3Status == Uploaded ==> r.s3Key in s.objects
    ensures forall r :: r in final && r.s3Status == Uploaded ==> r.s3Key in s.objects
  {
    var run :| Run(run) && s == run[|run| - 1];
    RunKeepsInv(run);
    forall r | r in final ensures r in s.store.events.history {
      FinalIsHistoryCollapse(s.store.events, final);
      UniqueLatest(final, r);
      LatestMember(s.store.events.history, KeyOf(r));
    }
    forall r | r in s.store.events.history && r.s3Status == Uploaded ensures r.s3Key in s.objects {
      assert Backed(r, s);
    }
  }

  /** The key is the object key of some event of organisation `org` with that id. */
  ghost predicate KeyOfOrg(key: string, org: uint64, id: nat) {
    exists e: Event :: e.org == org && e.uuid == Some(id) && S3ObjectKey(e) == key
  }

  /** Among the kept events, an id determines its organisation. */
  ghost predicate IdsIdentifyOrg(kept: seq<Event>, r: Row) {
    forall e :: e in kept && e.uuid == Some(r.uuid) ==> e.org == r.org
  }

  /** When no other organisation's event of that id was uploaded, an uploaded row names an object of its own
      organisation and id. */
  lemma UploadedRowIsOwn(s: State, r: Row)
    requires Reachable(s) && r in s.store.events.history && r.s3Status == Uploaded
    requires IdsIdentifyOrg(s.kept, r)
    ensures KeyOfOrg(r.s3Key, r.org, r.uuid)
  {
    var run :| Run(run) && s == run[|run| - 1];
    RunKeepsInv(run);
    assert Backed(r, s);
    var e :| e in s.kept && e.uuid == Some(r.uuid) && S3ObjectKey(e) == r.s3Key;
    assert e.org == r.org;
  }

  lemma ReachableNext(s: State, s': State, a: Step)
    requires Reachable(s) && Takes(s, s', a)
    ensures Reachable(s')
  {
    assert Next(s, s');
    ReachableStep(s, s');
  }

  lemma ReachableStep(s: State, s': State)
    requires Reachable(s) && Next(s, s')
    ensures Reachable(s')
  {
    var run :| Run(run) && s == run[|run| - 1];
    RunStep(run, s');
    assert (run + [s'])[|run + [s']| - 1] == s';
  }

  lemma RunStep(run: seq<State>, s': State)
    requires Run(run) && Next(run[|run| - 1], s')
    ensures Run(run + [s'])
  {
    var longer := run + [s'];
    assert longer[0] == run[0];
    forall i | 0 <= i < |longer| - 1 ensures Next(longer[i], longer[i + 1]) {
      if i < |run| - 1 {
        assert longer[i] == run[i] && longer[i + 1] == run[i + 1];
      } else {
        assert longer[i] == run[|run| - 1] && longer[i + 1] == s';
      }
    }
  }

  lemma StartReachable()
    ensures Reachable(EMPTY)
  {
    assert Run([EMPTY]);
  }

  /** An inserted row is in the table. */
  lemma InsertedIsStored(t: Table, r: Row)
    ensures r in Contents(Insert(t, [r]).parts)
  {
    var k := KeyOf(r);
    SplitKeepsRows([r], k);
    assert Latest([r], k) == Some(r);
    LatestMember(Contents(SplitByMonth([r])), k);
    ContentsAppend(t.parts, SplitByMonth([r]));
  }

  /** The other case is reached: a row of one organisation, the upload of another organisation's event of
      that id, and its status update leave FINAL with a row that names the other's object. */
  lemma ForeignKeyReachable(r: Row, e: Event, now: int) returns (s: State, x: Row)
    requires r.s3Status != Uploaded && e.uuid == Some(r.uuid) && e.org != r.org && now >= r.insertedAt
    ensures Reachable(s) && x in s.store.events.history && Latest(s.store.events.history, KeyOf(r)) == Some(x)
    ensures x.s3Status == Uploaded && x.org == r.org && !KeyOfOrg(x.s3Key, x.org, x.uuid)
  {
    var key := S3ObjectKey(e);
    x := W.Restated(r, Uploaded, key, now);
    KeyNamesOrgIff(e, r.org, r.uuid);
    var s1 := RowInserted(r);
    var s2 := UploadedBeside(s1, e);
    var store := W.IngestExists(s2.store, [x]);
    InsertedIsStored(W.EMPTY.events, r);
    assert W.UpdatesStatus(s2.store, store, r.uuid, Uploaded, key);
    s := WithUpload(s2, 0, Done).(store := store);
    ReachableNext(s2, s, StatusOk(0));
    LatestOfTwo(r, x);
  }

  lemma LatestOfTwo(r: Row, x: Row)
    requires KeyOf(x) == KeyOf(r) && x.insertedAt >= r.insertedAt
    ensures [] + [r] + [x] == [r, x] && Latest([r, x], KeyOf(r)) == Some(x)
  {
    LatestAppend([r], [x], KeyOf(r));
    assert [r] + [x] == [r, x] && Latest([r], KeyOf(r)) == Some(r) && Latest([x], KeyOf(r)) == Some(x);
  }

  lemma RowInserted(r: Row) returns (s: State)
    requires r.s3Status != Uploaded
    ensures Reachable(s) && s == EMPTY.(store := s.store) && s.store.events == Insert(W.EMPTY.events, [r])
  {
    StartReachable();
    var store := W.IngestExists(W.EMPTY, [r]);
    s := EMPTY.(store := store);
    ReachableNext(EMPTY, s, InsertRows([r]));
  }

  lemma UploadedBeside(s: State, e: Event) returns (t: State)
    requires Reachable(s) && s == EMPTY.(store := s.store)
    ensures Reachable(t) && t.store == s.store && t.uploads == [Updating(e)]
  {
    var s1 := s.(queue := [e]);
    ReachableNext(s, s1, Enqueue(e));
    var s2 := s.(uploads := [Uploading(e)]);
    assert [e][1..] == [];
    ReachableNext(s1, s2, Take);
    t := s.(uploads := [Updating(e)], objects := {S3ObjectKey(e)}, kept := [e]);
    assert s2.uploads[0 := Updating(e)] == [Updating(e)];
    ReachableNext(s2, t, UploadOk(0));
  }

  /** An event's key names an object of an organisation exactly when it is the event's own. */
  lemma KeyNamesOrgIff(e: Event, org: uint64, id: nat)
    requires e.uuid == Some(id)
    ensures KeyOfOrg(S3ObjectKey(e), org, id) <==> e.org == org
  {
    if f: Event :| f.org == org && f.uuid == Some(id) && S3ObjectKey(f) == S3ObjectKey(e) {
      S3KeyInjective(e, f);
    }
  }

  /** The organisations of all stored rows of the event's id are the event's own. */
  ghost predicate OnlyOwnRows(s: W.Store, e: Event) {
    forall r :: r in Contents(s.events.parts) && e.uuid == Some(r.uuid) ==> r.org == e.org
  }

  /** The status update for `e` can append the row `x`. */
  ghost predicate Restates(s: W.Store, s': W.Store, e: Event, x: Row)
    requires e.uuid.Some?
  {
    W.UpdatesStatus(s, s', e.uuid.value, Uploaded, S3ObjectKey(e)) && s'.events.history == s.events.history + [x]
  }

  /** The status update selects by event id alone and takes any one row. Every row it can write names an
      object of its own organisation exactly when all stored rows of that id are of the event's. */
  lemma StatusOwnIff(s: W.Store, e: Event)
    requires e.uuid.Some?
    ensures (forall s', x :: Restates(s, s', e, x) ==> KeyOfOrg(x.s3Key, x.org, x.uuid)) <==> OnlyOwnRows(s, e)
  {
    if OnlyOwnRows(s, e) {
      forall s', x | Restates(s, s', e, x) ensures KeyOfOrg(x.s3Key, x.org, x.uuid) {
        var r := RestatedRow(s, s', e, x);
        KeyNamesOrgIff(e, r.org, r.uuid);
      }
    }
    if forall s', x :: Restates(s, s', e, x) ==> KeyOfOrg(x.s3Key, x.org, x.uuid) {
      forall r | r in Contents(s.events.parts) && e.uuid == Some(r.uuid) ensures r.org == e.org {
        var s', x := RestateOne(s, e, r);
        assert Restates(s, s', e, x);
        KeyNamesOrgIff(e, r.org, r.uuid);
      }
    }
  }

  /** The row an update copied. */
  lemma RestatedRow(s: W.Store, s': W.Store, e: Event, x: Row) returns (r: Row)
    requires e.uuid.Some? && Restates(s, s', e, x)
    ensures r in Contents(s.events.parts) && e.uuid == Some(r.uuid)
    ensures x.org == r.org && x.uuid == r.uuid && x.s3Key == S3ObjectKey(e)
  {
    var key := S3ObjectKey(e);
    assert |s'.events.history| == |s.events.history| + 1;
    var y: Row, now :| y in Contents(s.events.parts) && y.uuid == e.uuid.value &&
      W.Ingests(s, s', [W.Restated(y, Uploaded, key, now)]);
    r := y;
    LastOf(s.events.history, W.Restated(y, Uploaded, key, now), x);
  }

  lemma LastOf(h: seq<Row>, a: Row, b: Row)
    requires h + [a] == h + [b]
    ensures a == b
  {
    assert (h + [a])[|h|] == (h + [b])[|h|];
  }

  /** It can copy any row of the id. */
  lemma RestateOne(s: W.Store, e: Event, r: Row) returns (s': W.Store, x: Row)
    requires r in Contents(s.events.parts) && e.uuid == Some(r.uuid)
    ensures Restates(s, s', e, x) && x.org == r.org && x.uuid == r.uuid && x.s3Status == Uploaded && x.s3Key == S3ObjectKey(e)
  {
    x := W.Restated(r, Uploaded, S3ObjectKey(e), 0);
    s' := W.IngestExists(s, [x]);
  }

  // ---------------------------------------------------------------- when a foreign key appears

  ghost predicate OwnKeys(s: State) {
    forall r :: r in s.store.events.history && r.s3Status == Uploaded ==> KeyOfOrg(r.s3Key, r.org, r.uuid)
  }

  /** A status update may still land for an event while another organisation's row of its id is stored. */
  ghost predicate Clash(s: State) {
    exists e :: Outstanding(s, e) && e.uuid.Some? && !OnlyOwnRows(s.store, e)
  }

  /** As long as all uploaded rows name their own organisation's objects, one step can change that exactly
      when there is a clash. */
  lemma ForeignKeyNextIff(s: State)
    requires OwnKeys(s)
    ensures (exists s' :: Next(s, s') && !OwnKeys(s')) <==> Clash(s)
  {
    if s' :| Next(s, s') && !OwnKeys(s') {
      var a :| Takes(s, s', a);
      if !Clash(s) {
        NoClashKeepsOwn(s, s', a);
      }
    }
    if e :| Outstanding(s, e) && e.uuid.Some? && !OnlyOwnRows(s.store, e) {
      var r :| r in Contents(s.store.events.parts) && e.uuid == Some(r.uuid) && r.org != e.org;
      var store, x := RestateOne(s.store, e, r);
      KeyNamesOrgIff(e, r.org, r.uuid);
      var s' := UpdateTakesEffect(s, e, store);
      assert x in s'.store.events.history;
    }
  }

  lemma OkTakesEffect(s: State, i: nat, store: W.Store)
    requires IsUpdating(s, i) && s.uploads[i].event.uuid.Some?
    requires Announces(s.store, store, s.uploads[i].event)
    ensures Next(s, WithUpload(s, i, Done).(store := store))
  {
    assert Takes(s, WithUpload(s, i, Done).(store := store), StatusOk(i));
  }

  lemma LandingTakesEffect(s: State, n: nat, store: W.Store)
    requires n < |s.unsettled| && s.unsettled[n].uuid.Some?
    requires Announces(s.store, store, s.unsettled[n])
    ensures Next(s, Landed(s, n, store))
  {
    assert Takes(s, Landed(s, n, store), StatusLands(n));
  }

  /** An outstanding update takes effect. */
  lemma UpdateTakesEffect(s: State, e: Event, store: W.Store) returns (s': State)
    requires Outstanding(s, e) && e.uuid.Some?
    requires Announces(s.store, store, e)
    ensures Next(s, s') && s'.store == store
  {
    if Updating(e) in s.uploads {
      var i :| 0 <= i < |s.uploads| && s.uploads[i] == Updating(e);
      OkTakesEffect(s, i, store);
      s' := WithUpload(s, i, Done).(store := store);
    } else {
      var n :| 0 <= n < |s.unsettled| && s.unsettled[n] == e;
      LandingTakesEffect(s, n, store);
      s' := Landed(s, n, store);
    }
  }

  lemma UpdateKeepsOwn(s: State, e: Event, store: W.Store)
    requires OwnKeys(s) && Outstanding(s, e) && e.uuid.Some? && !Clash(s)
    requires Announces(s.store, store, e)
    ensures OwnKeys(s.(store := store))
  {
    assert OnlyOwnRows(s.store, e);
    StatusOwnIff(s.store, e);
    if r: Row, now :| r.uuid == e.uuid.value && W.Ingests(s.store, store, [W.Restated(r, Uploaded, S3ObjectKey(e), now)]) {
      var x := W.Restated(r, Uploaded, S3ObjectKey(e), now);
      assert store.events.history == s.store.events.history + [x];
      assert Restates(s.store, store, e, x);
    } else {
      assert store == s.store;
    }
  }

  lemma NoClashKeepsOwn(s: State, s': State, a: Step)
    requires OwnKeys(s) && Takes(s, s', a) && !Clash(s)
    ensures OwnKeys(s')
  {
    match a {
      case StatusOk(i) =>
        assert Outstanding(s, s.uploads[i].event);
        UpdateKeepsOwn(s, s.uploads[i].event, s'.store);
      case StatusLands(n) =>
        assert Outstanding(s, s.unsettled[n]);
        UpdateKeepsOwn(s, s.unsettled[n], s'.store);
      case InsertRows(rows) => assert s'.store.events.history == s.store.events.history + rows;
      case Background => BackgroundKeepsHistory(s.store, s'.store);
      case _ => assert s'.store == s.store;
    }
  }

  lemma BackgroundKeepsHistory(s: W.Store, s': W.Store)
    requires W.Background(s, s')
    ensures s'.events.history == s.events.history
  {
  }

  /** Hence, over every run without a clash, every uploaded row names its own organisation's object. */
  lemma {:induction false} NoClashOwnKeys(run: seq<State>)
    requires Run(run) && forall n :: 0 <= n < |run| - 1 ==> !Clash(run[n])
    ensures OwnKeys(run[|run| - 1])
    decreases |run|
  {
    var n := |run| - 1;
    if n > 0 {
      NoClashOwnKeys(run[..n]);
      assert run[..n][n - 1] == run[n - 1];
      assert Next(run[n - 1], run[n - 1 + 1]);
      ForeignKeyNextIff(run[n - 1]);
    }
  }

  // ---------------------------------------------------------------- the uploader itself

  /** A call of `UpdateS3Status`. */
  datatype StatusCall = StatusCall(eventId: string, status: S3Status, key: string)

  class S3Uploader {
    const hasPendingStore: bool
    var uploadCh: seq<Event>
    var objects: set<string>
    var calls: seq<StatusCall>

    /** No status update was asked for before its object existed. */
    ghost predicate Valid()
      reads this
    {
      && |uploadCh| <= QUEUE_CAPACITY
      && forall n :: 0 <= n < |calls| ==> calls[n].status == Uploaded && calls[n].key in objects
    }

    constructor (hasPendingStore: bool)
      ensures Valid() && uploadCh == [] && objects == {} && calls == [] && this.hasPendingStore == hasPendingStore
    {
      this.hasPendingStore := hasPendingStore;
      uploadCh, objects, calls := [], {}, [];
    }

    /** Never blocks: with the queue full the event is dropped, for the reconciler to find. */
    method Enqueue(e: Event)
      requires Valid()
      modifies this`uploadCh
      ensures Valid() && uploadCh == Put(old(uploadCh), e)
      ensures uploadCh == if |old(uploadCh)| < 1000 then old(uploadCh) + [e] else old(uploadCh)
    {
      if |uploadCh| < QUEUE_CAPACITY {
        uploadCh := uploadCh + [e];
      }
    }

    /** `stored` is the object store's answer. A status update that fails is only logged, so it does not
        change the result. */
    method UploadEvent(e: Event, stored: bool) returns (ok: bool)
      requires Valid()
      modifies this`objects, this`calls
      ensures Valid() && ok == stored
      ensures objects == old(objects) + (if stored then {S3ObjectKey(e)} else {})
      ensures calls == old(calls) + (if hasPendingStore then IfStored(e, stored) else [])
    {
      assert calls + [] == calls;
      if !stored {
        return false;
      }
      objects := objects + {S3ObjectKey(e)};
      if hasPendingStore {
        calls := calls + [StatusCall(e.eventId, Uploaded, S3ObjectKey(e))];
      }
      ok := true;
    }

    /** The reconciler's pass over what it fetched (None: the query failed): one failing upload does not
        stop the others. */
    method Reconcile(fetched: Option<seq<Event>>, stored: seq<bool>)
      requires Valid() && (fetched.Some? ==> |stored| == |fetched.value|)
      modifies this`objects, this`calls
      ensures Valid() && old(objects) <= objects
      ensures calls == old(calls) + (if hasPendingStore && fetched.Some? then Asked(fetched.value, stored) else [])
    {
      assert calls + [] == calls;
      if !hasPendingStore || fetched.None? {
        return;
      }
      var events := fetched.value;
      for n := 0 to |events|
        invariant Valid() && old(objects) <= objects
        invariant calls == old(calls) + Asked(events[..n], stored[..n])
      {
        AskedSnoc(events, stored, n);
        Associate(old(calls), Asked(events[..n], stored[..n]), IfStored(events[n], stored[n]));
        var ok := UploadEvent(events[n], stored[n]);
      }
      assert events[..|events|] == events && stored[..|events|] == stored;
    }
  }

  function Announcement(e: Event): StatusCall {
    StatusCall(e.eventId, Uploaded, S3ObjectKey(e))
  }

  function IfStored(e: Event, stored: bool): seq<StatusCall> {
    if stored then [Announcement(e)] else []
  }

  /** The status updates asked for: one, in order, for each event whose upload succeeded. */
  function Asked(events: seq<Event>, stored: seq<bool>): seq<StatusCall>
    requires |events| == |stored|
  {
    if events == [] then [] else Asked(events[..|events| - 1], stored[..|stored| - 1]) + IfStored(events[|events| - 1], stored[|stored| - 1])
  }

  lemma AskedSnoc(events: seq<Event>, stored: seq<bool>, n: nat)
    requires n < |events| == |stored|
    ensures Asked(events[..n + 1], stored[..n + 1]) == Asked(events[..n], stored[..n]) + IfStored(events[n], stored[n])
  {
    assert events[..n + 1][..n] == events[..n] && stored[..n + 1][..n] == stored[..n];
  }
}
