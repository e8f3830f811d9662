/** The batching writer (server/internal/worker/batchwriter.go): buffer, parallel ack list and byte counter
    under a mutex that `Flush` releases while it inserts. The steps are the critical sections and the
    external calls between them, so any number of flushes and `Add` calls may interleave. */
module BatchWriting {
  import opened Sequences
  import opened Domain
  import W = Warehouse

  /** The ack function handed over with an event: nil, or the one of a delivered message. */
  datatype Ack = NoAck | AckOf(message: nat)

  datatype Item = Item(event: Event, ack: Ack)

  /** The struct itself on a 64-bit platform. */
  const EVENT_STRUCT_BYTES := 248

  function EventSize(e: Event): nat {
    EVENT_STRUCT_BYTES + |e.eventId| + |e.model| + |e.provider| + |e.prompt| + |e.response| + |e.s3Key| + |e.promptHash| +
    TagBytes(e.tags)
  }

  /** The struct, and every byte of the counted texts. */
  lemma EventSizeCounts(e: Event, x: string)
    ensures e.eventId == e.model == e.provider == e.prompt == e.response == e.s3Key == e.promptHash == "" && e.tags == [] ==>
              EventSize(e) == 248
    ensures EventSize(e.(eventId := e.eventId + x)) == EventSize(e) + |x| == EventSize(e.(model := e.model + x))
    ensures EventSize(e.(provider := e.provider + x)) == EventSize(e) + |x| == EventSize(e.(prompt := e.prompt + x))
    ensures EventSize(e.(response := e.response + x)) == EventSize(e) + |x| == EventSize(e.(s3Key := e.s3Key + x))
    ensures EventSize(e.(promptHash := e.promptHash + x)) == EventSize(e) + |x|
  {
  }

  lemma TagSizeCounts(e: Event, t: Tag)
    ensures EventSize(e.(tags := [t] + e.tags)) == EventSize(e) + |t.key| + |t.value|
  {
  }

  function TagBytes(tags: seq<Tag>): nat {
    if tags == [] then 0 else |tags[0].key| + |tags[0].value| + TagBytes(tags[1..])
  }

  function SizeSum(events: seq<Event>): nat {
    if events == [] then 0 else EventSize(events[0]) + SizeSum(events[1..])
  }

  lemma {:induction false} SizeSumAppend(a: seq<Event>, b: seq<Event>)
    ensures SizeSum(a + b) == SizeSum(a) + SizeSum(b)
  {
    if a == [] {
      assert a + b == b;
    } else {
      assert (a + b)[1..] == a[1..] + b;
      SizeSumAppend(a[1..], b);
    }
  }

  // ---------------------------------------------------------------- state

  /** Where a `Flush` call stands: in `InsertEvents`, at the ack of index `next`, or returned an error. */
  datatype Phase = Inserting | Acking(next: nat) | Failed

  /** The snapshot one `Flush` call took. */
  datatype Flight = Flight(events: seq<Event>, acks: seq<Ack>, phase: Phase)

  /** `flights` lists every `Flush` call that found something to flush, finished or not; `added`, `stored`
      and `ran` record what `Add` was given, what was inserted and which acks were called, in order. */
  datatype State = State(
    buffer: seq<Event>, acks: seq<Ack>, memBytes: int,
    flights: seq<Flight>, added: seq<Item>, stored: seq<Item>, ran: seq<Ack>)

  const START := State([], [], 0, [], [], [], [])

  /** Events with the acks at the same indices. */
  function Pair(events: seq<Event>, acks: seq<Ack>): seq<Item>
    requires |events| == |acks|
  {
    seq(|events|, i requires 0 <= i < |events| => Item(events[i], acks[i]))
  }

  ghost predicate Paired(s: State) {
    |s.buffer| == |s.acks| && forall i :: 0 <= i < |s.flights| ==> |s.flights[i].events| == |s.flights[i].acks|
  }

  predicate IsInserting(s: State, i: nat) {
    i < |s.flights| && s.flights[i].phase.Inserting?
  }

  predicate IsAcking(s: State, i: nat) {
    i < |s.flights| && s.flights[i].phase.Acking? && s.flights[i].phase.next < |s.flights[i].acks|
  }

  // ---------------------------------------------------------------- steps

  function AddStep(s: State, x: Item): State {
    s.(buffer := s.buffer + [x.event], acks := s.acks + [x.ack], memBytes := s.memBytes + EventSize(x.event),
       added := s.added + [x])
  }

  /** Lock, snapshot, reset, unlock; nothing when the buffer is empty. */
  function BeginStep(s: State): State {
    if s.buffer == [] then s
    else s.(buffer := [], acks := [], memBytes := 0, flights := s.flights + [Flight(s.buffer, s.acks, Inserting)])
  }

  /** `InsertEvents` returned nil. */
  function InsertOkStep(s: State, i: nat): State
    requires Paired(s) && IsInserting(s, i)
  {
    var f := s.flights[i];
    s.(flights := s.flights[i := f.(phase := Acking(0))], stored := s.stored + Pair(f.events, f.acks))
  }

  /** `InsertEvents` returned an error: the snapshot goes back in front. */
  function PutBackStep(s: State, i: nat): State
    requires IsInserting(s, i)
  {
    var f := s.flights[i];
    s.(buffer := f.events + s.buffer, acks := f.acks + s.acks, memBytes := s.memBytes + SizeSum(f.events),
       flights := s.flights[i := f.(phase := Failed)])
  }

  /** One round of the ack loop; a nil ack is skipped, an ack's error is only logged. */
  function AckStep(s: State, i: nat): State
    requires IsAcking(s, i)
  {
    var f := s.flights[i];
    s.(flights := s.flights[i := f.(phase := Acking(f.phase.next + 1))], ran := s.ran + Calls([f.acks[f.phase.next]]))
  }

  /** The acks that are functions. */
  function Calls(acks: seq<Ack>): seq<Ack> {
    if acks == [] then [] else (if acks[0].NoAck? then [] else [acks[0]]) + Calls(acks[1..])
  }

  datatype Step = AddOne(x: Item) | Begin | InsertOk(i: nat) | PutBack(i: nat) | RunAck(i: nat)

  /** The store refuses a whole batch when one of its ids is not a UUID, and may fail at any time. */
  predicate Enabled(s: State, a: Step) {
    match a
    case AddOne(_) => true
    case Begin => true
    case InsertOk(i) => IsInserting(s, i) && W.WellFormed(s.flights[i].events)
    case PutBack(i) => IsInserting(s, i)
    case RunAck(i) => IsAcking(s, i)
  }

  function Apply(s: State, a: Step): State
    requires Paired(s) && Enabled(s, a)
  {
    match a
    case AddOne(x) => AddStep(s, x)
    case Begin => BeginStep(s)
    case InsertOk(i) => InsertOkStep(s, i)
    case PutBack(i) => PutBackStep(s, i)
    case RunAck(i) => AckStep(s, i)
  }

  ghost predicate Next(s: State, s': State) {
    exists a :: Paired(s) && Enabled(s, a) && s' == Apply(s, a)
  }

  ghost predicate Run(run: seq<State>) {
    run != [] && run[0] == START && forall i :: 0 <= i < |run| - 1 ==> Next(run[i], run[i + 1])
  }

  ghost predicate Path(path: seq<State>) {
    path != [] && forall i :: 0 <= i < |path| - 1 ==> Next(path[i], path[i + 1])
  }

  /** Some sequence of steps leads from `s` to `t`. */
  ghost predicate Reaches(s: State, t: State) {
    exists path :: Path(path) && path[0] == s && path[|path| - 1] == t
  }

  lemma ReachesSelf(s: State)
    ensures Reaches(s, s)
  {
    assert Path([s]);
  }

  lemma ReachesNext(s: State, t: State, a: Step)
    requires Reaches(s, t) && Paired(t) && Enabled(t, a)
    ensures Reaches(s, Apply(t, a))
  {
    var path :| Path(path) && path[0] == s && path[|path| - 1] == t;
    var longer := path + [Apply(t, a)];
    assert Next(t, Apply(t, a));
    assert forall i :: 0 <= i < |longer| - 1 ==> longer[i] == path[i];
    assert Path(longer);
  }

  // ---------------------------------------------------------------- conservation

  /** What a flight still holds between snapshot and insert. */
  function Held(f: Flight): multiset<Item> {
    if f.phase.Inserting? && |f.events| == |f.acks| then multiset(Pair(f.events, f.acks)) else multiset{}
  }

  /** The acks a flight has still to call. */
  function Waiting(f: Flight): multiset<Ack> {
    if f.phase.Acking? && f.phase.next <= |f.acks| then multiset(Calls(f.acks[f.phase.next..])) else multiset{}
  }

  function AcksOf(items: seq<Item>): seq<Ack> {
    seq(|items|, i requires 0 <= i < |items| => items[i].ack)
  }

  /** Every event added is buffered, in flight or stored, with its own ack, as often as it was added. */
  ghost predicate Conserved(s: State) {
    Paired(s) && multiset(s.added) == multiset(Pair(s.buffer, s.acks)) + BagSum(s.flights, Held) + multiset(s.stored)
  }

  /** The acks of stored events are exactly those called and those waiting to be. */
  ghost predicate AckedAfterStored(s: State) {
    && (forall i :: 0 <= i < |s.flights| && s.flights[i].phase.Acking? ==> s.flights[i].phase.next <= |s.flights[i].acks|)
    && multiset(Calls(AcksOf(s.stored))) == multiset(s.ran) + BagSum(s.flights, Waiting)
  }

  ghost predicate Inv(s: State) {
    Conserved(s) && AckedAfterStored(s) && s.memBytes == SizeSum(s.buffer)
  }

  lemma PairAppend(e: seq<Event>, a: seq<Ack>, e': seq<Event>, a': seq<Ack>)
    requires |e| == |a| && |e'| == |a'|
    ensures Pair(e + e', a + a') == Pair(e, a) + Pair(e', a')
  {
  }

  lemma {:induction false} CallsAppend(a: seq<Ack>, b: seq<Ack>)
    ensures Calls(a + b) == Calls(a) + Calls(b)
  {
    if a == [] {
      assert a + b == b;
    } else {
      assert (a + b)[1..] == a[1..] + b;
      CallsAppend(a[1..], b);
    }
  }

  lemma AddConserves(s: State, x: Item)
    requires Conserved(s)
    ensures Conserved(AddStep(s, x))
  {
    PairAppend(s.buffer, s.acks, [x.event], [x.ack]);
    assert Pair([x.event], [x.ack]) == [x];
  }

  lemma BeginConserves(s: State)
    requires Conserved(s) && s.buffer != []
    ensures Conserved(BeginStep(s))
  {
    BagAppend(s.flights, Flight(s.buffer, s.acks, Inserting), Held);
    assert Pair([], []) == [];
  }

  lemma InsertOkConserves(s: State, i: nat)
    requires Conserved(s) && IsInserting(s, i)
    ensures Conserved(InsertOkStep(s, i))
  {
    var f := s.flights[i];
    var f' := f.(phase := Acking(0));
    BagGave(s.flights, i, f', Held, Held(f));
  }

  lemma PutBackConserves(s: State, i: nat)
    requires Conserved(s) && IsInserting(s, i)
    ensures Conserved(PutBackStep(s, i))
  {
    var f := s.flights[i];
    var f' := f.(phase := Failed);
    BagGave(s.flights, i, f', Held, Held(f));
    PairAppend(f.events, f.acks, s.buffer, s.acks);
  }

  lemma AckConserves(s: State, i: nat)
    requires Conserved(s) && IsAcking(s, i)
    ensures Conserved(AckStep(s, i))
  {
    BagGained(s.flights, i, AckStep(s, i).flights[i], Held, multiset{});
  }

  lemma NextConserves(s: State, a: Step)
    requires Conserved(s) && Enabled(s, a)
    ensures Conserved(Apply(s, a))
  {
    match a {
      case AddOne(x) => AddConserves(s, x);
      case Begin => if s.buffer != [] { BeginConserves(s); }
      case InsertOk(i) => InsertOkConserves(s, i);
      case PutBack(i) => PutBackConserves(s, i);
      case RunAck(i) => AckConserves(s, i);
    }
  }

  lemma BeginKeepsAcks(s: State)
    requires AckedAfterStored(s) && s.buffer != []
    ensures AckedAfterStored(BeginStep(s))
  {
    BagAppend(s.flights, Flight(s.buffer, s.acks, Inserting), Waiting);
  }

  lemma InsertOkKeepsAcks(s: State, i: nat)
    requires Paired(s) && AckedAfterStored(s) && IsInserting(s, i)
    ensures AckedAfterStored(InsertOkStep(s, i))
  {
    var f := s.flights[i];
    var f' := f.(phase := Acking(0));
    AllWaiting(f');
    BagGained(s.flights, i, f', Waiting, multiset(Calls(f.acks)));
    CallsOfStored(s.stored, f.events, f.acks);
  }

  lemma AllWaiting(f: Flight)
    requires f.phase == Acking(0)
    ensures Waiting(f) == multiset(Calls(f.acks))
  {
    assert f.acks[0..] == f.acks;
  }

  lemma CallsOfStored(stored: seq<Item>, events: seq<Event>, acks: seq<Ack>)
    requires |events| == |acks|
    ensures Calls(AcksOf(stored + Pair(events, acks))) == Calls(AcksOf(stored)) + Calls(acks)
  {
    assert AcksOf(stored + Pair(events, acks)) == AcksOf(stored) + acks;
    CallsAppend(AcksOf(stored), acks);
  }

  lemma PutBackKeepsAcks(s: State, i: nat)
    requires AckedAfterStored(s) && IsInserting(s, i)
    ensures AckedAfterStored(PutBackStep(s, i))
  {
    BagGained(s.flights, i, s.flights[i].(phase := Failed), Waiting, multiset{});
  }

  lemma AckMoves(flights: seq<Flight>, i: nat, f: Flight)
    requires i < |flights| && flights[i].phase.Acking? && flights[i].phase.next < |flights[i].acks|
    requires f == flights[i].(phase := Acking(flights[i].phase.next + 1))
    ensures BagSum(flights, Waiting) ==
            BagSum(flights[i := f], Waiting) + multiset(Calls([flights[i].acks[flights[i].phase.next]]))
  {
    OneLessWaiting(flights[i]);
    BagGave(flights, i, f, Waiting, multiset(Calls([flights[i].acks[flights[i].phase.next]])));
  }

  lemma HandOver(all: multiset<Ack>, ran: seq<Ack>, d: seq<Ack>, was: multiset<Ack>, now: multiset<Ack>)
    requires all == multiset(ran) + was && was == now + multiset(d)
    ensures all == multiset(ran + d) + now
  {
  }

  lemma AckKeepsAcks(s: State, i: nat)
    requires AckedAfterStored(s) && IsAcking(s, i)
    ensures AckedAfterStored(AckStep(s, i))
  {
    var f := s.flights[i];
    var f' := f.(phase := Acking(f.phase.next + 1));
    AckMoves(s.flights, i, f');
    HandOver(multiset(Calls(AcksOf(s.stored))), s.ran, Calls([f.acks[f.phase.next]]),
             BagSum(s.flights, Waiting), BagSum(s.flights[i := f'], Waiting));
  }

  lemma OneLessWaiting(f: Flight)
    requires f.phase.Acking? && f.phase.next < |f.acks|
    ensures Waiting(f) == Waiting(f.(phase := Acking(f.phase.next + 1))) + multiset(Calls([f.acks[f.phase.next]]))
  {
    var n := f.phase.next;
    assert f.acks[n..] == [f.acks[n]] + f.acks[n + 1..];
    CallsAppend([f.acks[n]], f.acks[n + 1..]);
  }

  lemma NextKeepsAcks(s: State, a: Step)
    requires Paired(s) && AckedAfterStored(s) && Enabled(s, a)
    ensures AckedAfterStored(Apply(s, a))
  {
    match a {
      case AddOne(x) =>
      case Begin => if s.buffer != [] { BeginKeepsAcks(s); }
      case InsertOk(i) => InsertOkKeepsAcks(s, i);
      case PutBack(i) => PutBackKeepsAcks(s, i);
      case RunAck(i) => AckKeepsAcks(s, i);
    }
  }

  lemma NextKeepsInv(s: State, a: Step)
    requires Inv(s) && Enabled(s, a)
    ensures Inv(Apply(s, a))
  {
    NextConserves(s, a);
    NextKeepsAcks(s, a);
    match a {
      case AddOne(x) =>
        SizeSumAppend(s.buffer, [x.event]);
        assert SizeSum([x.event]) == EventSize(x.event);
      case Begin =>
      case InsertOk(i) =>
      case PutBack(i) => SizeSumAppend(s.flights[i].events, s.buffer);
      case RunAck(i) =>
    }
  }

  lemma {:induction false} PathKeepsInv(path: seq<State>)
    requires Path(path) && Inv(path[0])
    ensures Inv(path[|path| - 1])
    decreases |path|
  {
    var n := |path| - 1;
    if n > 0 {
      PathKeepsInv(path[..n]);
      assert path[..n][n - 1] == path[n - 1];
      assert Next(path[n - 1], path[n - 1 + 1]);
      var a :| Enabled(path[n - 1], a) && path[n] == Apply(path[n - 1], a);
      NextKeepsInv(path[n - 1], a);
    }
  }

  /** Whatever takes only steps keeps the conservation and ack laws. */
  lemma ReachesKeepsInv(s: State, t: State)
    requires Reaches(s, t) && Inv(s)
    ensures Inv(t)
  {
    var path :| Path(path) && path[0] == s && path[|path| - 1] == t;
    PathKeepsInv(path);
  }

  /** Under every interleaving of `Add` with any number of overlapping flushes. */
  lemma {:induction false} RunKeepsInv(run: seq<State>)
    requires Run(run)
    ensures Inv(run[|run| - 1])
    decreases |run|
  {
    if |run| == 1 {
      assert Pair([], []) == [] && AcksOf([]) == [];
    } else {
      var n := |run| - 1;
      RunKeepsInv(run[..n]);
      assert run[..n][n - 1] == run[n - 1];
      assert Next(run[n - 1], run[n - 1 + 1]);
      var a :| Enabled(run[n - 1], a) && run[n] == Apply(run[n - 1], a);
      NextKeepsInv(run[n - 1], a);
    }
  }

  /** An ack runs no more often than an event carrying it was stored, and that no more often than one was
      added: with distinct acks, at most once and only after the insert of its own event. */
  lemma AcksFollowInserts(s: State, a: Ack)
    requires Inv(s) && a != NoAck
    ensures multiset(s.ran)[a] <= multiset(AcksOf(s.stored))[a] <= multiset(AcksOf(s.added))[a]
  {
    CallsCount(AcksOf(s.stored), a);
    assert multiset(s.ran)[a] <= multiset(Calls(AcksOf(s.stored)))[a];
    AckCountMonotone(s.stored, s.added, a);
  }

  lemma {:induction false} CallsCount(acks: seq<Ack>, a: Ack)
    requires a != NoAck
    ensures multiset(Calls(acks))[a] == multiset(acks)[a]
  {
    if acks != [] {
      CallsCount(acks[1..], a);
      assert acks == [acks[0]] + acks[1..];
    }
  }

  lemma CallsOne(ran: seq<Ack>, a: Ack)
    ensures ran + Calls([a]) == if a == NoAck then ran else ran + [a]
  {
    assert Calls([a]) == if a == NoAck then [] else [a];
  }

  lemma {:induction false} AckCountMonotone(xs: seq<Item>, ys: seq<Item>, a: Ack)
    requires multiset(xs) <= multiset(ys)
    ensures multiset(AcksOf(xs))[a] <= multiset(AcksOf(ys))[a]
  {
    if xs != [] {
      var before, after := TakeOut(xs[0], xs[1..], xs, ys);
      AckCountMonotone(xs[1..], before + after, a);
      assert [] + [xs[0]] + xs[1..] == xs && [] + xs[1..] == xs[1..];
      AckCountMiddle([], xs[0], xs[1..], a);
      AckCountMiddle(before, xs[0], after, a);
    }
  }

  /** Taking the same element out of both sides of an inclusion. */
  lemma TakeOut(x: Item, rest: seq<Item>, xs: seq<Item>, ys: seq<Item>) returns (before: seq<Item>, after: seq<Item>)
    requires xs == [x] + rest && multiset(xs) <= multiset(ys)
    ensures ys == before + [x] + after && multiset(rest) <= multiset(before + after)
  {
    assert multiset(xs)[x] > 0;
    assert x in ys;
    var k :| 0 <= k < |ys| && ys[k] == x;
    before, after := ys[..k], ys[k + 1..];
    assert ys == before + [x] + after;
    CancelOne(multiset(rest), multiset(before + after), x);
  }

  lemma AckCountMiddle(before: seq<Item>, x: Item, after: seq<Item>, a: Ack)
    ensures multiset(AcksOf(before + [x] + after))[a] == multiset(AcksOf(before + after))[a] + if x.ack == a then 1 else 0
  {
    assert AcksOf(before + [x] + after) == AcksOf(before) + [x.ack] + AcksOf(after);
    assert AcksOf(before + after) == AcksOf(before) + AcksOf(after);
  }

  /** What a flight is inserting was added. */
  lemma HeldWasAdded(s: State, f: nat, k: nat)
    requires Inv(s) && IsInserting(s, f) && k < |s.flights[f].events|
    ensures |s.flights[f].events| == |s.flights[f].acks|
    ensures Item(s.flights[f].events[k], s.flights[f].acks[k]) in s.added
  {
    var flight := s.flights[f];
    var x := Pair(flight.events, flight.acks)[k];
    BagMember(s.flights, f, Held);
    assert x in multiset(Pair(flight.events, flight.acks));
    assert x in Held(flight);
    assert x in BagSum(s.flights, Held);
    assert x in multiset(s.added);
  }

  /** The ack a flight is about to call belongs to a stored event. */
  lemma WaitingWasStored(s: State, f: nat) returns (x: Item)
    requires Inv(s) && IsAcking(s, f) && s.flights[f].acks[s.flights[f].phase.next].AckOf?
    ensures x in s.stored && x.ack == s.flights[f].acks[s.flights[f].phase.next]
  {
    var flight := s.flights[f];
    var a := flight.acks[flight.phase.next];
    BagMember(s.flights, f, Waiting);
    OneLessWaiting(flight);
    assert Calls([a]) == [a];
    assert a in Waiting(flight);
    assert multiset(Calls(AcksOf(s.stored)))[a] > 0;
    CallsCount(AcksOf(s.stored), a);
    assert a in AcksOf(s.stored);
    var k :| 0 <= k < |s.stored| && AcksOf(s.stored)[k] == a;
    x := s.stored[k];
  }

  // ---------------------------------------------------------------- flushes that do not overlap

  ghost predicate OneAtATime(s: State) {
    forall i, j :: 0 <= i < j < |s.flights| ==> !s.flights[i].phase.Inserting? || !s.flights[j].phase.Inserting?
  }

  /** No flush takes its snapshot while another one is inserting. */
  ghost predicate Sequential(run: seq<State>) {
    Run(run) && forall n :: 0 <= n < |run| ==> OneAtATime(run[n])
  }

  function HeldItems(f: Flight): seq<Item> {
    if f.phase.Inserting? && |f.events| == |f.acks| then Pair(f.events, f.acks) else []
  }

  function InFlight(flights: seq<Flight>): seq<Item> {
    if flights == [] then [] else HeldItems(flights[0]) + InFlight(flights[1..])
  }

  /** Stored, then in flight, then buffered: the order of the `Add` calls. */
  ghost predicate InOrder(s: State) {
    Paired(s) && s.added == s.stored + InFlight(s.flights) + Pair(s.buffer, s.acks)
  }

  ghost predicate NoneHolds(flights: seq<Flight>, except: int) {
    forall j :: 0 <= j < |flights| && j != except ==> HeldItems(flights[j]) == []
  }

  lemma {:induction false} InFlightOnly(flights: seq<Flight>, i: nat)
    requires i < |flights| && NoneHolds(flights, i)
    ensures InFlight(flights) == HeldItems(flights[i])
  {
    if i == 0 {
      InFlightNone(flights[1..]);
    } else {
      InFlightOnly(flights[1..], i - 1);
    }
  }

  lemma {:induction false} InFlightNone(flights: seq<Flight>)
    requires NoneHolds(flights, -1)
    ensures InFlight(flights) == []
  {
    if flights != [] {
      InFlightNone(flights[1..]);
    }
  }

  lemma {:induction false} InFlightSame(flights: seq<Flight>, i: nat, f: Flight)
    requires i < |flights| && HeldItems(f) == HeldItems(flights[i])
    ensures InFlight(flights[i := f]) == InFlight(flights)
  {
    if i == 0 {
      assert flights[i := f][1..] == flights[1..];
    } else {
      assert flights[i := f][1..] == flights[1..][i - 1 := f];
      InFlightSame(flights[1..], i - 1, f);
    }
  }

  /** The end of the only insert empties what is in flight. */
  lemma InsertEnds(s: State, i: nat, f: Flight)
    requires OneAtATime(s) && IsInserting(s, i) && HeldItems(f) == []
    ensures InFlight(s.flights) == HeldItems(s.flights[i]) && InFlight(s.flights[i := f]) == []
  {
    InFlightOnly(s.flights, i);
    InFlightOnly(s.flights[i := f], i);
  }

  lemma AddKeepsOrder(s: State, x: Item)
    requires InOrder(s)
    ensures InOrder(AddStep(s, x))
  {
    PairAppend(s.buffer, s.acks, [x.event], [x.ack]);
    assert Pair([x.event], [x.ack]) == [x];
    Associate(s.stored + InFlight(s.flights), Pair(s.buffer, s.acks), [x]);
  }

  lemma InFlightStarts(flights: seq<Flight>, f: Flight)
    requires NoneHolds(flights, -1)
    ensures InFlight(flights) == [] && InFlight(flights + [f]) == HeldItems(f)
  {
    InFlightNone(flights);
    InFlightOnly(flights + [f], |flights|);
  }

  lemma NoOtherInserts(s: State, f: Flight)
    requires OneAtATime(s.(flights := s.flights + [f])) && f.phase.Inserting?
    ensures NoneHolds(s.flights, -1)
  {
    var s' := s.(flights := s.flights + [f]);
    var n := |s.flights|;
    assert s'.flights[n] == f;
    forall j | 0 <= j < n ensures HeldItems(s.flights[j]) == [] {
      assert s'.flights[j] == s.flights[j];
    }
  }

  lemma BeginKeepsOrder(s: State)
    requires InOrder(s) && OneAtATime(BeginStep(s)) && s.buffer != []
    ensures InOrder(BeginStep(s))
  {
    var f := Flight(s.buffer, s.acks, Inserting);
    NoOtherInserts(s, f);
    InFlightStarts(s.flights, f);
    MiddleMoves(s.stored, Pair(s.buffer, s.acks));
    assert Pair([], []) == [];
  }

  lemma MiddleMoves<T>(a: seq<T>, c: seq<T>)
    ensures a + [] + c == a + c + []
  {
  }

  lemma InsertOkKeepsOrder(s: State, i: nat)
    requires InOrder(s) && OneAtATime(s) && IsInserting(s, i)
    ensures InOrder(InsertOkStep(s, i))
  {
    InsertEnds(s, i, s.flights[i].(phase := Acking(0)));
    EmptyMiddle(InsertOkStep(s, i).stored, Pair(s.buffer, s.acks));
  }

  lemma PutBackKeepsOrder(s: State, i: nat)
    requires InOrder(s) && OneAtATime(s) && IsInserting(s, i)
    ensures InOrder(PutBackStep(s, i))
  {
    var f := s.flights[i];
    InsertEnds(s, i, f.(phase := Failed));
    PairAppend(f.events, f.acks, s.buffer, s.acks);
    EmptyMiddle(s.stored, Pair(f.events, f.acks) + Pair(s.buffer, s.acks));
    Associate(s.stored, Pair(f.events, f.acks), Pair(s.buffer, s.acks));
  }

  lemma EmptyMiddle<T>(a: seq<T>, c: seq<T>)
    ensures a + [] + c == a + c
  {
  }

  lemma AckKeepsOrder(s: State, i: nat)
    requires InOrder(s) && IsAcking(s, i)
    ensures InOrder(AckStep(s, i))
  {
    InFlightSame(s.flights, i, AckStep(s, i).flights[i]);
  }

  lemma NextKeepsOrder(s: State, a: Step)
    requires InOrder(s) && Enabled(s, a) && OneAtATime(s) && OneAtATime(Apply(s, a))
    ensures InOrder(Apply(s, a))
  {
    match a {
      case AddOne(x) => AddKeepsOrder(s, x);
      case Begin => if s.buffer != [] { BeginKeepsOrder(s); }
      case InsertOk(i) => InsertOkKeepsOrder(s, i);
      case PutBack(i) => PutBackKeepsOrder(s, i);
      case RunAck(i) => AckKeepsOrder(s, i);
    }
  }

  /** If flushes do not overlap, events are inserted in the order they were added, whatever inserts fail. */
  lemma {:induction false} SequentialInOrder(run: seq<State>)
    requires Sequential(run)
    ensures InOrder(run[|run| - 1])
    ensures run[|run| - 1].stored <= run[|run| - 1].added
    decreases |run|
  {
    var n := |run| - 1;
    if n == 0 {
      assert Pair([], []) == [];
    } else {
      SequentialInOrder(run[..n]);
      assert run[..n][n - 1] == run[n - 1];
      assert Next(run[n - 1], run[n - 1 + 1]);
      var a :| Enabled(run[n - 1], a) && run[n] == Apply(run[n - 1], a);
      NextKeepsOrder(run[n - 1], a);
    }
    Associate(run[n].stored, InFlight(run[n].flights), Pair(run[n].buffer, run[n].acks));
  }

  ghost predicate StoredWellFormed(s: State) {
    forall n :: 0 <= n < |s.stored| ==> s.stored[n].event.uuid.Some?
  }

  lemma {:induction false} RunStoresWellFormed(run: seq<State>)
    requires Run(run)
    ensures StoredWellFormed(run[|run| - 1])
    decreases |run|
  {
    var n := |run| - 1;
    if n > 0 {
      RunStoresWellFormed(run[..n]);
      assert run[..n][n - 1] == run[n - 1];
      assert Next(run[n - 1], run[n - 1 + 1]);
    }
  }

  /** One event whose id does not parse holds back everything added after it: without overlapping flushes
      nothing at or behind its position is ever stored. */
  lemma MalformedBlocks(run: seq<State>, k: nat)
    requires Sequential(run)
    requires k < |run[|run| - 1].added| && run[|run| - 1].added[k].event.uuid.None?
    ensures |run[|run| - 1].stored| <= k
  {
    SequentialInOrder(run);
    RunStoresWellFormed(run);
    var s := run[|run| - 1];
    forall n | 0 <= n < |s.stored| ensures s.added[n].event.uuid.Some? {
      assert s.stored[n] == s.added[n];
    }
  }

  // ---------------------------------------------------------------- a flush with nothing in between

  /** Flight `i`, just inserted, after the first `n` rounds of its ack loop. */
  function Acked(s: State, i: nat, n: nat): State
    requires i < |s.flights| && n <= |s.flights[i].acks|
  {
    s.(flights := s.flights[i := s.flights[i].(phase := Acking(n))], ran := s.ran + Calls(s.flights[i].acks[..n]))
  }

  lemma AckedNext(s: State, i: nat, n: nat)
    requires i < |s.flights| && n < |s.flights[i].acks|
    ensures IsAcking(Acked(s, i, n), i)
    ensures AckStep(Acked(s, i, n), i) == Acked(s, i, n + 1)
  {
    var acks := s.flights[i].acks;
    assert acks[..n + 1] == acks[..n] + [acks[n]];
    CallsAppend(acks[..n], [acks[n]]);
    Associate(s.ran, Calls(acks[..n]), Calls([acks[n]]));
  }

  lemma AckedNone(s: State, i: nat)
    requires i < |s.flights| && s.flights[i].phase == Acking(0)
    ensures Acked(s, i, 0) == s
  {
    assert s.flights[i].acks[..0] == [] && s.ran + [] == s.ran;
  }

  lemma {:induction false} AckedReaches(s: State, t: State, i: nat, n: nat)
    requires Reaches(s, t) && Paired(t)
    requires i < |t.flights| && t.flights[i].phase == Acking(0) && n <= |t.flights[i].acks|
    ensures Reaches(s, Acked(t, i, n))
  {
    if n == 0 {
      AckedNone(t, i);
    } else {
      AckedReaches(s, t, i, n - 1);
      AckedNext(t, i, n - 1);
      ReachesNext(s, Acked(t, i, n - 1), RunAck(i));
    }
  }

  /** The outcome of one `Flush` call that runs alone. */
  ghost function Flushed(s: State, ok: bool): State
    requires Paired(s)
  {
    var i, begun := |s.flights|, BeginStep(s);
    if s.buffer == [] then s
    else if ok then Acked(InsertOkStep(begun, i), i, |s.acks|)
    else PutBackStep(begun, i)
  }

  /** It is a path: snapshot, insert, then the put-back or the acks. */
  lemma FlushedReaches(s: State, ok: bool)
    requires Paired(s) && (ok ==> W.WellFormed(s.buffer))
    ensures Reaches(s, Flushed(s, ok))
  {
    ReachesSelf(s);
    if s.buffer != [] {
      var i, begun := |s.flights|, BeginStep(s);
      ReachesNext(s, s, Begin);
      if ok {
        ReachesNext(s, begun, InsertOk(i));
        AckedReaches(s, InsertOkStep(begun, i), i, |s.acks|);
      } else {
        ReachesNext(s, begun, PutBack(i));
      }
    }
  }

  /** What that means: a failed call leaves buffer, acks and byte counter as they were, a successful one
      stores the buffer in order, empties it and runs its acks in order. */
  lemma FlushedMeaning(s: State, ok: bool)
    requires Paired(s) && s.memBytes == SizeSum(s.buffer) && (!ok ==> s.buffer != [])
    ensures var t := Flushed(s, ok);
            && (!ok ==> t == s.(flights := s.flights + [Flight(s.buffer, s.acks, Failed)]))
            && (ok ==> t.buffer == [] && t.acks == [] && t.memBytes == 0 && t.added == s.added)
            && (ok ==> t.stored == s.stored + Pair(s.buffer, s.acks) && t.ran == s.ran + Calls(s.acks))
  {
    assert s.acks[..|s.acks|] == s.acks;
    assert s.buffer + [] == s.buffer && s.acks + [] == s.acks;
    assert Pair([], []) == [] && s.stored + [] == s.stored && s.ran + [] == s.ran;
  }

  // ---------------------------------------------------------------- the writer itself

  const DEFAULT_BATCH_SIZE := 10000
  const DEFAULT_FLUSH_INTERVAL_MS := 5000
  const MAX_MEM_BYTES := 50 * 1024 * 1024

  class BatchWriter {
    const batchSize: int
    const flushInterval: int
    var buffer: seq<Event>
    var ackFuncs: seq<Ack>
    var memBytes: int
    var firstAt: Option<int>

    // history, kept for the specification
    ghost var flights: seq<Flight>
    ghost var added: seq<Item>
    ghost var stored: seq<Item>
    ghost var ran: seq<Ack>

    ghost function Abs(): State
      reads this
    {
      State(buffer, ackFuncs, memBytes, flights, added, stored, ran)
    }

    ghost predicate Valid()
      reads this
    {
      Paired(Abs()) && memBytes == SizeSum(buffer)
    }

    constructor (size: int, interval: int)
      ensures Valid() && Abs() == START && firstAt == None
      ensures batchSize == if size <= 0 then 10000 else size
      ensures flushInterval == if interval <= 0 then 5000 else interval
    {
      batchSize := if size <= 0 then DEFAULT_BATCH_SIZE else size;
      flushInterval := if interval <= 0 then DEFAULT_FLUSH_INTERVAL_MS else interval;
      buffer, ackFuncs, memBytes, firstAt := [], [], 0, None;
      flights, added, stored, ran := [], [], [], [];
    }

    /** `now` and `later` are the two clock readings. The result says whether a flush is due: by count,
        by bytes, or by the age of `firstAt`. */
    method Add(e: Event, ack: Ack, now: int, later: int) returns (flush: bool)
      requires Valid()
      modifies this
      ensures Valid() && Abs() == AddStep(old(Abs()), Item(e, ack))
      ensures firstAt == if old(buffer) == [] then Some(now) else old(firstAt)
      ensures flush <==>
        |buffer| >= batchSize || SizeSum(buffer) >= 50 * 1024 * 1024 ||
        (firstAt.Some? && later - firstAt.value >= flushInterval)
    {
      if |buffer| == 0 {
        firstAt := Some(now);
      }
      SizeSumAppend(buffer, [e]);
      assert SizeSum([e]) == EventSize(e);
      buffer := buffer + [e];
      ackFuncs := ackFuncs + [ack];
      memBytes := memBytes + EventSize(e);
      added := added + [Item(e, ack)];
      flush := ShouldFlush(later);
    }

    method ShouldFlush(now: int) returns (due: bool)
      ensures due <==>
        |buffer| >= batchSize || memBytes >= 50 * 1024 * 1024 || (firstAt.Some? && now - firstAt.value >= flushInterval)
    {
      if |buffer| >= batchSize {
        return true;
      }
      if memBytes >= MAX_MEM_BYTES {
        return true;
      }
      if firstAt.Some? && now - firstAt.value >= flushInterval {
        return true;
      }
      return false;
    }

    /** The first critical section of `Flush`. */
    method TakeBatch() returns (events: seq<Event>, acks: seq<Ack>)
      requires Valid()
      modifies this`buffer, this`ackFuncs, this`memBytes, this`flights
      ensures Valid() && Abs() == BeginStep(old(Abs()))
      ensures events == old(buffer) && acks == old(ackFuncs)
    {
      events, acks := buffer, ackFuncs;
      if |buffer| == 0 {
        return;
      }
      buffer, ackFuncs, memBytes := [], [], 0;
      flights := flights + [Flight(events, acks, Inserting)];
    }

    /** The second critical section of `Flush`, after a failed insert of flight `i`; other flushes and
        `Add` calls may have run since the snapshot. */
    method PutBackBatch(events: seq<Event>, acks: seq<Ack>, ghost i: nat)
      requires Valid() && IsInserting(Abs(), i)
      requires flights[i].events == events && flights[i].acks == acks
      modifies this`buffer, this`ackFuncs, this`memBytes, this`flights
      ensures Valid() && Abs() == PutBackStep(old(Abs()), i)
    {
      buffer := events + buffer;
      ackFuncs := acks + ackFuncs;
      flights := flights[i := flights[i].(phase := Failed)];
      AddSizes(events);
      SizeSumAppend(events, old(buffer));
    }

    /** The loop of the put-back. */
    method AddSizes(events: seq<Event>)
      modifies this`memBytes
      ensures memBytes == old(memBytes) + SizeSum(events)
    {
      for n := 0 to |events|
        invariant memBytes == old(memBytes) + SizeSum(events[..n])
      {
        assert events[..n + 1] == events[..n] + [events[n]];
        SizeSumAppend(events[..n], [events[n]]);
        memBytes := memBytes + EventSize(events[n]);
      }
      assert events[..|events|] == events;
    }

    /** `InsertEvents` returned nil for flight `i`. */
    ghost method NoteStored(i: nat)
      requires Valid() && IsInserting(Abs(), i)
      modifies this`flights, this`stored
      ensures Valid() && Abs() == InsertOkStep(old(Abs()), i)
    {
      stored := stored + Pair(flights[i].events, flights[i].acks);
      flights := flights[i := flights[i].(phase := Acking(0))];
    }

    method CallAck(ack: Ack, ghost i: nat)
      requires Valid() && IsAcking(Abs(), i) && flights[i].acks[flights[i].phase.next] == ack
      modifies this`flights, this`ran
      ensures Valid() && Abs() == AckStep(old(Abs()), i)
    {
      CallsOne(ran, ack);
      if ack != NoAck {
        ran := ran + [ack];
      }
      flights := flights[i := flights[i].(phase := Acking(flights[i].phase.next + 1))];
    }

    /** The ack loop after a successful insert of flight `i`. */
    method RunAcks(acks: seq<Ack>, ghost i: nat)
      requires Valid() && i < |flights| && flights[i].acks == acks && flights[i].phase == Acking(0)
      modifies this`flights, this`ran
      ensures Valid() && Abs() == Acked(old(Abs()), i, |acks|)
      ensures ran == old(ran) + Calls(acks)
    {
      AckedNone(Abs(), i);
      for n := 0 to |acks|
        invariant Valid() && Abs() == Acked(old(Abs()), i, n)
      {
        AckedNext(old(Abs()), i, n);
        CallAck(acks[n], i);
      }
      assert acks[..|acks|] == acks;
    }

    /** A whole `Flush` call with nothing in between: a path of the step system. `sent` is the store's answer
        to the batch, asked only when every id parses. A failed call leaves the writer as it was; a
        successful one stores the buffer in order, empties it and runs its acks in order. */
    method Flush(now: int, sent: bool) returns (ok: bool)
      requires Valid()
      modifies this`buffer, this`ackFuncs, this`memBytes, this`flights, this`stored, this`ran
      ensures Valid() && Abs() == Flushed(old(Abs()), ok)
      ensures Reaches(old(Abs()), Abs()) && (Inv(old(Abs())) ==> Inv(Abs()))
      ensures ok <==> old(buffer) == [] || (sent && W.WellFormed(old(buffer)))
      ensures !ok ==> buffer == old(buffer) && ackFuncs == old(ackFuncs) && memBytes == old(memBytes)
      ensures !ok ==> stored == old(stored) && ran == old(ran)
      ensures ok ==> buffer == [] && ackFuncs == [] && memBytes == 0
      ensures ok ==> stored == old(stored) + Pair(old(buffer), old(ackFuncs)) && ran == old(ran) + Calls(old(ackFuncs))
    {
      ok := FlushAlone(now, sent);
      FlushedReaches(old(Abs()), ok);
      FlushedMeaning(old(Abs()), ok);
      if Inv(old(Abs())) {
        ReachesKeepsInv(old(Abs()), Abs());
      }
    }

    /** The body of `Flush`. */
    method FlushAlone(now: int, sent: bool) returns (ok: bool)
      requires Valid()
      modifies this`buffer, this`ackFuncs, this`memBytes, this`flights, this`stored, this`ran
      ensures Valid() && Abs() == Flushed(old(Abs()), ok)
      ensures ok <==> old(buffer) == [] || (sent && W.WellFormed(old(buffer)))
    {
      ghost var i := |flights|;
      var events, acks := TakeBatch();
      if |events| == 0 {
        return true;
      }
      var batch := W.BuildBatch(events, now);
      assert Abs().flights[i] == Flight(events, acks, Inserting);
      if batch.None? || !sent {
        PutBackBatch(events, acks, i);
        return false;
      }
      NoteStored(i);
      RunAcks(acks, i);
      ok := true;
    }
  }
}
