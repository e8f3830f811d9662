/** One worker process: `handleMessage` (server/internal/worker/worker.go) under the consumer's fetch loop
    (server/internal/nats/consumer.go). A fetch takes the pipeline's deliver steps. */
module Workers {
  import opened Sequences
  import opened Domain
  import B = BatchWriting
  import D = Delivery
  import P = Prices
  import S = S3Status

  /** A fetched message: its number in the stream and its payload, None when the data does not decode. */
  datatype Fetched = Fetched(id: nat, payload: Option<Event>, now: int, later: int)

  function ItemOf(m: Fetched, prices: map<P.PriceKey, seq<P.Price>>): seq<B.Item> {
    if m.payload.Some? then [B.Item(D.Enrich(m.payload.value, prices), B.AckOf(m.id))] else []
  }

  /** The batch items a fetch gives rise to, in order. */
  function Items(fetched: seq<Fetched>, prices: map<P.PriceKey, seq<P.Price>>): seq<B.Item> {
    if fetched == [] then [] else ItemOf(fetched[0], prices) + Items(fetched[1..], prices)
  }

  function NakOf(m: Fetched): seq<nat> {
    if m.payload.None? then [m.id] else []
  }

  /** The messages a fetch sends back. */
  function Undecodable(fetched: seq<Fetched>): seq<nat> {
    if fetched == [] then [] else NakOf(fetched[0]) + Undecodable(fetched[1..])
  }

  function AddAll(s: B.State, items: seq<B.Item>): B.State
    decreases |items|
  {
    if items == [] then s else AddAll(B.AddStep(s, items[0]), items[1..])
  }

  lemma {:induction false} AddAllSnoc(s: B.State, items: seq<B.Item>, x: B.Item)
    ensures AddAll(s, items + [x]) == B.AddStep(AddAll(s, items), x)
    decreases |items|
  {
    if items == [] {
      assert [x][1..] == [];
    } else {
      assert (items + [x])[1..] == items[1..] + [x];
      AddAllSnoc(B.AddStep(s, items[0]), items[1..], x);
    }
  }

  lemma {:induction false} ItemsSnoc(fetched: seq<Fetched>, m: Fetched, prices: map<P.PriceKey, seq<P.Price>>)
    ensures Items(fetched + [m], prices) == Items(fetched, prices) + ItemOf(m, prices)
  {
    if fetched == [] {
      assert [] + [m] == [m] && [m][1..] == [];
    } else {
      assert (fetched + [m])[1..] == fetched[1..] + [m];
      ItemsSnoc(fetched[1..], m, prices);
      Associate(ItemOf(fetched[0], prices), Items(fetched[1..], prices), ItemOf(m, prices));
    }
  }

  lemma {:induction false} UndecodableSnoc(fetched: seq<Fetched>, m: Fetched)
    ensures Undecodable(fetched + [m]) == Undecodable(fetched) + NakOf(m)
  {
    if fetched == [] {
      assert [] + [m] == [m] && [m][1..] == [];
    } else {
      assert (fetched + [m])[1..] == fetched[1..] + [m];
      UndecodableSnoc(fetched[1..], m);
      Associate(NakOf(fetched[0]), Undecodable(fetched[1..]), NakOf(m));
    }
  }

  /** What was fetched is what the stream holds. */
  ghost predicate FromStream(s: D.State, fetched: seq<Fetched>) {
    forall n :: 0 <= n < |fetched| && fetched[n].payload.Some? ==>
      fetched[n].id in s.pending && fetched[n].id < |s.messages| && s.messages[fetched[n].id].payload == fetched[n].payload
  }

  /** Adding the items of a fetch to worker `w` is a path of deliver steps. */
  lemma {:induction false} ConsumeDelivers(s: D.State, w: nat, fetched: seq<Fetched>, prices: map<P.PriceKey, seq<P.Price>>)
    requires w < |s.workers| && FromStream(s, fetched)
    ensures D.Reaches(s, D.WithWorker(s, w, AddAll(s.workers[w], Items(fetched, prices))))
    decreases |fetched|
  {
    if fetched == [] {
      assert s.workers[w := s.workers[w]] == s.workers;
      D.ReachesSelf(s);
    } else {
      var n := |fetched| - 1;
      var init, m := fetched[..n], fetched[n];
      assert fetched == init + [m];
      ConsumeDelivers(s, w, init, prices);
      ItemsSnoc(init, m, prices);
      if m.payload.Some? {
        AddAllSnoc(s.workers[w], Items(init, prices), ItemOf(m, prices)[0]);
        DeliverOne(s, w, AddAll(s.workers[w], Items(init, prices)), m, prices);
      } else {
        assert Items(init, prices) + [] == Items(init, prices);
      }
    }
  }

  lemma DeliverOne(s: D.State, w: nat, b: B.State, m: Fetched, prices: map<P.PriceKey, seq<P.Price>>)
    requires w < |s.workers| && D.Reaches(s, D.WithWorker(s, w, b))
    requires m.payload.Some? && m.id in s.pending && m.id < |s.messages| && s.messages[m.id].payload == m.payload
    ensures D.Reaches(s, D.WithWorker(s, w, B.AddStep(b, ItemOf(m, prices)[0])))
  {
    var t := D.WithWorker(s, w, b);
    var u := D.WithWorker(s, w, B.AddStep(b, ItemOf(m, prices)[0]));
    assert u == D.WithWorker(t, w, B.AddStep(t.workers[w], ItemOf(m, prices)[0]));
    assert D.Takes(t, u, D.Deliver(w, m.id, prices));
    D.ReachesNext(s, t, u);
  }

  class Worker {
    const batchWriter: B.BatchWriter
    const priceCache: P.PriceCache
    const s3Uploader: S.S3Uploader

    ghost predicate Valid()
      reads this, batchWriter, s3Uploader
    {
      batchWriter.Valid() && s3Uploader.Valid()
    }

    ghost function Stands(): Standing
      reads this, batchWriter
    {
      Standing(batchWriter.Abs(), batchWriter.firstAt)
    }

    constructor (batchWriter: B.BatchWriter, priceCache: P.PriceCache, s3Uploader: S.S3Uploader)
      ensures this.batchWriter == batchWriter && this.priceCache == priceCache && this.s3Uploader == s3Uploader
    {
      this.batchWriter := batchWriter;
      this.priceCache := priceCache;
      this.s3Uploader := s3Uploader;
    }

    /** The fields `handleMessage` sets: price and tags, the wrapped token total, and the S3 columns that
        depend on whether there is text. */
    method EnrichEvent(pb: Event) returns (event: Event)
      ensures event == D.Enrich(pb, priceCache.prices)
      ensures event == pb.(cost := event.cost, tags := event.tags, totalTokens := event.totalTokens,
                           s3Status := event.s3Status, s3Key := event.s3Key)
      ensures (event.cost, event.tags) == P.Priced(priceCache.prices, pb)
      ensures event.totalTokens == (pb.promptTokens + pb.completionTokens) % 0x1_0000_0000
      ensures pb.prompt != "" || pb.response != "" ==> event.s3Status == Pending && event.s3Key == S3ObjectKey(event)
      ensures pb.prompt == "" && pb.response == "" ==> event.s3Status == NoText && event.s3Key == pb.s3Key
    {
      event := pb;
      var cost, tags := priceCache.CalculateCost(event);
      event := event.(cost := cost, tags := tags);
      event := event.(totalTokens := (event.promptTokens + event.completionTokens) % TWO_32);
      assert event == D.Counted(pb, priceCache.prices);
      ghost var counted := event;
      if HasText(event) {
        event := event.(s3Status := Pending, s3Key := S3ObjectKey(event));
        SameKey(counted, event);
      } else {
        event := event.(s3Status := NoText);
      }
    }

    /** Enriches the event and adds it with its ack, which is not called here; an event with text is also
        offered to the uploader. A flush is started exactly when the batch is full by count or bytes, or its
        clock has run for the flush interval. */
    method HandleMessage(pb: Event, id: nat, now: int, later: int) returns (flush: bool)
      requires Valid()
      modifies batchWriter, s3Uploader`uploadCh
      ensures Valid()
      ensures batchWriter.Abs() == B.AddStep(old(batchWriter.Abs()), B.Item(D.Enrich(pb, priceCache.prices), B.AckOf(id)))
      ensures batchWriter.firstAt == if old(batchWriter.buffer) == [] then Some(now) else old(batchWriter.firstAt)
      ensures flush <==>
        || |batchWriter.buffer| >= batchWriter.batchSize
        || B.SizeSum(batchWriter.buffer) >= 50 * 1024 * 1024
        || (batchWriter.firstAt.Some? && later - batchWriter.firstAt.value >= batchWriter.flushInterval)
      ensures s3Uploader.uploadCh ==
              if pb.prompt != "" || pb.response != "" then S.Put(old(s3Uploader.uploadCh), D.Enrich(pb, priceCache.prices))
              else old(s3Uploader.uploadCh)
    {
      var event := EnrichEvent(pb);
      flush := batchWriter.Add(event, B.AckOf(id), now, later);
      if HasText(event) {
        s3Uploader.Enqueue(event);
      }
    }

    /** The first `n` messages of a fetch that found the writer as `b` are handled. */
    ghost predicate Progress(b: Standing, fetched: seq<Fetched>, n: nat, naks: seq<nat>, due: seq<bool>)
      requires n <= |fetched|
      reads this, batchWriter, priceCache
    {
      && Stands() == After(b, fetched, n, priceCache.prices)
      && naks == Undecodable(fetched[..n])
      && due == Dues(b, fetched, n, priceCache.prices, batchWriter.batchSize, batchWriter.flushInterval)
    }

    /** Message `n`: NAKed when it does not decode, else handled. */
    method HandleFetched(fetched: seq<Fetched>, n: nat, ghost b: Standing, naks: seq<nat>, due: seq<bool>)
      returns (naks': seq<nat>, due': seq<bool>)
      requires Valid() && n < |fetched| && Progress(b, fetched, n, naks, due)
      modifies batchWriter, s3Uploader`uploadCh
      ensures Valid() && Progress(b, fetched, n + 1, naks', due')
    {
      var m := fetched[n];
      UndecodableStep(fetched, n);
      if m.payload.None? {
        return naks + [m.id], due + [false];
      }
      var flush := HandleMessage(m.payload.value, m.id, m.now, m.later);
      naks', due' := naks, due + [flush];
    }

    /** One round of the fetch loop: messages that do not decode are NAKed, all others are added in order;
        none is acked. `due` lists for each message whether a flush is started after it. */
    method Consume(fetched: seq<Fetched>) returns (naks: seq<nat>, due: seq<bool>)
      requires Valid()
      modifies batchWriter, s3Uploader`uploadCh
      ensures Valid()
      ensures |naks| == Undecoded(fetched)
      ensures forall n :: 0 <= n < |fetched| && fetched[n].payload.None? ==>
                Undecoded(fetched[..n]) < |naks| && naks[Undecoded(fetched[..n])] == fetched[n].id
      ensures batchWriter.Abs() == AddAll(old(batchWriter.Abs()), Items(fetched, priceCache.prices))
      ensures batchWriter.ran == old(batchWriter.ran)
      ensures |due| == |fetched|
      ensures forall n :: 0 <= n < |fetched| ==>
                due[n] == DueAfter(old(Stands()), fetched, n, priceCache.prices, batchWriter.batchSize, batchWriter.flushInterval)
    {
      ghost var b := Stands();
      naks, due := ConsumeAll(fetched);
      NaksInOrder(fetched);
      assert fetched[..|fetched|] == fetched;
      AfterIsAddAll(b, fetched, |fetched|, priceCache.prices);
      AddAllKeepsRan(b.state, Items(fetched, priceCache.prices));
      DuesAt(b, fetched, |fetched|, priceCache.prices, batchWriter.batchSize, batchWriter.flushInterval);
    }

    /** The loop of `Consume`. */
    method ConsumeAll(fetched: seq<Fetched>) returns (naks: seq<nat>, due: seq<bool>)
      requires Valid()
      modifies batchWriter, s3Uploader`uploadCh
      ensures Valid() && Progress(old(Stands()), fetched, |fetched|, naks, due)
    {
      naks, due := [], [];
      ghost var b := Stands();
      for n := 0 to |fetched|
        invariant Valid() && Progress(b, fetched, n, naks, due)
      {
        naks, due := HandleFetched(fetched, n, b, naks, due);
      }
    }
  }

  /** The writer with its age clock. */
  datatype Standing = Standing(state: B.State, clock: Option<int>)

  /** Where a writer that stood at `b` stands after the first `n` messages: an event that finds the buffer
      empty starts the clock. */
  function After(b: Standing, fetched: seq<Fetched>, n: nat, prices: map<P.PriceKey, seq<P.Price>>): Standing
    requires n <= |fetched|
  {
    if n == 0 then b
    else
      var m, was := fetched[n - 1], After(b, fetched, n - 1, prices);
      if m.payload.None? then was
      else Standing(B.AddStep(was.state, B.Item(D.Enrich(m.payload.value, prices), B.AckOf(m.id))),
                    if was.state.buffer == [] then Some(m.now) else was.clock)
  }

  lemma {:induction false} AfterIsAddAll(b: Standing, fetched: seq<Fetched>, n: nat, prices: map<P.PriceKey, seq<P.Price>>)
    requires n <= |fetched|
    ensures After(b, fetched, n, prices).state == AddAll(b.state, Items(fetched[..n], prices))
  {
    if n > 0 {
      AfterIsAddAll(b, fetched, n - 1, prices);
      AddAllStep(b.state, fetched, n - 1, prices);
    }
  }

  lemma AddAllStep(b: B.State, fetched: seq<Fetched>, n: nat, prices: map<P.PriceKey, seq<P.Price>>)
    requires n < |fetched|
    ensures AddAll(b, Items(fetched[..n + 1], prices)) ==
            if fetched[n].payload.None? then AddAll(b, Items(fetched[..n], prices))
            else B.AddStep(AddAll(b, Items(fetched[..n], prices)),
                           B.Item(D.Enrich(fetched[n].payload.value, prices), B.AckOf(fetched[n].id)))
  {
    ItemsStep(fetched, n, prices);
    AddAllItem(b, Items(fetched[..n], prices), fetched[n], prices);
  }

  lemma ItemsStep(fetched: seq<Fetched>, n: nat, prices: map<P.PriceKey, seq<P.Price>>)
    requires n < |fetched|
    ensures Items(fetched[..n + 1], prices) == Items(fetched[..n], prices) + ItemOf(fetched[n], prices)
  {
    assert fetched[..n + 1] == fetched[..n] + [fetched[n]];
    ItemsSnoc(fetched[..n], fetched[n], prices);
  }

  lemma AddAllItem(b: B.State, items: seq<B.Item>, m: Fetched, prices: map<P.PriceKey, seq<P.Price>>)
    ensures AddAll(b, items + ItemOf(m, prices)) ==
            if m.payload.None? then AddAll(b, items)
            else B.AddStep(AddAll(b, items), B.Item(D.Enrich(m.payload.value, prices), B.AckOf(m.id)))
  {
    if m.payload.Some? {
      AddAllSnoc(b, items, ItemOf(m, prices)[0]);
    } else {
      assert items + [] == items;
    }
  }

  /** For each of the first `n` messages, whether a flush is due after it. */
  function Dues(b: Standing, fetched: seq<Fetched>, n: nat, prices: map<P.PriceKey, seq<P.Price>>, batchSize: int, interval: int): seq<bool>
    requires n <= |fetched|
  {
    if n == 0 then []
    else Dues(b, fetched, n - 1, prices, batchSize, interval) + [DueAfter(b, fetched, n - 1, prices, batchSize, interval)]
  }

  lemma {:induction false} DuesAt(b: Standing, fetched: seq<Fetched>, n: nat, prices: map<P.PriceKey, seq<P.Price>>,
                                  batchSize: int, interval: int)
    requires n <= |fetched|
    ensures |Dues(b, fetched, n, prices, batchSize, interval)| == n
    ensures forall k :: 0 <= k < n ==>
              Dues(b, fetched, n, prices, batchSize, interval)[k] == DueAfter(b, fetched, k, prices, batchSize, interval)
  {
    if n > 0 {
      DuesAt(b, fetched, n - 1, prices, batchSize, interval);
    }
  }

  /** Adding calls no ack. */
  lemma {:induction false} AddAllKeepsRan(b: B.State, items: seq<B.Item>)
    ensures AddAll(b, items).ran == b.ran
    decreases |items|
  {
    if items != [] {
      AddAllKeepsRan(B.AddStep(b, items[0]), items[1..]);
    }
  }

  /** The triggers of a flush, for a writer with this content and clock. */
  predicate FlushDue(b: B.State, first: Option<int>, batchSize: int, interval: int, now: int) {
    |b.buffer| >= batchSize || B.SizeSum(b.buffer) >= 50 * 1024 * 1024 || (first.Some? && now - first.value >= interval)
  }

  /** A flush is due after message `n`: it was added, and the content and clock it leaves call for one. */
  predicate DueAfter(b: Standing, fetched: seq<Fetched>, n: nat, prices: map<P.PriceKey, seq<P.Price>>, batchSize: int, interval: int)
    requires n < |fetched|
  {
    var after := After(b, fetched, n + 1, prices);
    fetched[n].payload.Some? && FlushDue(after.state, after.clock, batchSize, interval, fetched[n].later)
  }

  lemma UndecodableStep(fetched: seq<Fetched>, n: nat)
    requires n < |fetched|
    ensures Undecodable(fetched[..n + 1]) == Undecodable(fetched[..n]) + (if fetched[n].payload.None? then [fetched[n].id] else [])
  {
    assert fetched[..n + 1] == fetched[..n] + [fetched[n]];
    UndecodableSnoc(fetched[..n], fetched[n]);
  }

  /** How many messages do not decode. */
  function Undecoded(fetched: seq<Fetched>): nat {
    if fetched == [] then 0 else Undecoded(fetched[..|fetched| - 1]) + (if fetched[|fetched| - 1].payload.None? then 1 else 0)
  }

  /** The NAKed ids are those of the messages that do not decode, in fetch order. */
  lemma {:induction false} NaksInOrder(fetched: seq<Fetched>)
    ensures |Undecodable(fetched)| == Undecoded(fetched)
    ensures forall n :: 0 <= n < |fetched| && fetched[n].payload.None? ==>
              Undecoded(fetched[..n]) < Undecoded(fetched) && Undecodable(fetched)[Undecoded(fetched[..n])] == fetched[n].id
  {
    if fetched != [] {
      var k := |fetched| - 1;
      NaksInOrder(fetched[..k]);
      UndecodableSnoc(fetched[..k], fetched[k]);
      assert fetched == fetched[..k] + [fetched[k]];
      forall n | 0 <= n < |fetched| && fetched[n].payload.None?
        ensures Undecoded(fetched[..n]) < Undecoded(fetched) && Undecodable(fetched)[Undecoded(fetched[..n])] == fetched[n].id
      {
        if n < k {
          assert fetched[..k][..n] == fetched[..n] && fetched[..k][n] == fetched[n];
        }
      }
    }
  }

  /** The object key depends on organisation, timestamp and event id alone. */
  lemma SameKey(e: Event, f: Event)
    requires e.org == f.org && e.ms == f.ms && e.zoneMs == f.zoneMs && e.eventId == f.eventId
    ensures S3ObjectKey(e) == S3ObjectKey(f)
  {
    S3KeyInjective(e, f);
  }
}
