/** process_batches and publish_event of src/core/runtime.cpp as methods, run against a queue that other threads
    fill and in the end close. Every assignment is a step of module DataPlane, whose invariant so carries over. */
module Processing {
  import opened RawQueue
  import opened DataPlane

  class ProcessingWorker {
    const publishers: nat
    const rawQueue: BoundedQueue<Batch>
    var counters: Counters
    ghost var worker: Worker
    ghost var deliveries: seq<Delivery>
    ghost var offers: seq<Offer>
    ghost var verdicts: seq<Verdict>

    ghost function View(): State reads this, rawQueue {
      State(publishers, rawQueue.View(), worker, counters, rawQueue.pushed, deliveries, offers, verdicts)
    }

    ghost predicate Valid() reads this, rawQueue {
      rawQueue.Valid() && Inv(View())
    }

    constructor (publishers: nat, rawQueue: BoundedQueue<Batch>)
      requires rawQueue.Valid() && rawQueue.popped == []
      ensures Valid() && worker == Waiting && counters == Counters(0, 0, 0, 0, 0, 0)
      ensures this.publishers == publishers && this.rawQueue == rawQueue && deliveries == []
    {
      this.publishers, this.rawQueue := publishers, rawQueue;
      counters, worker := Counters(0, 0, 0, 0, 0, 0), Waiting;
      deliveries, offers, verdicts := [], [], [];
      new;
      assert Batches([]) + (Hand(Waiting) + rawQueue.queue) == rawQueue.queue;
    }

    /** Offers an event to one publisher, counting the attempt and the answer. */
    method OfferOne(event: Event, i: nat, verdict: Verdict)
      requires Valid() && worker == Publishing(event, i) && i < publishers
      modifies this
      ensures Valid() && worker == Publishing(event, i + 1)
      ensures offers == old(offers) + [Offer(i, event)] && verdicts == old(verdicts) + [verdict]
      ensures deliveries == old(deliveries) && counters.delivered == old(counters.delivered)
    {
      ghost var before := View();
      counters := counters.(attempts := counters.attempts + 1);
      worker, offers := Offering(event, i), offers + [Offer(i, event)];
      InvStep(before, Attempt, View());
      before := View();
      counters := Count(counters, verdict);
      worker, verdicts := Publishing(event, i + 1), verdicts + [verdict];
      InvStep(before, Answer(verdict), View());
    }

    /** Offers an event to every publisher in order. */
    method PublishEvent(event: Event, answers: seq<Verdict>)
      requires Valid() && worker == Publishing(event, 0) && |answers| == publishers
      modifies this
      ensures Valid() && worker == Publishing(event, publishers)
      ensures offers == old(offers) + Row(event, publishers) && verdicts == old(verdicts) + answers
      ensures deliveries == old(deliveries) && counters.delivered == old(counters.delivered)
    {
      for i := 0 to publishers
        invariant Valid() && worker == Publishing(event, i)
        invariant offers == old(offers) + Row(event, i) && verdicts == old(verdicts) + answers[..i]
        invariant deliveries == old(deliveries) && counters.delivered == old(counters.delivered)
      {
        OfferOne(event, i, answers[i]);
        assert Row(event, i + 1) == Row(event, i) + [Offer(i, event)];
        assert answers[..i + 1] == answers[..i] + [answers[i]];
      }
      assert answers[..publishers] == answers;
    }

    /** One batch from the queue to the publishers. */
    method HandleBatch(batch: Batch, event: Event, answers: seq<Verdict>)
      requires Valid() && worker == Handling(batch) && |answers| == publishers
      modifies this
      ensures Valid() && worker == Waiting && deliveries == old(deliveries) + [Delivery(batch, event)]
    {
      ghost var before := View();
      counters := counters.(delivered := counters.delivered + 1);
      worker, deliveries := Publishing(event, 0), deliveries + [Delivery(batch, event)];
      InvStep(before, Process(event), View());
      PublishEvent(event, answers);
      before := View();
      worker := Waiting;
      InvStep(before, Finish, View());
    }

    /** Other threads push batches; the queue may refuse some of them. */
    method Arrive(batches: seq<Batch>)
      requires Valid() && worker == Waiting
      modifies rawQueue
      ensures Valid() && worker == Waiting && old(rawQueue.pushed) <= rawQueue.pushed
    {
      for i := 0 to |batches|
        invariant Valid() && worker == Waiting && old(rawQueue.pushed) <= rawQueue.pushed
      {
        ghost var before := View();
        var _ := rawQueue.TryPush(batches[i]);
        InvStep(before, Store(batches[i]), View());
      }
    }

    /** wait_pop: the next batch, or the end; the precondition is what it waits for. */
    method TakeBatch() returns (ok: bool, batch: Batch)
      requires Valid() && worker == Waiting && (rawQueue.closed || rawQueue.queue != [])
      modifies this, rawQueue
      ensures Valid() && deliveries == old(deliveries)
      ensures rawQueue.closed == old(rawQueue.closed) && rawQueue.pushed == old(rawQueue.pushed)
      ensures ok <==> old(rawQueue.queue) != []
      ensures ok ==> worker == Handling(batch) && old(rawQueue.queue) == [batch] + rawQueue.queue
      ensures !ok ==> worker == Exited && rawQueue.queue == []
    {
      ghost var before := View();
      var popped;
      ok, popped := rawQueue.WaitPop();
      if ok {
        batch := popped[0];
        worker := Handling(batch);
        InvStep(before, Take, View());
      } else {
        batch := "";
        worker := Exited;
        InvStep(before, Exit, View());
      }
    }

    /** One turn of the loop: a batch becomes the event that normalizing and processing make of it. */
    method Turn(process: Batch -> Event, answer: (Event, nat) -> Verdict) returns (ok: bool)
      requires Valid() && worker == Waiting && (rawQueue.closed || rawQueue.queue != [])
      modifies this, rawQueue
      ensures Valid() && rawQueue.closed == old(rawQueue.closed) && rawQueue.pushed == old(rawQueue.pushed)
      ensures ok <==> old(rawQueue.queue) != []
      ensures ok ==> worker == Waiting && |rawQueue.queue| < |old(rawQueue.queue)|
      ensures ok ==> deliveries == old(deliveries) + [Processed(old(rawQueue.queue)[0], process)]
      ensures !ok ==> worker == Exited && rawQueue.queue == [] && deliveries == old(deliveries)
    {
      var batch;
      ok, batch := TakeBatch();
      if ok {
        var event := process(batch);
        HandleBatch(batch, event, seq(publishers, i requires 0 <= i < publishers => answer(event, i)));
      }
    }

    /** The worker's whole life: other threads push between its turns, sooner or later the queue is closed, and the
        loop ends. By then nothing is lost, and every batch became the event that processing makes of it. */
    method ProcessBatches(arrivals: seq<seq<Batch>>, process: Batch -> Event, answer: (Event, nat) -> Verdict)
      requires Valid() && worker == Waiting
      modifies this, rawQueue
      ensures Valid() && worker == Exited && rawQueue.queue == [] && NothingLost(View())
      ensures old(rawQueue.pushed) <= rawQueue.pushed
      ensures old(deliveries) <= deliveries && MadeBy(deliveries, |old(deliveries)|, process)
    {
      for i := 0 to |arrivals|
        invariant Valid() && worker == Waiting && old(rawQueue.pushed) <= rawQueue.pushed
        invariant old(deliveries) <= deliveries && MadeBy(deliveries, |old(deliveries)|, process)
      {
        Arrive(arrivals[i]);
        if rawQueue.queue != [] {
          var _ := Turn(process, answer);
        }
      }
      ghost var before := View();
      rawQueue.CloseQueue();
      InvStep(before, Shut, View());
      var ok := true;
      while ok
        invariant Valid() && rawQueue.closed && old(rawQueue.pushed) <= rawQueue.pushed
        invariant worker == if ok then Waiting else Exited
        invariant !ok ==> rawQueue.queue == []
        invariant old(deliveries) <= deliveries && MadeBy(deliveries, |old(deliveries)|, process)
        decreases ok, |rawQueue.queue|
      {
        ok := Turn(process, answer);
      }
      DrainedLosesNothing(View());
    }
  }

  function Processed(batch: Batch, process: Batch -> Event): Delivery {
    Delivery(batch, process(batch))
  }

  /** Every delivery from the n-th on is what processing makes of its batch. */
  ghost predicate MadeBy(deliveries: seq<Delivery>, n: nat, process: Batch -> Event) {
    forall k | n <= k < |deliveries| :: deliveries[k].event == process(deliveries[k].batch)
  }
}
