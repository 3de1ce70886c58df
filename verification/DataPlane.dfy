/** From the raw-batch queue to the publishers: BoundedQueue of include/gateway/bounded_queue.hpp feeding
    process_batches and publish_event of src/core/runtime.cpp, one critical section, counter update or
    foreign call to a step. Normalizing and processing a batch yields some event; which one is up to the
    processors, and a processor that throws is skipped. */
module DataPlane {
  import opened Fifo

  type Batch = string
  type Event = string

  datatype Worker =
    | NotStarted
    | Waiting
    | Handling(batch: Batch)                // normalizing and processing
    | Publishing(event: Event, next: nat)   // about to offer the event to publisher `next`
    | Offering(event: Event, next: nat)     // inside that publisher's publish()
    | Exited

  /** How publish() ended. */
  datatype Verdict = Accepted | Unavailable | Rejected | Raised

  datatype Delivery = Delivery(batch: Batch, event: Event)
  datatype Offer = Offer(publisher: nat, event: Event)

  /** delivered_events_ and EventPublisherStats. */
  datatype Counters = Counters(delivered: nat, attempts: nat, accepted: nat, unavailable: nat, rejected: nat,
                               errors: nat)

  datatype State = State(
    publishers: nat, raw: Queue<Batch>, worker: Worker, counters: Counters,
    pushed: seq<Batch>, deliveries: seq<Delivery>, offers: seq<Offer>, verdicts: seq<Verdict>)

  ghost predicate Init(s: State) {
    && 0 < s.raw.capacity && s.raw == Queue(s.raw.capacity, [], false, 0, 0)
    && s == State(s.publishers, s.raw, NotStarted, Counters(0, 0, 0, 0, 0, 0), [], [], [], [])
  }

  datatype Action =
    | Begin
    | Store(batch: Batch)       // a driver or a poll calls try_push
    | Shut                      // raw_queue_.close()
    | Take | Exit               // wait_pop
    | Process(event: Event)     // normalize, process, count the event as delivered
    | Attempt                   // count the attempt, call publish()
    | Answer(verdict: Verdict)  // publish() returned or threw
    | Finish                    // every publisher has had the event

  function Count(c: Counters, v: Verdict): Counters {
    match v
    case Accepted => c.(accepted := c.accepted + 1)
    case Unavailable => c.(unavailable := c.unavailable + 1)
    case Rejected => c.(rejected := c.rejected + 1)
    case Raised => c.(errors := c.errors + 1)
  }

  /** try_push would answer that the queue is full. */
  ghost predicate Refuses(s: State) {
    Push(s.raw, "").1 == Full
  }

  ghost predicate Step(s: State, a: Action, s': State) {
    match a
    case Begin => s.worker == NotStarted && s' == s.(worker := Waiting)
    case Store(batch) =>
      var (raw, answer) := Push(s.raw, batch);
      s' == s.(raw := raw, pushed := if answer == Pushed then s.pushed + [batch] else s.pushed)
    case Shut => s' == s.(raw := Close(s.raw))
    case Take =>
      && s.worker == Waiting && s.raw.items != []
      && s' == s.(raw := Pop(s.raw), worker := Handling(s.raw.items[0]))
    case Exit =>
      && s.worker == Waiting && s.raw.items == [] && s.raw.closed
      && s' == s.(worker := Exited)
    case Process(event) =>
      && s.worker.Handling?
      && s' == s.(worker := Publishing(event, 0), deliveries := s.deliveries + [Delivery(s.worker.batch, event)],
                  counters := s.counters.(delivered := s.counters.delivered + 1))
    case Attempt =>
      && s.worker.Publishing? && s.worker.next < s.publishers
      && s' == s.(worker := Offering(s.worker.event, s.worker.next),
                  offers := s.offers + [Offer(s.worker.next, s.worker.event)],
                  counters := s.counters.(attempts := s.counters.attempts + 1))
    case Answer(verdict) =>
      && s.worker.Offering?
      && s' == s.(worker := Publishing(s.worker.event, s.worker.next + 1),
                  verdicts := s.verdicts + [verdict], counters := Count(s.counters, verdict))
    case Finish =>
      && s.worker.Publishing? && s.worker.next == s.publishers
      && s' == s.(worker := Waiting)
  }

  // ----- what every step keeps -----

  ghost function Batches(deliveries: seq<Delivery>): seq<Batch> {
    seq(|deliveries|, i requires 0 <= i < |deliveries| => deliveries[i].batch)
  }

  ghost function Hand(w: Worker): seq<Batch> {
    if w.Handling? then [w.batch] else []
  }

  /** One event offered to the first n publishers, in order. */
  ghost function Row(event: Event, n: nat): seq<Offer> {
    seq(n, i requires 0 <= i < n => Offer(i, event))
  }

  /** The first n delivered events, each offered to every publisher. */
  ghost function FanOut(deliveries: seq<Delivery>, n: nat, publishers: nat): seq<Offer>
    requires n <= |deliveries|
  {
    if n == 0 then [] else FanOut(deliveries, n - 1, publishers) + Row(deliveries[n - 1].event, publishers)
  }

  /** Every accepted batch is delivered, in the worker's hand or queued, in the order of acceptance. */
  ghost predicate QueueInv(raw: Queue<Batch>, w: Worker, pushed: seq<Batch>, deliveries: seq<Delivery>) {
    && Bounded(raw) && raw.accepted == |pushed|
    && pushed == Batches(deliveries) + (Hand(w) + raw.items)
    && (w == Exited ==> raw.closed && raw.items == [])
  }

  /** The publishers have been offered every delivered event in order, the last one perhaps not by all yet. */
  ghost predicate OffersInv(w: Worker, publishers: nat, deliveries: seq<Delivery>, offers: seq<Offer>) {
    var n := |deliveries|;
    if w.Publishing? || w.Offering? then
      && 0 < n && deliveries[n - 1].event == w.event
      && var row := if w.Offering? then w.next + 1 else w.next;
         row <= publishers && offers == FanOut(deliveries, n - 1, publishers) + Row(w.event, row)
    else offers == FanOut(deliveries, n, publishers)
  }

  ghost function Verdicts(log: seq<Verdict>, v: Verdict): nat {
    if log == [] then 0 else Verdicts(log[..|log| - 1], v) + if log[|log| - 1] == v then 1 else 0
  }

  ghost predicate CountersInv(c: Counters, w: Worker, deliveries: nat, offers: nat, verdicts: seq<Verdict>) {
    && c.delivered == deliveries && c.attempts == offers
    && c.accepted == Verdicts(verdicts, Accepted) && c.unavailable == Verdicts(verdicts, Unavailable)
    && c.rejected == Verdicts(verdicts, Rejected) && c.errors == Verdicts(verdicts, Raised)
    && c.attempts == c.accepted + c.unavailable + c.rejected + c.errors + if w.Offering? then 1 else 0
  }

  ghost predicate QueueOk(s: State) { QueueInv(s.raw, s.worker, s.pushed, s.deliveries) }
  ghost predicate OffersOk(s: State) { OffersInv(s.worker, s.publishers, s.deliveries, s.offers) }
  ghost predicate CountersOk(s: State) { CountersInv(s.counters, s.worker, |s.deliveries|, |s.offers|, s.verdicts) }
  ghost predicate Inv(s: State) { QueueOk(s) && OffersOk(s) && CountersOk(s) }

  lemma {:induction false} InitInv(s: State)
    requires Init(s)
    ensures Inv(s)
  {}

  /** A batch that has been delivered joins the others. */
  lemma {:induction false} BatchDelivered(deliveries: seq<Delivery>, d: Delivery, items: seq<Batch>)
    ensures Batches(deliveries + [d]) + ([] + items) == Batches(deliveries) + ([d.batch] + items)
  {
    assert Batches(deliveries + [d]) == Batches(deliveries) + [d.batch];
  }

  lemma {:induction false} QueueStep(s: State, a: Action, s': State)
    requires QueueOk(s) && Step(s, a, s')
    ensures QueueOk(s')
  {
    match a
    case Process(event) => BatchDelivered(s.deliveries, Delivery(s.worker.batch, event), s.raw.items);
    case Store(_) =>
    case Take => assert [s.raw.items[0]] + s.raw.items[1..] == [] + s.raw.items;
    case _ =>
  }

  /** Deliveries past the first n do not matter to their fan-out. */
  lemma {:induction false} FanOutPrefix(deliveries: seq<Delivery>, more: seq<Delivery>, n: nat, publishers: nat)
    requires n <= |deliveries|
    ensures FanOut(deliveries + more, n, publishers) == FanOut(deliveries, n, publishers)
  {
    if n > 0 {
      FanOutPrefix(deliveries, more, n - 1, publishers);
    }
  }

  lemma {:induction false} OffersStep(s: State, a: Action, s': State)
    requires OffersOk(s) && Step(s, a, s')
    ensures OffersOk(s')
  {
    if a.Process? {
      FanOutPrefix(s.deliveries, [Delivery(s.worker.batch, a.event)], |s.deliveries|, s.publishers);
      assert FanOut(s.deliveries, |s.deliveries|, s.publishers) + Row(a.event, 0)
          == FanOut(s.deliveries, |s.deliveries|, s.publishers);
    } else if a.Attempt? {
      assert Row(s.worker.event, s.worker.next + 1)
          == Row(s.worker.event, s.worker.next) + [Offer(s.worker.next, s.worker.event)];
    }
  }

  /** One more verdict counts once, under itself. */
  lemma {:induction false} VerdictCounted(log: seq<Verdict>, v: Verdict, x: Verdict)
    ensures Verdicts(log + [v], x) == Verdicts(log, x) + if v == x then 1 else 0
  {
    assert (log + [v])[..|log|] == log;
  }

  lemma {:induction false} AnswerCounted(c: Counters, log: seq<Verdict>, v: Verdict)
    requires c.accepted == Verdicts(log, Accepted) && c.unavailable == Verdicts(log, Unavailable)
    requires c.rejected == Verdicts(log, Rejected) && c.errors == Verdicts(log, Raised)
    ensures var (c', log') := (Count(c, v), log + [v]);
            && c'.accepted == Verdicts(log', Accepted) && c'.unavailable == Verdicts(log', Unavailable)
            && c'.rejected == Verdicts(log', Rejected) && c'.errors == Verdicts(log', Raised)
  {
    VerdictCounted(log, v, Accepted);
    VerdictCounted(log, v, Unavailable);
    VerdictCounted(log, v, Rejected);
    VerdictCounted(log, v, Raised);
  }

  lemma {:induction false} CountersStep(s: State, a: Action, s': State)
    requires CountersOk(s) && Step(s, a, s')
    ensures CountersOk(s')
  {
    if a.Answer? {
      AnswerCounted(s.counters, s.verdicts, a.verdict);
    }
  }

  lemma {:induction false} InvStep(s: State, a: Action, s': State)
    requires Inv(s) && Step(s, a, s')
    ensures Inv(s')
  {
    QueueStep(s, a, s');
    OffersStep(s, a, s');
    CountersStep(s, a, s');
  }

  // ----- the end -----

  lemma {:induction false} FanOutLength(deliveries: seq<Delivery>, n: nat, publishers: nat)
    requires n <= |deliveries|
    ensures |FanOut(deliveries, n, publishers)| == n * publishers
  {
    if n > 0 {
      FanOutLength(deliveries, n - 1, publishers);
    }
  }

  /** Nothing is lost: every accepted batch became one event, in the order of acceptance, and every event was
      offered once to every publisher, in order; the counters say so. */
  ghost predicate NothingLost(s: State) {
    && Batches(s.deliveries) == s.pushed
    && s.offers == FanOut(s.deliveries, |s.deliveries|, s.publishers)
    && s.counters.delivered == s.raw.accepted
    && s.counters.attempts == s.counters.delivered * s.publishers
    && s.counters.attempts == s.counters.accepted + s.counters.unavailable + s.counters.rejected + s.counters.errors
  }

  lemma {:induction false} DrainedLosesNothing(s: State)
    requires Inv(s) && s.worker == Exited
    ensures NothingLost(s)
  {
    FanOutLength(s.deliveries, |s.deliveries|, s.publishers);
    assert Batches(s.deliveries) + ([] + []) == Batches(s.deliveries);
  }
}
