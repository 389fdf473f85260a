/** taskqueue.py: the broker topology every process declares, and where each publish goes. */
module TaskQueue {
  import opened Types
  import Keys

  datatype DeadLetter = DeadLetter(exchange: string, routingKey: Option<string>)

  /** Arguments a queue is declared with. */
  datatype QueueArgs = QueueArgs(ttl: Option<int>, deadLetter: Option<DeadLetter>)

  datatype Binding = Binding(exchange: string, routingKey: string)

  datatype Topology = Topology(exchanges: set<string>, queues: map<string, QueueArgs>, bindings: map<Binding, set<string>>)

  /** A broker on which nothing has been declared. */
  const Blank := Topology({}, map[], map[])

  /** The configured exchange, work queue and retry delays in seconds. */
  datatype Names = Names(exchange: string, queue: string, delays: seq<int>)

  function RetryExchange(n: Names): string { n.exchange + ".retry" }

  function DlxExchange(n: Names): string { n.exchange + ".dlx" }

  function FailedQueue(n: Names): string { n.queue + ".failed" }

  function TierQueue(n: Names, tier: nat): string { n.queue + ".retry." + Keys.Decimal(tier) }

  /** The tier an attempt waits on: its own, or the last one. */
  function Tier(n: Names, attempt: nat): nat { if attempt <= |n.delays| then attempt else |n.delays| }

  /** `retry_queue_name` */
  function RetryQueueName(n: Names, attempt: nat): string { TierQueue(n, Tier(n, attempt)) }

  function WorkArgs(n: Names): QueueArgs { QueueArgs(None, Some(DeadLetter(DlxExchange(n), None))) }

  function TierArgs(n: Names, tier: nat): QueueArgs
    requires 1 <= tier <= |n.delays|
  {
    QueueArgs(Some(n.delays[tier - 1] * 1000), Some(DeadLetter(n.exchange, Some(n.queue))))
  }

  /** The queues a message with this routing key reaches. */
  function Route(t: Topology, exchange: string, routingKey: string): set<string> {
    var b := Binding(exchange, routingKey);
    if b in t.bindings then t.bindings[b] else {}
  }

  /** A queue declared and bound. */
  function WithQueue(t: Topology, queue: string, args: QueueArgs, exchange: string, routingKey: string): Topology {
    Topology(t.exchanges, t.queues[queue := args],
             t.bindings[Binding(exchange, routingKey) := Route(t, exchange, routingKey) + {queue}])
  }

  function WithTiers(t: Topology, n: Names, tiers: nat): Topology
    requires tiers <= |n.delays|
  {
    if tiers == 0 then t
    else
      var name := TierQueue(n, tiers);
      WithQueue(WithTiers(t, n, tiers - 1), name, TierArgs(n, tiers), RetryExchange(n), name)
  }

  function WithExchanges(t: Topology, n: Names): Topology {
    t.(exchanges := t.exchanges + {n.exchange, RetryExchange(n), DlxExchange(n)})
  }

  function Declared(t: Topology, n: Names): Topology {
    var work := WithQueue(WithExchanges(t, n), n.queue, WorkArgs(n), n.exchange, n.queue);
    var tiers := WithTiers(work, n, |n.delays|);
    WithQueue(tiers, FailedQueue(n), QueueArgs(None, None), DlxExchange(n), n.queue)
  }

  class Broker {
    var topology: Topology

    constructor ()
      ensures topology == Blank
    {
      topology := Blank;
    }

    /** A queue declared and bound; refused if it exists with other arguments. */
    method DeclareQueue(queue: string, args: QueueArgs, exchange: string, routingKey: string) returns (ok: bool)
      modifies this
      ensures ok == Accepts(old(topology), queue, args)
      ensures topology == if ok then WithQueue(old(topology), queue, args, exchange, routingKey) else old(topology)
    {
      if queue in topology.queues && topology.queues[queue] != args {
        return false;
      }
      var bound := Route(topology, exchange, routingKey) + {queue};
      topology := Topology(topology.exchanges, topology.queues[queue := args], topology.bindings[Binding(exchange, routingKey) := bound]);
      ok := true;
    }

    /** One retry queue for each delay. */
    method DeclareTiers(n: Names) returns (ok: bool)
      modifies this
      ensures ok <==> TiersAgree(old(topology), n)
      ensures ok ==> topology == WithTiers(old(topology), n, |n.delays|)
    {
      hide TierQueue, RetryExchange, TierArgs;
      ok := true;
      for tier := 1 to |n.delays| + 1
        invariant ok && topology == WithTiers(old(topology), n, tier - 1)
        invariant forall k :: 1 <= k < tier ==> Accepts(old(topology), TierQueue(n, k), TierArgs(n, k))
      {
        var name := TierQueue(n, tier);
        OtherQueues(old(topology), n, tier - 1, tier);
        ok := DeclareQueue(name, TierArgs(n, tier), RetryExchange(n), name);
        if !ok {
          return;
        }
      }
    }

    /**
     * `declare`: the exchanges, the work queue, one retry queue for each delay, the failed queue.
     * It goes through exactly when none of the queues exists with other arguments.
     */
    method Declare(n: Names) returns (ok: bool)
      modifies this
      ensures ok <==> Agrees(old(topology), n)
      ensures ok ==> topology == Declared(old(topology), n)
    {
      TiersApart(old(topology), n);
      hide TierQueue, FailedQueue, RetryExchange, DlxExchange, WithTiers, TiersAgree;
      topology := topology.(exchanges := topology.exchanges + {n.exchange, RetryExchange(n), DlxExchange(n)});
      ok := DeclareQueue(n.queue, WorkArgs(n), n.exchange, n.queue);
      if !ok {
        return;
      }
      FailedElsewhere(topology, n, |n.delays|);
      ok := DeclareTiers(n);
      if !ok {
        return;
      }
      ok := DeclareQueue(FailedQueue(n), QueueArgs(None, None), DlxExchange(n), n.queue);
    }
  }

  /** The queue can be declared with these arguments. */
  predicate Accepts(t: Topology, queue: string, args: QueueArgs) {
    queue in t.queues ==> t.queues[queue] == args
  }

  /** Every queue that `declare` declares exists with the same arguments, or does not exist. */
  ghost predicate Agrees(t: Topology, n: Names) {
    && Accepts(t, n.queue, WorkArgs(n))
    && TiersAgree(t, n)
    && Accepts(t, FailedQueue(n), QueueArgs(None, None))
  }

  ghost predicate TiersAgree(t: Topology, n: Names) {
    forall k :: 1 <= k <= |n.delays| ==> Accepts(t, TierQueue(n, k), TierArgs(n, k))
  }

  /** Declaring exchanges and the work queue does not matter to the tiers. */
  lemma TiersApart(t: Topology, n: Names)
    ensures TiersAgree(WithQueue(WithExchanges(t, n), n.queue, WorkArgs(n), n.exchange, n.queue), n) <==> TiersAgree(t, n)
  {
    var work := WithQueue(WithExchanges(t, n), n.queue, WorkArgs(n), n.exchange, n.queue);
    forall k | 1 <= k <= |n.delays|
      ensures Accepts(work, TierQueue(n, k), TierArgs(n, k)) <==> Accepts(t, TierQueue(n, k), TierArgs(n, k))
    {
      TierNames(n, k, k);
    }
    hide TierQueue;
  }

  /** The first tiers leave the queue of another tier alone. */
  lemma {:induction false} OtherQueues(t: Topology, n: Names, tiers: nat, tier: nat)
    requires tiers < tier && tiers <= |n.delays|
    ensures var name := TierQueue(n, tier);
      (name in WithTiers(t, n, tiers).queues <==> name in t.queues) && (name in t.queues ==> WithTiers(t, n, tiers).queues[name] == t.queues[name])
  {
    if tiers > 0 {
      OtherQueues(t, n, tiers - 1, tier);
      TierNames(n, tiers, tier);
      hide TierQueue;
    }
  }

  lemma {:induction false} FailedElsewhere(t: Topology, n: Names, tiers: nat)
    requires tiers <= |n.delays|
    ensures var name := FailedQueue(n);
      (name in WithTiers(t, n, tiers).queues <==> name in t.queues) && (name in t.queues ==> WithTiers(t, n, tiers).queues[name] == t.queues[name])
    ensures FailedQueue(n) != n.queue
  {
    TierNames(n, tiers, tiers);
    if tiers > 0 {
      FailedElsewhere(t, n, tiers - 1);
      hide TierQueue, FailedQueue;
    }
  }

  // ---- Names do not clash ----

  lemma TierNames(n: Names, a: nat, b: nat)
    ensures TierQueue(n, a) == TierQueue(n, b) <==> a == b
    ensures TierQueue(n, a) != n.queue && TierQueue(n, a) != FailedQueue(n) && FailedQueue(n) != n.queue
  {
    Keys.NumberOfDecimal(a);
    Keys.NumberOfDecimal(b);
    var k := |n.queue + ".retry."|;
    assert TierQueue(n, a)[k..] == Keys.Decimal(a) && TierQueue(n, b)[k..] == Keys.Decimal(b);
    assert TierQueue(n, a)[|n.queue| + 1] == 'r' && FailedQueue(n)[|n.queue| + 1] == 'f';
    assert |FailedQueue(n)| > |n.queue| && |TierQueue(n, a)| > |n.queue|;
  }

  lemma ExchangeNames(n: Names)
    ensures n.exchange != RetryExchange(n) && n.exchange != DlxExchange(n) && RetryExchange(n) != DlxExchange(n)
  {
    assert RetryExchange(n)[|n.exchange| + 1] == 'r' && DlxExchange(n)[|n.exchange| + 1] == 'd';
    assert |RetryExchange(n)| > |n.exchange| && |DlxExchange(n)| > |n.exchange|;
  }

  // ---- Routing ----

  /** The name of one of the first tiers. */
  ghost predicate IsTier(n: Names, tiers: nat, key: string) {
    exists k :: 1 <= k <= tiers && key == TierQueue(n, k)
  }

  lemma OneMoreTier(n: Names, tiers: nat, key: string)
    requires tiers >= 1
    ensures IsTier(n, tiers, key) <==> IsTier(n, tiers - 1, key) || key == TierQueue(n, tiers)
  {
    hide TierQueue;
  }

  lemma NoTierZero(n: Names, tiers: nat)
    ensures !IsTier(n, tiers, TierQueue(n, 0))
  {
    forall k | 1 <= k <= tiers ensures TierQueue(n, 0) != TierQueue(n, k) {
      TierNames(n, 0, k);
    }
  }

  lemma NoTier(n: Names, key: string)
    ensures !IsTier(n, 0, key)
  {
  }

  /** The tiers bind their own names on the retry exchange and touch nothing else. */
  lemma {:induction false} TiersRoute(t: Topology, n: Names, tiers: nat, exchange: string, key: string)
    requires tiers <= |n.delays|
    ensures var after := WithTiers(t, n, tiers);
      Route(after, exchange, key) == Route(t, exchange, key) +
        (if exchange == RetryExchange(n) && IsTier(n, tiers, key) then {key} else {})
  {
    hide TierQueue, RetryExchange, IsTier;
    if tiers > 0 {
      TiersRoute(t, n, tiers - 1, exchange, key);
      OneMoreTier(n, tiers, key);
    } else {
      NoTier(n, key);
    }
  }

  lemma {:induction false} TiersQueues(t: Topology, n: Names, tiers: nat, k: nat)
    requires tiers <= |n.delays| && 1 <= k <= tiers
    ensures TierQueue(n, k) in WithTiers(t, n, tiers).queues && WithTiers(t, n, tiers).queues[TierQueue(n, k)] == TierArgs(n, k)
  {
    TierNames(n, k, tiers);
    if k < tiers {
      TiersQueues(t, n, tiers - 1, k);
    }
  }

  /**
   * Where publishes go under the declared topology: work to the work queue, parked messages to
   * the failed queue, and a retry to its tier, which after its delay hands it back to the work
   * queue. There is no tier 0, so without delays a retry reaches no queue at all.
   */
  lemma PublishesAreRouted(n: Names, attempt: nat)
    ensures var t := Declared(Blank, n);
      var name := RetryQueueName(n, attempt);
      && Route(t, n.exchange, n.queue) == {n.queue}
      && Route(t, DlxExchange(n), n.queue) == {FailedQueue(n)}
      && Route(t, RetryExchange(n), name) == (if Tier(n, attempt) == 0 then {} else {name})
      && (Tier(n, attempt) > 0 ==>
            && name in t.queues
            && t.queues[name].ttl == Some(n.delays[Tier(n, attempt) - 1] * 1000)
            && t.queues[name].deadLetter == Some(DeadLetter(n.exchange, Some(n.queue))))
  {
    var work := WithQueue(WithExchanges(Blank, n), n.queue, WorkArgs(n), n.exchange, n.queue);
    var tier := Tier(n, attempt);
    var name := RetryQueueName(n, attempt);
    ExchangeNames(n);
    TierNames(n, tier, tier);
    TiersRoute(work, n, |n.delays|, n.exchange, n.queue);
    TiersRoute(work, n, |n.delays|, DlxExchange(n), n.queue);
    TiersRoute(work, n, |n.delays|, RetryExchange(n), name);
    if tier > 0 {
      TiersQueues(work, n, |n.delays|, tier);
    } else {
      NoTierZero(n, |n.delays|);
    }
    hide TierQueue, FailedQueue, RetryExchange, DlxExchange, WithTiers;
  }

  /**
   * Where a failed attempt waits, with every name written out: on the tier of its own number, or on
   * the last one, for that tier's delay, and then back on the work queue.
   */
  lemma RetryWaits(n: Names, attempt: nat)
    requires attempt >= 1 && n.delays != []
    ensures var t := Declared(Blank, n);
      var tier: nat := if attempt <= |n.delays| then attempt else |n.delays|;
      var queue := n.queue + ".retry." + Keys.Decimal(tier);
      && RetryQueueName(n, attempt) == queue
      && Route(t, n.exchange + ".retry", queue) == {queue}
      && queue in t.queues
      && t.queues[queue] == QueueArgs(Some(n.delays[tier - 1] * 1000), Some(DeadLetter(n.exchange, Some(n.queue))))
      && Route(t, n.exchange, n.queue) == {n.queue}
  {
    var tier := Tier(n, attempt);
    PublishesAreRouted(n, attempt);
    hide Declared, Route;
  }

  /**
   * The rest of the topology, written out: the three exchanges; the work queue, whose rejected
   * messages end on the failed queue; and the failed queue, where they stay.
   */
  lemma TopologyIs(n: Names)
    ensures var t := Declared(Blank, n);
      var failed := n.queue + ".failed";
      && t.exchanges == {n.exchange, n.exchange + ".retry", n.exchange + ".dlx"}
      && n.queue in t.queues && t.queues[n.queue] == QueueArgs(None, Some(DeadLetter(n.exchange + ".dlx", None)))
      && Route(t, n.exchange + ".dlx", n.queue) == {failed}
      && failed in t.queues && t.queues[failed] == QueueArgs(None, None)
      && t.queues.Keys == {n.queue, failed} + set k | 1 <= k <= |n.delays| :: TierQueue(n, k)
    ensures forall k: nat :: TierQueue(n, k) == n.queue + ".retry." + Keys.Decimal(k)
  {
    var work := WithQueue(WithExchanges(Blank, n), n.queue, WorkArgs(n), n.exchange, n.queue);
    PublishesAreRouted(n, 0);
    DeclaredHas(Blank, n);
    TiersExchanges(work, n, |n.delays|);
    TiersKeys(work, n, |n.delays|);
    hide WithTiers, Route;
  }

  lemma {:induction false} TiersKeys(t: Topology, n: Names, tiers: nat)
    requires tiers <= |n.delays|
    ensures WithTiers(t, n, tiers).queues.Keys == t.queues.Keys + set k | 1 <= k <= tiers :: TierQueue(n, k)
  {
    hide TierQueue;
    if tiers > 0 {
      TiersKeys(t, n, tiers - 1);
      assert WithTiers(t, n, tiers).queues.Keys == WithTiers(t, n, tiers - 1).queues.Keys + {TierQueue(n, tiers)};
      assert (set k | 1 <= k <= tiers :: TierQueue(n, k)) == (set k | 1 <= k <= tiers - 1 :: TierQueue(n, k)) + {TierQueue(n, tiers)};
    }
  }

  /** A message on this queue gets to the workers: it is their queue, or its dead letters are routed there. */
  predicate Feeds(t: Topology, n: Names, queue: string) {
    || queue == n.queue
    || (queue in t.queues && t.queues[queue].ttl.Some? && t.queues[queue].deadLetter.Some?
        && var letter := t.queues[queue].deadLetter.value;
           letter.routingKey.Some? && Route(t, letter.exchange, letter.routingKey.value) == {n.queue})
  }

  /** How many copies of a publish get to the workers ... */
  function Arrivals(t: Topology, n: Names, exchange: string, routingKey: string): nat {
    |set q | q in Route(t, exchange, routingKey) && Feeds(t, n, q)|
  }

  /** ... and how many to the failed queue. */
  function Parkings(t: Topology, n: Names, exchange: string, routingKey: string): nat {
    |set q | q in Route(t, exchange, routingKey) && q == FailedQueue(n)|
  }

  lemma FailedQueueIsApart(n: Names)
    ensures var t := Declared(Blank, n);
      FailedQueue(n) != n.queue && FailedQueue(n) in t.queues && t.queues[FailedQueue(n)] == QueueArgs(None, None)
  {
    assert |FailedQueue(n)| > |n.queue|;
    hide WithTiers;
  }

  /** Work arrives once, a parked message is parked once, and a retry arrives once if it has a tier. */
  lemma PublishesArrive(n: Names, attempt: nat)
    ensures var t := Declared(Blank, n);
      var name := RetryQueueName(n, attempt);
      && Arrivals(t, n, n.exchange, n.queue) == 1 && Parkings(t, n, n.exchange, n.queue) == 0
      && Arrivals(t, n, DlxExchange(n), n.queue) == 0 && Parkings(t, n, DlxExchange(n), n.queue) == 1
      && Arrivals(t, n, RetryExchange(n), name) == (if Tier(n, attempt) == 0 then 0 else 1)
      && Parkings(t, n, RetryExchange(n), name) == 0
  {
    var t := Declared(Blank, n);
    var name := RetryQueueName(n, attempt);
    PublishesAreRouted(n, attempt);
    FailedQueueIsApart(n);
    TierNames(n, Tier(n, attempt), Tier(n, attempt));
    hide Declared, RetryQueueName, FailedQueue, RetryExchange, DlxExchange, Route;
    assert (set q | q in Route(t, n.exchange, n.queue) && Feeds(t, n, q)) == {n.queue};
    assert (set q | q in Route(t, n.exchange, n.queue) && q == FailedQueue(n)) == {};
    assert (set q | q in Route(t, DlxExchange(n), n.queue) && Feeds(t, n, q)) == {};
    assert (set q | q in Route(t, DlxExchange(n), n.queue) && q == FailedQueue(n)) == {FailedQueue(n)};
    assert (set q | q in Route(t, RetryExchange(n), name) && Feeds(t, n, q)) == if Tier(n, attempt) == 0 then {} else {name};
    assert (set q | q in Route(t, RetryExchange(n), name) && q == FailedQueue(n)) == {};
  }

  // ---- Declaring again ----

  ghost predicate Has(t: Topology, queue: string, args: QueueArgs, exchange: string, routingKey: string) {
    queue in t.queues && t.queues[queue] == args
    && Binding(exchange, routingKey) in t.bindings && queue in t.bindings[Binding(exchange, routingKey)]
  }

  lemma HasStays(t: Topology, queue: string, args: QueueArgs, exchange: string, routingKey: string)
    requires Has(t, queue, args, exchange, routingKey)
    ensures WithQueue(t, queue, args, exchange, routingKey) == t
  {
    var b := Binding(exchange, routingKey);
    assert t.bindings[b] + {queue} == t.bindings[b];
    assert t.queues[queue := args] == t.queues && t.bindings[b := t.bindings[b]] == t.bindings;
  }

  ghost predicate HasTiers(t: Topology, n: Names, tiers: nat)
    requires tiers <= |n.delays|
  {
    forall k :: 1 <= k <= tiers ==> Has(t, TierQueue(n, k), TierArgs(n, k), RetryExchange(n), TierQueue(n, k))
  }

  lemma {:induction false} HasTiersStays(t: Topology, n: Names, tiers: nat)
    requires tiers <= |n.delays| && HasTiers(t, n, tiers)
    ensures WithTiers(t, n, tiers) == t
  {
    if tiers > 0 {
      HasTiersStays(t, n, tiers - 1);
      HasStays(t, TierQueue(n, tiers), TierArgs(n, tiers), RetryExchange(n), TierQueue(n, tiers));
    }
  }

  lemma {:induction false} WithTiersHas(t: Topology, n: Names, tiers: nat)
    requires tiers <= |n.delays|
    ensures HasTiers(WithTiers(t, n, tiers), n, tiers)
  {
    if tiers > 0 {
      WithTiersHas(t, n, tiers - 1);
      forall k | 1 <= k < tiers
        ensures Has(WithTiers(t, n, tiers), TierQueue(n, k), TierArgs(n, k), RetryExchange(n), TierQueue(n, k))
      {
        TierNames(n, k, tiers);
        assert Has(WithTiers(t, n, tiers - 1), TierQueue(n, k), TierArgs(n, k), RetryExchange(n), TierQueue(n, k));
      }
    }
  }

  /** Queues under other names stay. */
  lemma {:induction false} TiersKeep(t: Topology, n: Names, tiers: nat)
    requires tiers <= |n.delays| && Has(t, n.queue, WorkArgs(n), n.exchange, n.queue)
    ensures Has(WithTiers(t, n, tiers), n.queue, WorkArgs(n), n.exchange, n.queue)
  {
    if tiers > 0 {
      TiersKeep(t, n, tiers - 1);
      TierNames(n, tiers, tiers);
      ExchangeNames(n);
    }
  }

  /** What has been declared is there. */
  lemma DeclaredHas(t: Topology, n: Names)
    ensures var once := Declared(t, n);
      && Has(once, n.queue, WorkArgs(n), n.exchange, n.queue)
      && HasTiers(once, n, |n.delays|)
      && Has(once, FailedQueue(n), QueueArgs(None, None), DlxExchange(n), n.queue)
  {
    var work := WithQueue(WithExchanges(t, n), n.queue, WorkArgs(n), n.exchange, n.queue);
    var tiers := WithTiers(work, n, |n.delays|);
    var once := Declared(t, n);
    TiersKeep(work, n, |n.delays|);
    WithTiersHas(work, n, |n.delays|);
    ExchangeNames(n);
    TierNames(n, 0, 0);
    assert Has(once, FailedQueue(n), QueueArgs(None, None), DlxExchange(n), n.queue);
    assert Has(once, n.queue, WorkArgs(n), n.exchange, n.queue);
    forall k | 1 <= k <= |n.delays|
      ensures Has(once, TierQueue(n, k), TierArgs(n, k), RetryExchange(n), TierQueue(n, k))
    {
      TierNames(n, k, k);
      assert Has(tiers, TierQueue(n, k), TierArgs(n, k), RetryExchange(n), TierQueue(n, k));
    }
  }

  lemma {:induction false} TiersExchanges(t: Topology, n: Names, tiers: nat)
    requires tiers <= |n.delays|
    ensures WithTiers(t, n, tiers).exchanges == t.exchanges
  {
    if tiers > 0 {
      TiersExchanges(t, n, tiers - 1);
    }
  }

  /** Declaring is idempotent, so every process can do it on boot: it goes through and changes nothing. */
  lemma DeclareTwice(t: Topology, n: Names)
    ensures Agrees(Declared(t, n), n) && Declared(Declared(t, n), n) == Declared(t, n)
  {
    var once := Declared(t, n);
    DeclaredHas(t, n);
    TiersExchanges(WithQueue(WithExchanges(t, n), n.queue, WorkArgs(n), n.exchange, n.queue), n, |n.delays|);
    assert WithExchanges(once, n) == once;
    forall k | 1 <= k <= |n.delays| ensures Accepts(once, TierQueue(n, k), TierArgs(n, k)) {
      assert Has(once, TierQueue(n, k), TierArgs(n, k), RetryExchange(n), TierQueue(n, k));
    }
    HasStays(once, n.queue, WorkArgs(n), n.exchange, n.queue);
    HasTiersStays(once, n, |n.delays|);
    HasStays(once, FailedQueue(n), QueueArgs(None, None), DlxExchange(n), n.queue);
  }
}
