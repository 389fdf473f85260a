/**
 * The shared services as the processes use them: the object store of storage.py, and the
 * publishing half of taskqueue.py over the broker's declared topology.
 */
module Services {
  import opened Types
  import opened Sequential
  import opened Keys
  import opened Protocol
  import opened Paths
  import opened TaskQueue

  // ---- The object store ----

  /** The objects once the first `n` pages are put. */
  function WithPages(objects: Store, doc: DocKey, pages: seq<string>, n: nat): Store
    requires n <= |pages|
  {
    if n == 0 then objects
    else WithPages(objects, doc, pages, n - 1)[PageKey(doc, n) := TextObject(pages[n - 1])]
  }

  function WithDocument(objects: Store, doc: DocKey, pages: seq<string>, length: nat, pageSize: int): Store {
    WithPages(objects, doc, pages, |pages|)[ManifestKey(doc) := ManifestObject(|pages|, length, pageSize)]
  }

  class ObjectStore {
    var objects: Store

    constructor ()
      ensures objects == map[]
    {
      objects := map[];
    }

    method PutPart(doc: DocKey, index: nat, text: string)
      modifies this
      ensures objects == old(objects)[PartKey(doc, index) := TextObject(text)]
    {
      objects := objects[PartKey(doc, index) := TextObject(text)];
    }

    method GetPart(doc: DocKey, index: nat) returns (text: Option<string>)
      ensures text == GetText(objects, PartKey(doc, index))
    {
      text := GetText(objects, PartKey(doc, index));
    }

    /**
     * `put_document`: every page in order, then the manifest. `fails(n)` says that the put after
     * the first `n` raises; wherever that happens, exactly the first pages are there and no manifest.
     */
    method PutDocument(doc: DocKey, pages: seq<string>, length: nat, pageSize: int, fails: nat -> bool) returns (ok: bool, written: nat)
      modifies this
      ensures written <= |pages| && forall k :: 0 <= k < written ==> !fails(k)
      ensures ok ==> written == |pages| && !fails(written) && objects == WithDocument(old(objects), doc, pages, length, pageSize)
      ensures !ok ==> fails(written) && objects == WithPages(old(objects), doc, pages, written)
    {
      for n := 0 to |pages|
        invariant objects == WithPages(old(objects), doc, pages, n)
        invariant forall k :: 0 <= k < n ==> !fails(k)
      {
        if fails(n) {
          return false, n;
        }
        objects := objects[PageKey(doc, n + 1) := TextObject(pages[n])];
      }
      if fails(|pages|) {
        return false, |pages|;
      }
      objects := objects[ManifestKey(doc) := ManifestObject(|pages|, length, pageSize)];
      return true, |pages|;
    }
  }

  // ---- Publishing ----

  function Times(t: Task, n: nat): multiset<Task> {
    multiset{}[t := n]
  }

  lemma TimesTwice(t: Task, n: nat)
    ensures Times(t, n) + Times(t, n) == Times(t, 2 * n)
  {
  }

  /** How often `_publish` gets a message through. */
  function Tries(connection: Connection): nat {
    if Twice(connection) then 2 else 1
  }

  /**
   * The retries of the protocol follow the declared topology: with as many tiers as delays, a retry
   * is kept exactly when its routing key reaches a queue, and every queue it reaches hands it
   * back to the workers.
   */
  lemma RetriesFollowTheTopology(e: Setup, n: Names, t: Task)
    requires e.retryTiers == |n.delays|
    ensures var topology := Declared(Blank, n);
      var queues := Route(topology, RetryExchange(n), RetryQueueName(n, t.attempt));
      && (Retried(e, t, false) != multiset{} <==> queues != {})
      && (forall q :: q in queues ==> Feeds(topology, n, q))
  {
    PublishesAreRouted(n, t.attempt);
    hide Declared, RetryQueueName, RetryExchange;
    assert NextAttempt(t) in multiset{NextAttempt(t)};
  }

  /** What gets through of a retry is what the protocol says. */
  lemma RetriesArrive(e: Setup, n: Names, t: Task, connection: Connection)
    requires e.retryTiers == |n.delays|
    ensures var topology := Declared(Blank, n);
      && Times(NextAttempt(t), Tries(connection) * Arrivals(topology, n, RetryExchange(n), RetryQueueName(n, t.attempt)))
           == Retried(e, t, Twice(connection))
      && Parkings(topology, n, RetryExchange(n), RetryQueueName(n, t.attempt)) == 0
  {
    PublishesArrive(n, t.attempt);
    hide Declared, RetryQueueName, RetryExchange, Arrivals, Parkings;
  }

  class Channel {
    const names: Names
    const broker: Broker
    var ready: multiset<Task>   // on the work queue, or on a queue that hands back to it
    var failed: multiset<Task>  // on the failed queue

    /** The topology has been declared. */
    ghost predicate Valid()
      reads this, broker
    {
      broker.topology == Declared(Blank, names)
    }

    /** Connecting for the first time declares the topology. */
    constructor (names: Names)
      ensures Valid() && fresh(broker) && this.names == names
      ensures ready == multiset{} && failed == multiset{}
    {
      this.names := names;
      ready, failed := multiset{}, multiset{};
      broker := new Broker();
      new;
      var ok := broker.Declare(names);
      assert ok;
    }

    /** Reconnecting declares it again, which changes nothing. */
    method Reconnect()
      requires Valid()
      modifies broker
      ensures Valid()
    {
      DeclareTwice(Blank, names);
      var ok := broker.Declare(names);
      assert ok;
    }

    /** `basic_publish`: every queue the routing key reaches gets the message; with none it is dropped. */
    method BasicPublish(exchange: string, routingKey: string, task: Task)
      modifies this
      ensures ready == old(ready) + Times(task, Arrivals(broker.topology, names, exchange, routingKey))
      ensures failed == old(failed) + Times(task, Parkings(broker.topology, names, exchange, routingKey))
    {
      ready := ready + Times(task, Arrivals(broker.topology, names, exchange, routingKey));
      failed := failed + Times(task, Parkings(broker.topology, names, exchange, routingKey));
    }

    /** `_publish` of one message: a second try on a new connection if the first one breaks; false if that raises too. */
    method TryPublish(exchange: string, routingKey: string, task: Task, connection: Connection) returns (ok: bool)
      requires Valid()
      modifies this, broker
      ensures Valid() && ok == !connection.Lost?
      ensures ready == old(ready) + Times(task, Tries(connection) * old(Arrivals(broker.topology, names, exchange, routingKey)))
      ensures failed == old(failed) + Times(task, Tries(connection) * old(Parkings(broker.topology, names, exchange, routingKey)))
    {
      hide Declared, Arrivals, Parkings, Times;
      TimesTwice(task, Arrivals(broker.topology, names, exchange, routingKey));
      TimesTwice(task, Parkings(broker.topology, names, exchange, routingKey));
      if connection.Steady? {
        BasicPublish(exchange, routingKey, task);
        return true;
      }
      if Twice(connection) {
        BasicPublish(exchange, routingKey, task);
      }
      Reconnect();
      BasicPublish(exchange, routingKey, task);
      ok := !connection.Lost?;
    }

    /** One message of `publish`. */
    method Publish(task: Task)
      requires Valid()
      modifies this
      ensures Valid() && failed == old(failed) && ready == old(ready) + multiset{task}
    {
      PublishesArrive(names, 0);
      hide Declared, Arrivals, Parkings;
      BasicPublish(names.exchange, names.queue, task);
    }

    /** `publish_retry`: the next attempt, to the tier of this one. */
    method PublishRetry(ghost e: Setup, task: Task, connection: Connection) returns (ok: bool)
      requires Valid() && e.retryTiers == |names.delays|
      modifies this, broker
      ensures Valid() && failed == old(failed) && ok == !connection.Lost?
      ensures ready == old(ready) + Retried(e, task, Twice(connection))
    {
      RetriesArrive(e, names, task, connection);
      hide Declared, Arrivals, Parkings, Retried;
      ok := TryPublish(RetryExchange(names), RetryQueueName(names, task.attempt), NextAttempt(task), connection);
    }

    /** `publish_failed` */
    method PublishFailed(task: Task, connection: Connection) returns (ok: bool)
      requires Valid()
      modifies this, broker
      ensures Valid() && ready == old(ready) && ok == !connection.Lost?
      ensures failed == old(failed) + Copies(task, Twice(connection))
    {
      PublishesArrive(names, 0);
      hide Declared, Arrivals, Parkings;
      ok := TryPublish(DlxExchange(names), names.queue, task, connection);
    }
  }
}
