/**
 * Label tracking and liveness routing of the synchronous script (`script.js`):
 * `registerTemporaryLabels`, `handleAliveListener` with the two host notifications routed to
 * it, and `clearDivisions`. Every label of a creation is tracked, and a listener, when given,
 * goes to every label, the first one included.
 */
module ScriptTracker {
  import opened Wrappers
  import opened Host
  import opened Strings
  import opened Liveness

  /** The three shared structures and the listener calls made so far. */
  datatype Registry = Registry(
    temporary: seq<Label>,                 // temporaryLabels
    listeners: map<Label, ListenerId>,     // aliveListenerByLabel
    queue: seq<Label>,                     // unhandledAliveCallLabels
    events: seq<Event>)

  /** The registry after `registerTemporaryLabels(labelString, aliveListener)`. */
  function Registered(s: Registry, labelString: string, aliveListener: Option<ListenerId>): Registry
  {
    var labels := Split(labelString, ',');
    if aliveListener.None? then s.(temporary := s.temporary + labels)
    else Registry(s.temporary + labels,
                  Stored(s.listeners, s.queue, labels, aliveListener.value),
                  s.queue,
                  s.events + Immediate(s.queue, labels, aliveListener.value))
  }

  /** The registry after `handleAliveListener(name)`. */
  function Handled(s: Registry, name: Label): Registry
  {
    if name in s.listeners then
      s.(listeners := s.listeners - {name}, events := s.events + [Listened(s.listeners[name], name)])
    else s.(queue := s.queue + [name])
  }

  /** The registry after `clearDivisions`: everything but the listener calls already made is forgotten. */
  function Cleared(s: Registry): Registry
  {
    Registry([], map[], [], s.events)
  }

  /** The host notifications the script subscribes to; both reach the same handler. */
  datatype Notification = ObjectAdded | ObjectUpdated

  class Tracker {
    const api: Api
    var temporaryLabels: seq<Label>
    var unhandledAliveCallLabels: seq<Label>
    var aliveListenerByLabel: map<Label, ListenerId>
    /** The listener calls made so far, in order. */
    var events: seq<Event>

    constructor (api: Api)
      ensures this.api == api && State() == Registry([], map[], [], [])
    {
      this.api := api;
      temporaryLabels := [];
      unhandledAliveCallLabels := [];
      aliveListenerByLabel := map[];
      events := [];
    }

    function State(): Registry
      reads this
    {
      Registry(temporaryLabels, aliveListenerByLabel, unhandledAliveCallLabels, events)
    }

    /**
     * `registerTemporaryLabels(labelString, aliveListener)`: track every comma-split label in
     * order and return the first; a listener that is not given is `None`.
     */
    method RegisterTemporaryLabels(labelString: string, aliveListener: Option<ListenerId>) returns (first: Label)
      modifies this
      ensures first == Split(labelString, ',')[0]
      ensures State() == Registered(old(State()), labelString, aliveListener)
    {
      var labels := Split(labelString, ',');
      var i := 0;
      while i < |labels|
        invariant 0 <= i <= |labels|
        invariant unhandledAliveCallLabels == old(unhandledAliveCallLabels)
        invariant temporaryLabels == old(temporaryLabels) + labels[..i]
        invariant aliveListener.None? ==> aliveListenerByLabel == old(aliveListenerByLabel) && events == old(events)
        invariant aliveListener.Some? ==>
                    aliveListenerByLabel
                    == Stored(old(aliveListenerByLabel), unhandledAliveCallLabels, labels[..i], aliveListener.value)
        invariant aliveListener.Some? ==>
                    events == old(events) + Immediate(unhandledAliveCallLabels, labels[..i], aliveListener.value)
      {
        var current := labels[i];
        assert labels[..i + 1][..i] == labels[..i];
        temporaryLabels := temporaryLabels + [current];
        if aliveListener.Some? {
          if current in unhandledAliveCallLabels {
            events := events + [Listened(aliveListener.value, current)];
          } else {
            aliveListenerByLabel := aliveListenerByLabel[current := aliveListener.value];
          }
        }
        i := i + 1;
      }
      assert labels[..i] == labels;
      first := labels[0];
    }

    /** `handleAliveListener(name)`: take a stored listener out of the map and run it, or queue the name. */
    method HandleAliveListener(name: Label)
      modifies this
      ensures State() == Handled(old(State()), name)
    {
      if name in aliveListenerByLabel {
        var listener := aliveListenerByLabel[name];
        aliveListenerByLabel := aliveListenerByLabel - {name};
        events := events + [Listened(listener, name)];
        return;
      }
      unhandledAliveCallLabels := unhandledAliveCallLabels + [name];
    }

    /** The listeners given to `registerAddListener` and `registerUpdateListener`. */
    method Notify(kind: Notification, name: Label)
      modifies this
      ensures State() == Handled(old(State()), name)
    {
      match kind
      case ObjectAdded => HandleAliveListener(name);
      case ObjectUpdated => HandleAliveListener(name);
    }

    /** `clearDivisions(numberOfDivisions)`: the argument is not used. */
    method ClearDivisions(numberOfDivisions: int)
      modifies this, api
      ensures api.log == old(api.log) + Teardown(old(temporaryLabels))
      ensures State() == Cleared(old(State()))
    {
      aliveListenerByLabel := map[];
      DeleteAll(api, temporaryLabels);
      unhandledAliveCallLabels := [];
      temporaryLabels := [];
    }
  }

  /**
   * Registration tracks every label and returns nothing else to the map without a listener;
   * with one, a queued label gets one immediate call per time it is listed, every other listed
   * label gets the listener stored, and the rest of the map and the queue are left alone.
   */
  lemma RegisteredEffect(s: Registry, labelString: string, aliveListener: Option<ListenerId>)
    ensures var r, labels := Registered(s, labelString, aliveListener), Split(labelString, ',');
            && r.temporary == s.temporary + labels
            && r.queue == s.queue
            && (aliveListener.None? ==> r.listeners == s.listeners && r.events == s.events)
            && (aliveListener.Some? ==>
                  && |r.events| >= |s.events| && r.events[..|s.events|] == s.events
                  && (forall x :: x in labels && x in s.queue ==>
                        multiset(r.events[|s.events|..])[Listened(aliveListener.value, x)] == multiset(labels)[x])
                  && (forall x :: x in labels && x !in s.queue ==>
                        x in r.listeners && r.listeners[x] == aliveListener.value)
                  && (forall x :: x !in labels ==>
                        (x in r.listeners <==> x in s.listeners)
                        && (x in s.listeners ==> r.listeners[x] == s.listeners[x])))
  {
    var labels := Split(labelString, ',');
    if aliveListener.Some? {
      var l := aliveListener.value;
      var r := Registered(s, labelString, aliveListener);
      StoredEntries(s.listeners, s.queue, labels, l);
      ImmediateCalls(s.queue, labels, l);
      assert r.events[|s.events|..] == Immediate(s.queue, labels, l);
    }
  }

  /**
   * A stored listener is removed before it runs, so it runs exactly once: the same notification
   * again only queues the name. Any other entry of the map is left as it was.
   */
  lemma HandledRunsOnce(s: Registry, name: Label)
    requires name in s.listeners
    ensures var once := Handled(s, name);
            && once.events == s.events + [Listened(s.listeners[name], name)]
            && name !in once.listeners
            && once.queue == s.queue
            && Handled(once, name).events == once.events
            && Handled(once, name).queue == s.queue + [name]
            && forall y :: y != name ==>
                 (y in once.listeners <==> y in s.listeners) && (y in s.listeners ==> once.listeners[y] == s.listeners[y])
  {
  }

  /** An unmatched name is queued at the end, and nothing runs. */
  lemma HandledQueues(s: Registry, name: Label)
    requires name !in s.listeners
    ensures Handled(s, name) == s.(queue := s.queue + [name])
    ensures Handled(s, name).events == s.events
  {
  }

  /**
   * Order independence: registering a single new label with a listener and then hearing of it,
   * or hearing of it first and then registering it, runs the listener once either way and
   * leaves no listener stored; only the queue tells the two apart, since a matched queue entry
   * is never removed.
   */
  lemma NotificationOrderIrrelevant(s: Registry, x: Label, l: ListenerId)
    requires ',' !in x && x !in s.listeners && x !in s.queue
    ensures var registerFirst := Handled(Registered(s, x, Some(l)), x);
            var announceFirst := Registered(Handled(s, x), x, Some(l));
            && registerFirst.events == announceFirst.events == s.events + [Listened(l, x)]
            && registerFirst.listeners == announceFirst.listeners == s.listeners
            && registerFirst.temporary == announceFirst.temporary == s.temporary + [x]
            && registerFirst.queue == s.queue
            && announceFirst.queue == s.queue + [x]
  {
    SplitJoin([x], ',');
    assert Join([x], ',') == x;
    assert Split(x, ',') == [x];
    assert [x][..0] == [];
    assert Stored(s.listeners, s.queue, [], l) == s.listeners;
    assert Immediate(s.queue, [], l) == [];
    var registered := Registered(s, x, Some(l));
    assert registered.listeners == s.listeners[x := l];
    assert registered.events == s.events;
    assert s.listeners[x := l] - {x} == s.listeners;
    var announced := Handled(s, x);
    assert announced.queue == s.queue + [x];
    assert Stored(s.listeners, announced.queue, [x], l) == s.listeners;
    assert Immediate(announced.queue, [x], l) == [Listened(l, x)];
  }

  /** After a clear no earlier listener can run: every notification is queued. */
  lemma ClearedForgetsListeners(s: Registry, name: Label)
    ensures Handled(Cleared(s), name) == Registry([], map[], [name], s.events)
  {
  }

  /** Two clears in a row: the second one deletes nothing and leaves the registry as it is. */
  lemma ClearTwice(s: Registry)
    ensures Teardown(Cleared(s).temporary) == []
    ensures Cleared(Cleared(s)) == Cleared(s)
  {
  }

  /**
   * Every label of a creation is tracked even without a listener, the first one is returned,
   * the labels are deleted newest first, and a second clear deletes nothing.
   */
  method ClearTwiceDeletesOnce(a: Label, b: Label) returns (first: Label, log: seq<HostCall>)
    requires ',' !in a && ',' !in b
    ensures first == a
    ensures log == [Deleted(b), Deleted(a)]
  {
    SplitPair(a, b, ',');
    var api := new Api((log: seq<HostCall>, command: string) => NotAString);
    var t := new Tracker(api);
    first := t.RegisterTemporaryLabels(a + "," + b, None);
    assert t.temporaryLabels == [a, b];
    TeardownPair(a, b);
    t.ClearDivisions(2);
    assert api.log == [Deleted(b), Deleted(a)];
    t.ClearDivisions(2);
    log := api.log;
  }

  /** A listener runs once whichever notification comes first, and a repeated notification only queues. */
  method AddedThenUpdated(x: Label, l: ListenerId) returns (calls: seq<Event>, queued: seq<Label>)
    requires ',' !in x
    ensures calls == [Listened(l, x)]
    ensures queued == [x]
  {
    SplitSingle(x, ',');
    var api := new Api((log: seq<HostCall>, command: string) => NotAString);
    var t := new Tracker(api);
    var first := t.RegisterTemporaryLabels(x, Some(l));
    assert [x][..0] == [];
    var empty: map<Label, ListenerId> := map[];
    assert Stored(empty, [], [], l) == empty;
    assert Stored(empty, [], [x], l) == map[x := l];
    assert Immediate([], [x], l) == [];
    assert t.aliveListenerByLabel == map[x := l] && t.events == [];
    t.Notify(ObjectAdded, x);
    t.Notify(ObjectUpdated, x);
    calls, queued := t.events, t.unhandledAliveCallLabels;
  }
}
