/**
 * Label tracking and liveness routing of the Babel-compiled applet script
 * (`mvt_applet/geogebra_javascript.js`): `executeCreation`, the "object added" listener
 * and `deleteTemporaryObjects`, over the three structures they share.
 *
 * A promise returned by `executeCreation` is modelled by its state right after the call
 * (rejected, already resolved, or pending); the closure that later resolves a pending one is
 * the datum `ResolveMain(main)` stored in the listener map, and resolving it appends
 * `Resolved(main)` to the tracker's event log.
 */
module AppletTracker {
  import opened Wrappers
  import opened Host
  import opened Strings
  import opened Liveness

  /** A value of `aliveListenerByLabel`. */
  datatype Continuation =
    | ResolveMain(main: Label)         // the closure that resolves the creation's promise with its main label
    | Secondary(listener: ListenerId)  // the caller's `secondaryAliveListener`

  /** Why a creation promise is rejected. */
  datatype Rejection =
    | IllegalCommandCount(command: string)  // the command holds a line break
    | EvaluationFailed(command: string)     // the host returned a non-string

  /** The state of the promise `executeCreation` returns, as the call leaves it. */
  datatype Creation = Rejected(reason: Rejection) | ResolvedNow(main: Label) | Pending(main: Label)

  /** What running a stored continuation for `added` amounts to. */
  function Fire(k: Continuation, added: Label): (e: Event)
    ensures k.ResolveMain? ==> e == Resolved(k.main)
    ensures k.Secondary? ==> e == Listened(k.listener, added)
  {
    match k
    case ResolveMain(main) => Resolved(main)
    case Secondary(l) => Listened(l, added)
  }

  /** The secondary labels that are registered: only those of a creation given a listener. */
  function Secondaries(created: seq<Label>, listener: Option<ListenerId>): seq<Label>
    requires |created| >= 1
  {
    if listener.Some? then created[1..] else []
  }

  /** The listener calls made at once for secondary labels, if a listener was supplied. */
  function SecondaryCalls(queue: seq<Label>, secondaries: seq<Label>, listener: Option<ListenerId>): seq<Event>
  {
    if listener.Some? then Immediate(queue, secondaries, listener.value) else []
  }

  /** The listener map after one successful creation whose main label is `main`. */
  function Registered(m: map<Label, Continuation>, queue: seq<Label>, secondaries: seq<Label>,
                      listener: Option<ListenerId>, main: Label): map<Label, Continuation>
  {
    var withSecondaries := if listener.Some? then Stored(m, queue, secondaries, Secondary(listener.value)) else m;
    if main in queue then withSecondaries else withSecondaries[main := ResolveMain(main)]
  }

  class Tracker {
    const api: Api
    var temporaryLabels: seq<Label>
    var unhandledAliveCallLabels: seq<Label>
    var aliveListenerByLabel: map<Label, Continuation>
    /** The continuations run so far, in order. */
    var events: seq<Event>

    constructor (api: Api)
      ensures this.api == api
      ensures temporaryLabels == [] && unhandledAliveCallLabels == []
      ensures aliveListenerByLabel == map[] && events == []
    {
      this.api := api;
      temporaryLabels := [];
      unhandledAliveCallLabels := [];
      aliveListenerByLabel := map[];
      events := [];
    }

    /**
     * The labels a command creates when the host is in the state `log` leaves it: the
     * comma-split answer, or nothing when the command is refused or the answer is no string.
     */
    ghost function Created(log: seq<HostCall>, command: string): (r: Option<seq<Label>>)
      ensures r.Some? ==> |r.value| >= 1
    {
      if '\n' in command then None
      else match api.evaluate(log, command)
        case NotAString => None
        case Labels(text) => Some(Split(text, ','))
    }

    /**
     * `executeCreation(command, secondaryAliveListener, isPermanent)`. Only `isPermanent ===
     * true` keeps the labels out of the registry, hence a `bool`; a listener that is not a
     * function is `None`.
     */
    method ExecuteCreation(command: string, secondaryAliveListener: Option<ListenerId>, isPermanent: bool)
      returns (creation: Creation)
      modifies this, api
      ensures '\n' in command ==> creation == Rejected(IllegalCommandCount(command)) && unchanged(this, api)
      ensures '\n' !in command ==> api.log == old(api.log) + [Evaluated(command)]
      ensures '\n' !in command && api.evaluate(old(api.log), command).NotAString? ==>
                creation == Rejected(EvaluationFailed(command)) && unchanged(this)
      ensures Created(old(api.log), command).Some? ==>
                var created := Created(old(api.log), command).value;
                temporaryLabels == old(temporaryLabels)
                  + (if isPermanent then [] else [created[0]] + Secondaries(created, secondaryAliveListener))
      ensures Created(old(api.log), command).Some? ==>
                unhandledAliveCallLabels == old(unhandledAliveCallLabels)
      ensures Created(old(api.log), command).Some? ==>
                var created := Created(old(api.log), command).value;
                aliveListenerByLabel == Registered(old(aliveListenerByLabel), old(unhandledAliveCallLabels),
                                                   Secondaries(created, secondaryAliveListener),
                                                   secondaryAliveListener, created[0])
      ensures Created(old(api.log), command).Some? ==>
                var created := Created(old(api.log), command).value;
                events == old(events)
                  + SecondaryCalls(old(unhandledAliveCallLabels), Secondaries(created, secondaryAliveListener),
                                   secondaryAliveListener)
                  + (if created[0] in old(unhandledAliveCallLabels) then [Resolved(created[0])] else [])
      ensures Created(old(api.log), command).Some? ==>
                var main := Created(old(api.log), command).value[0];
                creation == if main in old(unhandledAliveCallLabels) then ResolvedNow(main) else Pending(main)
    {
      if '\n' in command {
        creation := Rejected(IllegalCommandCount(command));
        return;
      }
      var evaluationResult := api.EvalCommandGetLabels(command);
      if evaluationResult.NotAString? {
        creation := Rejected(EvaluationFailed(command));
        return;
      }
      // `split` never yields an empty array, so the "no objects created" rejection cannot happen.
      var createdLabels := Split(evaluationResult.text, ',');
      assert Created(old(api.log), command) == Some(createdLabels);
      creation := TrackCreated(createdLabels, secondaryAliveListener, isPermanent);
    }

    /**
     * The part of `executeCreation` after a successful evaluation: track the main label and,
     * with a listener, the secondary ones; then resolve at once if the main label was already
     * announced, or store the resolving continuation.
     */
    method TrackCreated(createdLabels: seq<Label>, secondaryAliveListener: Option<ListenerId>, isPermanent: bool)
      returns (creation: Creation)
      requires |createdLabels| >= 1
      modifies this
      ensures temporaryLabels == old(temporaryLabels)
                + (if isPermanent then [] else [createdLabels[0]] + Secondaries(createdLabels, secondaryAliveListener))
      ensures unhandledAliveCallLabels == old(unhandledAliveCallLabels)
      ensures aliveListenerByLabel == Registered(old(aliveListenerByLabel), old(unhandledAliveCallLabels),
                                                 Secondaries(createdLabels, secondaryAliveListener),
                                                 secondaryAliveListener, createdLabels[0])
      ensures events == old(events)
                + SecondaryCalls(old(unhandledAliveCallLabels), Secondaries(createdLabels, secondaryAliveListener),
                                 secondaryAliveListener)
                + (if createdLabels[0] in old(unhandledAliveCallLabels) then [Resolved(createdLabels[0])] else [])
      ensures creation == if createdLabels[0] in old(unhandledAliveCallLabels) then ResolvedNow(createdLabels[0])
                          else Pending(createdLabels[0])
    {
      var mainLabel := createdLabels[0];
      if !isPermanent {
        temporaryLabels := temporaryLabels + [mainLabel];
      }
      if secondaryAliveListener.Some? {
        RegisterSecondaries(createdLabels[1..], secondaryAliveListener.value, isPermanent);
      }
      if mainLabel in unhandledAliveCallLabels {
        events := events + [Resolved(mainLabel)];
        creation := ResolvedNow(mainLabel);
        return;
      }
      aliveListenerByLabel := aliveListenerByLabel[mainLabel := ResolveMain(mainLabel)];
      creation := Pending(mainLabel);
    }

    /** The `for` loop over the secondary labels of one creation, in order. */
    method RegisterSecondaries(secondaries: seq<Label>, listener: ListenerId, isPermanent: bool)
      modifies this
      ensures unhandledAliveCallLabels == old(unhandledAliveCallLabels)
      ensures temporaryLabels == old(temporaryLabels) + (if isPermanent then [] else secondaries)
      ensures aliveListenerByLabel
              == Stored(old(aliveListenerByLabel), unhandledAliveCallLabels, secondaries, Secondary(listener))
      ensures events == old(events) + Immediate(unhandledAliveCallLabels, secondaries, listener)
    {
      var i := 0;
      while i < |secondaries|
        invariant 0 <= i <= |secondaries|
        invariant unhandledAliveCallLabels == old(unhandledAliveCallLabels)
        invariant temporaryLabels == old(temporaryLabels) + (if isPermanent then [] else secondaries[..i])
        invariant aliveListenerByLabel
                  == Stored(old(aliveListenerByLabel), unhandledAliveCallLabels, secondaries[..i], Secondary(listener))
        invariant events == old(events) + Immediate(unhandledAliveCallLabels, secondaries[..i], listener)
      {
        var secondaryLabel := secondaries[i];
        assert secondaries[..i + 1][..i] == secondaries[..i];
        if !isPermanent {
          temporaryLabels := temporaryLabels + [secondaryLabel];
        }
        if secondaryLabel in unhandledAliveCallLabels {
          events := events + [Listened(listener, secondaryLabel)];
        } else {
          aliveListenerByLabel := aliveListenerByLabel[secondaryLabel := Secondary(listener)];
        }
        i := i + 1;
      }
      assert secondaries[..i] == secondaries;
    }

    /**
     * The listener given to `api.registerAddListener`: a stored continuation is taken out of
     * the map and then run with the label; an unexpected label is queued.
     */
    method OnObjectAdded(addedLabel: Label)
      modifies this
      ensures temporaryLabels == old(temporaryLabels)
      ensures addedLabel in old(aliveListenerByLabel) ==>
                && aliveListenerByLabel == old(aliveListenerByLabel) - {addedLabel}
                && events == old(events) + [Fire(old(aliveListenerByLabel)[addedLabel], addedLabel)]
                && unhandledAliveCallLabels == old(unhandledAliveCallLabels)
      ensures addedLabel !in old(aliveListenerByLabel) ==>
                && aliveListenerByLabel == old(aliveListenerByLabel)
                && events == old(events)
                && unhandledAliveCallLabels == old(unhandledAliveCallLabels) + [addedLabel]
    {
      if addedLabel in aliveListenerByLabel {
        var listener := aliveListenerByLabel[addedLabel];
        aliveListenerByLabel := aliveListenerByLabel - {addedLabel};
        events := events + [Fire(listener, addedLabel)];
        return;
      }
      unhandledAliveCallLabels := unhandledAliveCallLabels + [addedLabel];
    }

    /** `deleteTemporaryObjects`: delete, newest first, every tracked label and forget all state. */
    method DeleteTemporaryObjects()
      modifies this, api
      ensures api.log == old(api.log) + Teardown(old(temporaryLabels))
      ensures temporaryLabels == [] && unhandledAliveCallLabels == [] && aliveListenerByLabel == map[]
      ensures events == old(events)
    {
      DeleteAll(api, temporaryLabels);
      aliveListenerByLabel := map[];
      unhandledAliveCallLabels := [];
      temporaryLabels := [];
    }
  }

  /**
   * One creation stores `ResolveMain` for its main label unless that label was already
   * announced, stores the listener for each unannounced secondary label when a listener is
   * given, and leaves every other entry of the map as it was: an announced label, main or
   * secondary, gets no new entry.
   */
  lemma RegisteredEntries(m: map<Label, Continuation>, queue: seq<Label>, secondaries: seq<Label>,
                          listener: Option<ListenerId>, main: Label)
    ensures var r := Registered(m, queue, secondaries, listener, main);
            && (main !in queue ==> main in r && r[main] == ResolveMain(main))
            && (listener.Some? ==> forall x :: x in secondaries && x !in queue && x != main ==>
                                                x in r && r[x] == Secondary(listener.value))
            && (forall x :: x != main && (listener.None? || x !in secondaries) ==>
                              (x in r <==> x in m) && (x in m ==> r[x] == m[x]))
            && (listener.Some? ==> forall x :: x in secondaries && x in queue && x != main ==>
                                                (x in r <==> x in m) && (x in m ==> r[x] == m[x]))
            && (main in queue && (listener.None? || main !in secondaries) ==>
                  (main in r <==> main in m) && (main in m ==> r[main] == m[main]))
  {
    if listener.Some? {
      StoredEntries(m, queue, secondaries, Secondary(listener.value));
    }
  }

  /** A host that answers every command with `text`. */
  function Answering(text: string): (seq<HostCall>, string) -> EvalResult
  {
    (log: seq<HostCall>, command: string) => Labels(text)
  }

  /**
   * Created first, announced later: a one-label creation is left pending with its resolving
   * continuation stored, and the "object added" call for the label then resolves it. In the
   * end exactly one `Resolved` is added and the map and the queue are as they were.
   */
  method CreatedThenAnnounced(t: Tracker, command: string, x: Label) returns (creation: Creation)
    requires '\n' !in command && ',' !in x
    requires x !in t.aliveListenerByLabel && x !in t.unhandledAliveCallLabels
    requires t.api.evaluate(t.api.log, command) == Labels(x)
    modifies t, t.api
    ensures creation == Pending(x)
    ensures t.events == old(t.events) + [Resolved(x)]
    ensures t.aliveListenerByLabel == old(t.aliveListenerByLabel)
    ensures t.unhandledAliveCallLabels == old(t.unhandledAliveCallLabels)
    ensures t.temporaryLabels == old(t.temporaryLabels) + [x]
  {
    SplitSingle(x, ',');
    creation := t.ExecuteCreation(command, None, false);
    assert t.aliveListenerByLabel == old(t.aliveListenerByLabel)[x := ResolveMain(x)];
    t.OnObjectAdded(x);
    assert t.aliveListenerByLabel == old(t.aliveListenerByLabel);
  }

  /**
   * Announced first, created later: the "object added" call queues the label, and the
   * creation then resolves at once. The same single `Resolved` is added as in the other order
   * and the map is as it was; the label stays queued.
   */
  method AnnouncedThenCreated(t: Tracker, command: string, x: Label) returns (creation: Creation)
    requires '\n' !in command && ',' !in x
    requires x !in t.aliveListenerByLabel
    requires t.api.evaluate(t.api.log, command) == Labels(x)
    modifies t, t.api
    ensures creation == ResolvedNow(x)
    ensures t.events == old(t.events) + [Resolved(x)]
    ensures t.aliveListenerByLabel == old(t.aliveListenerByLabel)
    ensures t.unhandledAliveCallLabels == old(t.unhandledAliveCallLabels) + [x]
    ensures t.temporaryLabels == old(t.temporaryLabels) + [x]
  {
    SplitSingle(x, ',');
    t.OnObjectAdded(x);
    creation := t.ExecuteCreation(command, None, false);
  }

  /**
   * A three-label creation with a listener, followed by the "object added" calls for the two
   * secondary labels and then the main one: the promise stays pending until the main label
   * comes alive, and each secondary label reaches the listener exactly once, whether its
   * call was already queued before the creation or comes after it. The map ends as it began.
   */
  method SecondariesOnce(t: Tracker, command: string, a: Label, b: Label, c: Label, l: ListenerId)
    returns (creation: Creation)
    requires '\n' !in command && ',' !in a && ',' !in b && ',' !in c
    requires a != b && a != c && b != c
    requires a !in t.aliveListenerByLabel && b !in t.aliveListenerByLabel && c !in t.aliveListenerByLabel
    requires a !in t.unhandledAliveCallLabels && c !in t.unhandledAliveCallLabels
    requires t.api.evaluate(t.api.log, command) == Labels(Join([a, b, c], ','))
    modifies t, t.api
    ensures creation == Pending(a)
    ensures t.events == old(t.events) + [Listened(l, b), Listened(l, c), Resolved(a)]
    ensures t.aliveListenerByLabel == old(t.aliveListenerByLabel)
    ensures t.unhandledAliveCallLabels
            == old(t.unhandledAliveCallLabels) + (if b in old(t.unhandledAliveCallLabels) then [b] else [])
    ensures t.temporaryLabels == old(t.temporaryLabels) + [a, b, c]
  {
    var m, queued := t.aliveListenerByLabel, b in t.unhandledAliveCallLabels;
    creation := CreateThree(t, command, a, b, c, l);
    AnnounceThree(t, m, a, b, c, l, queued);
  }

  /** The creation half of `SecondariesOnce`: `b` is called at once if it was queued, else stored. */
  method CreateThree(t: Tracker, command: string, a: Label, b: Label, c: Label, l: ListenerId)
    returns (creation: Creation)
    requires '\n' !in command && ',' !in a && ',' !in b && ',' !in c
    requires a != b && a != c && b != c && a !in t.unhandledAliveCallLabels && c !in t.unhandledAliveCallLabels
    requires t.api.evaluate(t.api.log, command) == Labels(Join([a, b, c], ','))
    modifies t, t.api
    ensures creation == Pending(a)
    ensures t.aliveListenerByLabel
            == (if b in old(t.unhandledAliveCallLabels) then old(t.aliveListenerByLabel)
                else old(t.aliveListenerByLabel)[b := Secondary(l)])[c := Secondary(l)][a := ResolveMain(a)]
    ensures t.events == old(t.events) + (if b in old(t.unhandledAliveCallLabels) then [Listened(l, b)] else [])
    ensures t.unhandledAliveCallLabels == old(t.unhandledAliveCallLabels)
    ensures t.temporaryLabels == old(t.temporaryLabels) + [a, b, c]
  {
    SplitJoin([a, b, c], ',');
    assert [a, b, c][1..] == [b, c];
    ThreeRegistered(t.aliveListenerByLabel, t.unhandledAliveCallLabels, a, b, c, l);
    creation := t.ExecuteCreation(command, Some(l), false);
  }

  /**
   * The "object added" calls for `b`, `c` and then `a` after the creation of `a,b,c` with
   * the listener `l`; `queued` says whether `b` was announced before the creation.
   */
  method AnnounceThree(t: Tracker, m: map<Label, Continuation>, a: Label, b: Label, c: Label, l: ListenerId,
                       queued: bool)
    requires a != b && a != c && b != c && a !in m && b !in m && c !in m
    requires t.aliveListenerByLabel == (if queued then m else m[b := Secondary(l)])[c := Secondary(l)][a := ResolveMain(a)]
    modifies t
    ensures t.events == old(t.events) + (if queued then [] else [Listened(l, b)]) + [Listened(l, c), Resolved(a)]
    ensures t.aliveListenerByLabel == m
    ensures t.unhandledAliveCallLabels == old(t.unhandledAliveCallLabels) + (if queued then [b] else [])
    ensures t.temporaryLabels == old(t.temporaryLabels)
  {
    if queued {
      t.OnObjectAdded(b);
    } else {
      t.OnObjectAdded(b);
      assert t.events == old(t.events) + [Listened(l, b)];
      assert t.aliveListenerByLabel == m[c := Secondary(l)][a := ResolveMain(a)] by {
        Forget(m[b := Secondary(l)][c := Secondary(l)], a, b, ResolveMain(a));
        Forget(m[b := Secondary(l)], c, b, Secondary(l));
        Forget(m, b, b, Secondary(l));
      }
    }
    t.OnObjectAdded(c);
    assert t.aliveListenerByLabel == m[a := ResolveMain(a)] by {
      Forget(m[c := Secondary(l)], a, c, ResolveMain(a));
      Forget(m, c, c, Secondary(l));
    }
    t.OnObjectAdded(a);
    assert t.aliveListenerByLabel == m by { Forget(m, a, a, ResolveMain(a)); }
  }

  /** Taking `x` out after storing `y` is storing `y` after taking `x` out, or, when `x == y` is new, nothing. */
  lemma Forget(m: map<Label, Continuation>, y: Label, x: Label, k: Continuation)
    requires x == y ==> x !in m
    ensures x != y ==> m[y := k] - {x} == (m - {x})[y := k]
    ensures x == y ==> m[y := k] - {x} == m
  {
  }

  /** The registration and the immediate calls of a creation of `a,b,c` with a listener. */
  lemma ThreeRegistered(m: map<Label, Continuation>, queue: seq<Label>, a: Label, b: Label, c: Label, l: ListenerId)
    requires a != b && a != c && b != c && a !in queue && c !in queue
    ensures Registered(m, queue, [b, c], Some(l), a)
            == (if b in queue then m else m[b := Secondary(l)])[c := Secondary(l)][a := ResolveMain(a)]
    ensures Immediate(queue, [b, c], l) == if b in queue then [Listened(l, b)] else []
  {
    assert [b, c][..1] == [b] && [b][..0] == [];
    assert Immediate(queue, [b], l) == if b in queue then [Listened(l, b)] else [];
    assert Stored(m, queue, [b], Secondary(l)) == if b in queue then m else m[b := Secondary(l)];
  }

  /** A command with a line break is refused before the host is asked, and nothing is tracked. */
  method LineBreakRefused(command: string) returns (creation: Creation, log: seq<HostCall>, tracked: seq<Label>)
    requires '\n' in command
    ensures creation == Rejected(IllegalCommandCount(command))
    ensures log == [] && tracked == []
  {
    var api := new Api(Answering("a"));
    var t := new Tracker(api);
    creation := t.ExecuteCreation(command, Some(0), false);
    log, tracked := api.log, t.temporaryLabels;
  }

  /** A host answer that is no string rejects the creation after the one call, and nothing is tracked. */
  method NonStringRefused(command: string) returns (creation: Creation, log: seq<HostCall>, tracked: seq<Label>)
    requires '\n' !in command
    ensures creation == Rejected(EvaluationFailed(command))
    ensures log == [Evaluated(command)] && tracked == []
  {
    var api := new Api((log: seq<HostCall>, command: string) => NotAString);
    var t := new Tracker(api);
    creation := t.ExecuteCreation(command, Some(0), false);
    log, tracked := api.log, t.temporaryLabels;
  }

  /** The labels of a permanent creation are never tracked, so a teardown leaves them alone. */
  method PermanentSurvivesTeardown(a: Label, b: Label) returns (log: seq<HostCall>)
    requires ',' !in a && ',' !in b
    ensures log == [Evaluated("P")]
  {
    SplitPair(a, b, ',');
    var api := new Api(Answering(a + "," + b));
    var t := new Tracker(api);
    var creation := t.ExecuteCreation("P", Some(0), true);
    assert t.temporaryLabels == [];
    t.DeleteTemporaryObjects();
    log := api.log;
  }

  /**
   * With a listener both labels of a two-label creation are tracked and deleted newest first,
   * and a second teardown deletes nothing.
   */
  method TeardownWithListener(a: Label, b: Label) returns (log: seq<HostCall>)
    requires ',' !in a && ',' !in b
    ensures log == [Evaluated("C"), Deleted(b), Deleted(a)]
  {
    SplitPair(a, b, ',');
    var api := new Api(Answering(a + "," + b));
    var t := new Tracker(api);
    var creation := t.ExecuteCreation("C", Some(0), false);
    assert t.temporaryLabels == [a, b];
    TeardownPair(a, b);
    t.DeleteTemporaryObjects();
    assert api.log == [Evaluated("C"), Deleted(b), Deleted(a)];
    t.DeleteTemporaryObjects();
    log := api.log;
  }

  /** Without a listener only the main label of a two-label creation is tracked; the other survives a teardown. */
  method TeardownWithoutListener(a: Label, b: Label) returns (log: seq<HostCall>)
    requires ',' !in a && ',' !in b
    ensures log == [Evaluated("C"), Deleted(a)]
  {
    SplitPair(a, b, ',');
    var api := new Api(Answering(a + "," + b));
    var t := new Tracker(api);
    var creation := t.ExecuteCreation("C", None, false);
    assert t.temporaryLabels == [a];
    t.DeleteTemporaryObjects();
    log := api.log;
  }
}
