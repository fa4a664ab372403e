/** The subscription registry behind every event of the library. An `EventSource` keeps a
    list of subscriptions, each a weak lifetime tracker with a handler; `connect` wraps the
    user's handler so that it runs only while its context can still be locked; `emit` sweeps
    the list once, erasing the subscriptions whose tracker has expired and taking a snapshot of
    the remaining handlers, and then invokes the snapshot in order.

    Trackers are modelled by identities and their liveness by sets of live identities. The
    library runs `emit` under a mutex (the sweep) and then outside it (the invocations), while
    other threads and the handlers themselves may expire trackers or subscribe again; one
    emission's view of that world is an `Interleaving`.

    `emit` hands its argument to every snapshot handler with `std::forward`. For an argument
    taken by value, the first handler's `std::function` parameter is initialised by moving
    it, so every later handler receives what is left after the move: `moved` below. For the
    library's enumerations, spans, booleans and references, what is left is the argument
    itself; for a `std::shared_ptr` it is null. */
module Events {

  import opened Options

  /** The identity of a `std::weak_ptr` tracker (its control block). */
  type Tracker = nat

  /** The identity of a user handler. */
  type HandlerId = nat

  /** The `std::function` that `connect` stores: the user handler guarded by its context. */
  datatype Handler = Guarded(context: Tracker, user: HandlerId)

  datatype Subscription = Subscription(tracker: Tracker, handler: Handler)

  /** One invocation of a user handler: `handler(*locked, args...)`. */
  datatype Call<A> = Call(user: HandlerId, context: Tracker, arg: A)

  /** What the rest of the program does during one emission: which trackers are live when the
      list is swept, which are live when the k-th snapshot handler runs, and which
      subscriptions the k-th snapshot handler makes on this same source while it runs. */
  datatype Interleaving = Interleaving(
    aliveAtSweep: set<Tracker>,
    aliveAtCall: nat -> set<Tracker>,
    subscribedBy: nat -> seq<Subscription>)

  /** The lambda `connect` builds: lock the context, and call the user handler only if that
      succeeds. */
  function Invoke<A>(h: Handler, arg: A, alive: set<Tracker>): Option<Call<A>>
  {
    if h.context in alive then Some(Call(h.user, h.context, arg)) else None
  }

  /** The subscriptions a sweep keeps, in their original order. */
  function Live(subs: seq<Subscription>, alive: set<Tracker>): seq<Subscription>
    decreases |subs|
  {
    if subs == [] then []
    else
      var last := subs[|subs| - 1];
      Live(subs[..|subs| - 1], alive) + (if last.tracker in alive then [last] else [])
  }

  /** The handlers of a list of subscriptions, in order. */
  function Targets(subs: seq<Subscription>): seq<Handler>
    decreases |subs|
  {
    if subs == [] then [] else Targets(subs[..|subs| - 1]) + [subs[|subs| - 1].handler]
  }

  /** The argument the k-th snapshot handler receives: the emitted one for the first, and
      what the first handler's parameter left behind for every later one. */
  function ArgAt<A>(k: nat, arg: A, moved: A): A
  {
    if k == 0 then arg else moved
  }

  /** The invocations a snapshot produces when its k-th handler runs with the liveness
      `aliveAt(k)`. */
  function Dispatch<A>(targets: seq<Handler>, arg: A, moved: A, aliveAt: nat -> set<Tracker>): seq<Call<A>>
    decreases |targets|
  {
    if targets == [] then []
    else
      var k := |targets| - 1;
      Dispatch(targets[..k], arg, moved, aliveAt) + (match Invoke(targets[k], ArgAt(k, arg, moved), aliveAt(k))
                                                     case Some(c) => [c]
                                                     case None => [])
  }

  /** The snapshot positions whose handler finds its context live and so calls its user
      handler, in snapshot order. */
  function Fired(targets: seq<Handler>, aliveAt: nat -> set<Tracker>): seq<nat>
    decreases |targets|
  {
    if targets == [] then []
    else
      var k := |targets| - 1;
      Fired(targets[..k], aliveAt) + (if targets[k].context in aliveAt(k) then [k] else [])
  }

  /** The subscriptions made by the snapshot handlers that actually ran. */
  function Joined(targets: seq<Handler>, aliveAt: nat -> set<Tracker>, joins: nat -> seq<Subscription>): seq<Subscription>
    decreases |targets|
  {
    if targets == [] then []
    else
      var k := |targets| - 1;
      Joined(targets[..k], aliveAt, joins) + (if targets[k].context in aliveAt(k) then joins(k) else [])
  }

  /** What `emit(arg)` does to the list `before`, leaving `after` and producing `calls`, when
      moving the argument leaves `moved` behind. */
  ghost predicate Emitted<A>(before: seq<Subscription>, after: seq<Subscription>, arg: A, moved: A,
                             w: Interleaving, calls: seq<Call<A>>)
  {
    var kept := Live(before, w.aliveAtSweep);
    var targets := Targets(kept);
    && after == kept + Joined(targets, w.aliveAtCall, w.subscribedBy)
    && calls == Dispatch(targets, arg, moved, w.aliveAtCall)
  }

  /** Reference semantics of one emission when no tracker expires after the sweep and every
      subscription was made by `connect`: each live subscriber, in subscription order, is
      called once with the emitted argument. */
  function Notify<A>(subs: seq<Subscription>, alive: set<Tracker>, arg: A): seq<Call<A>>
    decreases |subs|
  {
    if subs == [] then []
    else
      (if subs[0].tracker in alive then [Call(subs[0].handler.user, subs[0].tracker, arg)] else [])
      + Notify(subs[1..], alive, arg)
  }

  /** `subscribe_internal` stores the tracker beside the handler; `connect` passes the
      handler's own context as the tracker. */
  ghost predicate MadeByConnect(subs: seq<Subscription>)
  {
    forall i :: 0 <= i < |subs| ==> subs[i].tracker == subs[i].handler.context
  }

  class EventSource<A> {

    var subscriptions: seq<Subscription>

    constructor ()
      ensures subscriptions == []
    {
      subscriptions := [];
    }

    method SubscribeInternal(tracker: Tracker, handler: Handler)
      modifies this
      ensures subscriptions == old(subscriptions) + [Subscription(tracker, handler)]
    {
      subscriptions := subscriptions + [Subscription(tracker, handler)];
    }

    /** `Event::connect`: subscribes the user handler, guarded by `context`, with `context` as
        the tracker. */
    method Connect(context: Tracker, user: HandlerId)
      modifies this
      ensures subscriptions == old(subscriptions) + [Subscription(context, Guarded(context, user))]
      ensures MadeByConnect(old(subscriptions)) ==> MadeByConnect(subscriptions)
    {
      SubscribeInternal(context, Guarded(context, user));
    }

    /** `Event::operator()`: the same as `connect`. */
    method Subscribe(context: Tracker, user: HandlerId)
      modifies this
      ensures subscriptions == old(subscriptions) + [Subscription(context, Guarded(context, user))]
      ensures MadeByConnect(old(subscriptions)) ==> MadeByConnect(subscriptions)
    {
      Connect(context, user);
    }

    /** The locked part of `emit`: erase, in place, every subscription whose tracker has
        expired, and collect the handlers of the others. */
    method Sweep(alive: set<Tracker>) returns (targets: seq<Handler>)
      modifies this
      ensures subscriptions == Live(old(subscriptions), alive)
      ensures targets == Targets(subscriptions)
    {
      ghost var orig := subscriptions;
      ghost var j := 0;
      ghost var done: seq<Subscription> := [];
      targets := [];
      var i := 0;
      while i < |subscriptions|
        invariant 0 <= j <= |orig|
        invariant done == Live(orig[..j], alive)
        invariant subscriptions == done + orig[j..]
        invariant i == |done|
        invariant targets == Targets(done)
        decreases |subscriptions| - i
      {
        if subscriptions[i].tracker !in alive {
          EraseStep(orig, j, done, alive);
          subscriptions := subscriptions[..i] + subscriptions[i + 1..];
        } else {
          KeepStep(orig, j, done, alive);
          targets := targets + [subscriptions[i].handler];
          i := i + 1;
          done := done + [orig[j]];
        }
        j := j + 1;
      }
      assert orig[..j] == orig;
    }

    /** `emit(arg)`: sweep under the lock, then run the snapshot. A handler whose context can
        no longer be locked does nothing; a handler that runs may subscribe on this source,
        which appends to the list but not to the snapshot. The first handler, live or not,
        takes the argument by move, leaving `moved` for the others. */
    method Emit(arg: A, moved: A, w: Interleaving) returns (calls: seq<Call<A>>)
      modifies this
      ensures Emitted(old(subscriptions), subscriptions, arg, moved, w, calls)
    {
      var targets := Sweep(w.aliveAtSweep);
      ghost var kept := subscriptions;
      var args := arg;
      calls := [];
      var k := 0;
      while k < |targets|
        invariant 0 <= k <= |targets|
        invariant args == ArgAt(k, arg, moved)
        invariant calls == Dispatch(targets[..k], arg, moved, w.aliveAtCall)
        invariant subscriptions == kept + Joined(targets[..k], w.aliveAtCall, w.subscribedBy)
      {
        EmitStep(targets, k, arg, moved, w);
        var c := Invoke(targets[k], args, w.aliveAtCall(k));
        args := moved;
        if c.Some? {
          calls := calls + [c.value];
          subscriptions := subscriptions + w.subscribedBy(k);
        }
        k := k + 1;
      }
      assert targets[..k] == targets;
    }

    /** `emit` as its for-loop evidently means it, handing every handler a copy of the
        argument (`handler(args...)`): every call carries the emitted argument. For an argument
        that moving leaves unchanged this is `Emit` itself. */
    method EmitCopying(arg: A, w: Interleaving) returns (calls: seq<Call<A>>)
      modifies this
      ensures Emitted(old(subscriptions), subscriptions, arg, arg, w, calls)
      ensures forall c :: c in calls ==> c.arg == arg
    {
      calls := Emit(arg, arg, w);
      CopyingCallsCarryTheArgument(Targets(Live(old(subscriptions), w.aliveAtSweep)), arg, w.aliveAtCall);
    }
  }

  // ---------------------------------------------------------------------------------------
  // The sweep

  lemma LiveSnoc(p: seq<Subscription>, s: Subscription, alive: set<Tracker>)
    ensures Live(p + [s], alive) == Live(p, alive) + (if s.tracker in alive then [s] else [])
  {
    assert (p + [s])[..|p|] == p;
  }

  lemma SweepStep(subs: seq<Subscription>, j: nat, alive: set<Tracker>)
    requires j < |subs|
    ensures Live(subs[..j + 1], alive) == Live(subs[..j], alive) + (if subs[j].tracker in alive then [subs[j]] else [])
  {
    assert subs[..j + 1] == subs[..j] + [subs[j]];
    LiveSnoc(subs[..j], subs[j], alive);
  }

  /** One step of the sweep that erases `orig[j]`. */
  lemma EraseStep(orig: seq<Subscription>, j: nat, done: seq<Subscription>, alive: set<Tracker>)
    requires j < |orig| && done == Live(orig[..j], alive)
    requires (done + orig[j..])[|done|].tracker !in alive
    ensures done == Live(orig[..j + 1], alive)
    ensures (done + orig[j..])[..|done|] + (done + orig[j..])[|done| + 1..] == done + orig[j + 1..]
  {
    SweepStep(orig, j, alive);
    var cur := done + orig[j..];
    assert cur[..|done|] == done;
    assert cur[|done| + 1..] == orig[j + 1..];
  }

  /** One step of the sweep that keeps `orig[j]` and adds its handler to the snapshot. */
  lemma KeepStep(orig: seq<Subscription>, j: nat, done: seq<Subscription>, alive: set<Tracker>)
    requires j < |orig| && done == Live(orig[..j], alive)
    requires (done + orig[j..])[|done|].tracker in alive
    ensures (done + orig[j..])[|done|] == orig[j]
    ensures done + [orig[j]] == Live(orig[..j + 1], alive)
    ensures Targets(done + [orig[j]]) == Targets(done) + [orig[j].handler]
    ensures done + orig[j..] == (done + [orig[j]]) + orig[j + 1..]
  {
    SweepStep(orig, j, alive);
    TargetsSnoc(done, orig[j]);
    assert orig[j..] == [orig[j]] + orig[j + 1..];
  }

  lemma TargetsSnoc(p: seq<Subscription>, s: Subscription)
    ensures Targets(p + [s]) == Targets(p) + [s.handler]
  {
    assert (p + [s])[..|p|] == p;
  }

  /** A subscription survives the sweep exactly when it was registered and its tracker is
      live. */
  lemma {:induction false} LiveIsTheUnexpired(subs: seq<Subscription>, alive: set<Tracker>, s: Subscription)
    ensures s in Live(subs, alive) <==> s in subs && s.tracker in alive
    decreases |subs|
  {
    if subs != [] {
      var init := subs[..|subs| - 1];
      LiveIsTheUnexpired(init, alive, s);
      assert subs == init + [subs[|subs| - 1]];
    }
  }

  /** The sweep works piece by piece, so it keeps the relative order of what it keeps. */
  lemma {:induction false} LiveDistributes(p: seq<Subscription>, q: seq<Subscription>, alive: set<Tracker>)
    ensures Live(p + q, alive) == Live(p, alive) + Live(q, alive)
    decreases |q|
  {
    if q == [] {
      assert p + q == p;
    } else {
      var init := q[..|q| - 1];
      assert (p + q)[..|p + q| - 1] == p + init;
      LiveDistributes(p, init, alive);
    }
  }

  /** Nothing is erased when no tracker has expired, and a second sweep with the same
      liveness erases nothing more. */
  lemma {:induction false} LiveKeepsAllWhenNoneExpired(subs: seq<Subscription>, alive: set<Tracker>)
    requires forall i :: 0 <= i < |subs| ==> subs[i].tracker in alive
    ensures Live(subs, alive) == subs
    decreases |subs|
  {
    if subs != [] {
      LiveKeepsAllWhenNoneExpired(subs[..|subs| - 1], alive);
    }
  }

  lemma SweepIsIdempotent(subs: seq<Subscription>, alive: set<Tracker>)
    ensures Live(Live(subs, alive), alive) == Live(subs, alive)
  {
    var kept := Live(subs, alive);
    forall i | 0 <= i < |kept|
      ensures kept[i].tracker in alive
    {
      LiveIsTheUnexpired(subs, alive, kept[i]);
    }
    LiveKeepsAllWhenNoneExpired(kept, alive);
  }

  lemma {:induction false} TargetsAreTheHandlers(subs: seq<Subscription>)
    ensures |Targets(subs)| == |subs|
    ensures forall i :: 0 <= i < |subs| ==> Targets(subs)[i] == subs[i].handler
    decreases |subs|
  {
    if subs != [] {
      TargetsAreTheHandlers(subs[..|subs| - 1]);
    }
  }

  // ---------------------------------------------------------------------------------------
  // The invocations

  /** Every invocation comes from one snapshot handler whose context was live when it ran,
      and carries the emitted argument. */
  lemma {:induction false} DispatchCallsOnlyLiveHandlers<A>(targets: seq<Handler>, arg: A, moved: A,
                                                            aliveAt: nat -> set<Tracker>, c: Call<A>)
    requires c in Dispatch(targets, arg, moved, aliveAt)
    ensures exists k :: 0 <= k < |targets| && targets[k].context in aliveAt(k)
                        && c == Call(targets[k].user, targets[k].context, ArgAt(k, arg, moved))
    decreases |targets|
  {
    var k := |targets| - 1;
    var init := targets[..k];
    if c in Dispatch(init, arg, moved, aliveAt) {
      DispatchCallsOnlyLiveHandlers(init, arg, moved, aliveAt, c);
      var k' :| 0 <= k' < |init| && init[k'].context in aliveAt(k')
                && c == Call(init[k'].user, init[k'].context, ArgAt(k', arg, moved));
      assert targets[k'] == init[k'];
    } else {
      assert targets[k].context in aliveAt(k) && c == Call(targets[k].user, targets[k].context, ArgAt(k, arg, moved));
    }
  }

  /** When every snapshot handler's context is live as it runs, each is called exactly once,
      in snapshot order, with the emitted argument. */
  lemma {:induction false} DispatchCallsEveryLiveHandlerInOrder<A>(targets: seq<Handler>, arg: A, moved: A,
                                                                   aliveAt: nat -> set<Tracker>)
    requires forall k :: 0 <= k < |targets| ==> targets[k].context in aliveAt(k)
    ensures |Dispatch(targets, arg, moved, aliveAt)| == |targets|
    ensures forall k :: 0 <= k < |targets| ==>
              Dispatch(targets, arg, moved, aliveAt)[k] == Call(targets[k].user, targets[k].context, ArgAt(k, arg, moved))
    decreases |targets|
  {
    if targets != [] {
      var init := targets[..|targets| - 1];
      DispatchCallsEveryLiveHandlerInOrder(init, arg, moved, aliveAt);
    }
  }

  /** Whatever expires when: the fired positions are exactly the snapshot positions whose
      context is live at their turn, each once, in increasing order, and the j-th call of the
      emission is the j-th fired handler's, with the argument of its position. */
  lemma {:induction false} DispatchCallsEachLiveHandlerOnceInOrder<A>(targets: seq<Handler>, arg: A, moved: A,
                                                                      aliveAt: nat -> set<Tracker>)
    ensures var f := Fired(targets, aliveAt);
            && |Dispatch(targets, arg, moved, aliveAt)| == |f|
            && (forall j :: 0 <= j < |f| ==>
                  f[j] < |targets| && targets[f[j]].context in aliveAt(f[j])
                  && Dispatch(targets, arg, moved, aliveAt)[j]
                     == Call(targets[f[j]].user, targets[f[j]].context, ArgAt(f[j], arg, moved)))
            && (forall j, j' :: 0 <= j < j' < |f| ==> f[j] < f[j'])
            && (forall k :: 0 <= k < |targets| && targets[k].context in aliveAt(k) ==> k in f)
    decreases |targets|
  {
    if targets != [] {
      var k := |targets| - 1;
      var init := targets[..k];
      DispatchCallsEachLiveHandlerOnceInOrder(init, arg, moved, aliveAt);
      var f0 := Fired(init, aliveAt);
      var d0 := Dispatch(init, arg, moved, aliveAt);
      forall i | 0 <= i < k ensures init[i] == targets[i] { }
      if targets[k].context in aliveAt(k) {
        assert Fired(targets, aliveAt) == f0 + [k];
        assert Dispatch(targets, arg, moved, aliveAt)
               == d0 + [Call(targets[k].user, targets[k].context, ArgAt(k, arg, moved))];
      } else {
        assert Fired(targets, aliveAt) == f0;
        assert Dispatch(targets, arg, moved, aliveAt) == d0;
      }
    }
  }

  /** A subscription made by a handler that ran lands in the list after the emission. */
  lemma {:induction false} JoinedHoldsWhatRunningHandlersSubscribed(targets: seq<Handler>, aliveAt: nat -> set<Tracker>,
                                                                   joins: nat -> seq<Subscription>, k: nat, s: Subscription)
    requires k < |targets| && targets[k].context in aliveAt(k) && s in joins(k)
    ensures s in Joined(targets, aliveAt, joins)
    decreases |targets|
  {
    if k < |targets| - 1 {
      var init := targets[..|targets| - 1];
      assert init[k] == targets[k];
      JoinedHoldsWhatRunningHandlersSubscribed(init, aliveAt, joins, k, s);
    }
  }

  // ---------------------------------------------------------------------------------------
  // Whole emissions

  /** A handler whose tracker had expired by the sweep is never called: every call of an
      emission comes from a registered subscription whose tracker was live at the sweep, and
      from the snapshot position k whose handler it is, whose context was live at that
      position's turn and whose argument it carries. */
  lemma EmitCallsOnlySweptLiveHandlers<A>(before: seq<Subscription>, after: seq<Subscription>, arg: A, moved: A,
                                          w: Interleaving, calls: seq<Call<A>>, c: Call<A>)
    requires Emitted(before, after, arg, moved, w, calls)
    requires c in calls
    ensures exists s :: s in before && s.tracker in w.aliveAtSweep && s.handler == Guarded(c.context, c.user)
    ensures exists k :: 0 <= k < |Live(before, w.aliveAtSweep)|
                        && Live(before, w.aliveAtSweep)[k].handler == Guarded(c.context, c.user)
                        && c.context in w.aliveAtCall(k) && c.arg == ArgAt(k, arg, moved)
  {
    var kept := Live(before, w.aliveAtSweep);
    var targets := Targets(kept);
    DispatchCallsOnlyLiveHandlers(targets, arg, moved, w.aliveAtCall, c);
    var k :| 0 <= k < |targets| && targets[k].context in w.aliveAtCall(k)
             && c == Call(targets[k].user, targets[k].context, ArgAt(k, arg, moved));
    TargetsAreTheHandlers(kept);
    assert kept[k].handler == Guarded(c.context, c.user);
    LiveIsTheUnexpired(before, w.aliveAtSweep, kept[k]);
  }

  /** Subscriptions made while the snapshot runs are kept, after the swept list. */
  lemma EmitKeepsSubscriptionsMadeDuringIt<A>(before: seq<Subscription>, after: seq<Subscription>, arg: A, moved: A,
                                             w: Interleaving, calls: seq<Call<A>>, k: nat, s: Subscription)
    requires Emitted(before, after, arg, moved, w, calls)
    requires k < |Live(before, w.aliveAtSweep)|
    requires Live(before, w.aliveAtSweep)[k].handler.context in w.aliveAtCall(k)
    requires s in w.subscribedBy(k)
    ensures s in after
    ensures after[..|Live(before, w.aliveAtSweep)|] == Live(before, w.aliveAtSweep)
  {
    var kept := Live(before, w.aliveAtSweep);
    TargetsAreTheHandlers(kept);
    JoinedHoldsWhatRunningHandlersSubscribed(Targets(kept), w.aliveAtCall, w.subscribedBy, k, s);
    assert after[..|kept|] == kept;
  }

  /** The calls of an emission are those of the snapshot taken before it ran: two emissions
      from the same list that see the same liveness make the same calls, whatever their
      handlers subscribe meanwhile. */
  lemma EmitSnapshotExcludesNewSubscriptions<A>(before: seq<Subscription>, arg: A, moved: A,
                                                w1: Interleaving, after1: seq<Subscription>, calls1: seq<Call<A>>,
                                                w2: Interleaving, after2: seq<Subscription>, calls2: seq<Call<A>>)
    requires Emitted(before, after1, arg, moved, w1, calls1)
    requires Emitted(before, after2, arg, moved, w2, calls2)
    requires w1.aliveAtSweep == w2.aliveAtSweep && w1.aliveAtCall == w2.aliveAtCall
    ensures calls1 == calls2
    ensures after1[..|Live(before, w1.aliveAtSweep)|] == after2[..|Live(before, w1.aliveAtSweep)|]
  {
  }

  /** As written, `emit` hands every call after the first the moved-from argument. */
  lemma EmitHandsLaterCallsTheMovedArgument<A>(before: seq<Subscription>, after: seq<Subscription>, arg: A, moved: A,
                                               w: Interleaving, calls: seq<Call<A>>, j: nat)
    requires Emitted(before, after, arg, moved, w, calls)
    requires 0 < j < |calls|
    ensures calls[j].arg == moved
  {
    var targets := Targets(Live(before, w.aliveAtSweep));
    DispatchCallsEachLiveHandlerOnceInOrder(targets, arg, moved, w.aliveAtCall);
    var f := Fired(targets, w.aliveAtCall);
    assert f[0] < f[j];
  }

  /** As written, when the first snapshot handler's context has expired by its turn, the
      argument is moved into that handler and lost: no call receives it. */
  lemma EmitWithExpiredFirstHandlerLosesTheArgument<A>(before: seq<Subscription>, after: seq<Subscription>, arg: A, moved: A,
                                                       w: Interleaving, calls: seq<Call<A>>, c: Call<A>)
    requires Emitted(before, after, arg, moved, w, calls)
    requires |Live(before, w.aliveAtSweep)| > 0
    requires Live(before, w.aliveAtSweep)[0].handler.context !in w.aliveAtCall(0)
    requires c in calls
    ensures c.arg == moved
  {
    EmitCallsOnlySweptLiveHandlers(before, after, arg, moved, w, calls, c);
  }

  /** With a copying dispatch every call carries the emitted argument. */
  lemma CopyingCallsCarryTheArgument<A>(targets: seq<Handler>, arg: A, aliveAt: nat -> set<Tracker>)
    ensures forall c :: c in Dispatch(targets, arg, arg, aliveAt) ==> c.arg == arg
  {
    forall c | c in Dispatch(targets, arg, arg, aliveAt)
      ensures c.arg == arg
    {
      DispatchCallsOnlyLiveHandlers(targets, arg, arg, aliveAt, c);
    }
  }

  lemma {:induction false} NotifyDistributes<A>(p: seq<Subscription>, q: seq<Subscription>, alive: set<Tracker>, arg: A)
    ensures Notify(p + q, alive, arg) == Notify(p, alive, arg) + Notify(q, alive, arg)
    decreases |p|
  {
    if p == [] {
      assert p + q == q;
    } else {
      assert (p + q)[0] == p[0];
      assert (p + q)[1..] == p[1..] + q;
      NotifyDistributes(p[1..], q, alive, arg);
    }
  }

  lemma DispatchSnoc<A>(t: seq<Handler>, h: Handler, arg: A, moved: A, aliveAt: nat -> set<Tracker>)
    ensures Dispatch(t + [h], arg, moved, aliveAt)
            == Dispatch(t, arg, moved, aliveAt)
               + (if h.context in aliveAt(|t|) then [Call(h.user, h.context, ArgAt(|t|, arg, moved))] else [])
  {
    assert (t + [h])[..|t|] == t;
  }

  /** One step of the invocation loop of `emit`. */
  lemma EmitStep<A>(targets: seq<Handler>, k: nat, arg: A, moved: A, w: Interleaving)
    requires k < |targets|
    ensures Dispatch(targets[..k + 1], arg, moved, w.aliveAtCall)
            == Dispatch(targets[..k], arg, moved, w.aliveAtCall)
               + (if targets[k].context in w.aliveAtCall(k)
                  then [Call(targets[k].user, targets[k].context, ArgAt(k, arg, moved))] else [])
    ensures Joined(targets[..k + 1], w.aliveAtCall, w.subscribedBy)
            == Joined(targets[..k], w.aliveAtCall, w.subscribedBy)
               + (if targets[k].context in w.aliveAtCall(k) then w.subscribedBy(k) else [])
  {
    assert targets[..k + 1][..k] == targets[..k];
  }

  lemma {:induction false} DispatchOfSweptIsNotify<A>(subs: seq<Subscription>, alive: set<Tracker>, arg: A, aliveAt: nat -> set<Tracker>)
    requires MadeByConnect(subs)
    requires forall k :: aliveAt(k) == alive
    ensures Dispatch(Targets(Live(subs, alive)), arg, arg, aliveAt) == Notify(subs, alive, arg)
    decreases |subs|
  {
    if subs != [] {
      var init := subs[..|subs| - 1];
      var last := subs[|subs| - 1];
      assert MadeByConnect(init) by {
        forall i | 0 <= i < |init| ensures init[i].tracker == init[i].handler.context {
          assert init[i] == subs[i];
        }
      }
      DispatchOfSweptIsNotify(init, alive, arg, aliveAt);
      assert subs == init + [last];
      LiveSnoc(init, last, alive);
      NotifyDistributes(init, [last], alive, arg);
      assert [last][1..] == [];
      assert Notify([last], alive, arg)
             == (if last.tracker in alive then [Call(last.handler.user, last.tracker, arg)] else []);
      var done := Live(init, alive);
      if last.tracker in alive {
        TargetsSnoc(done, last);
        DispatchSnoc(Targets(done), last.handler, arg, arg, aliveAt);
        assert aliveAt(|Targets(done)|) == alive;
      } else {
        assert done + [] == done;
        assert Live(subs, alive) == done;
        assert Notify(init, alive, arg) + [] == Notify(init, alive, arg);
      }
    }
  }

  /** When no tracker expires after the sweep, a copying emission over subscriptions made by
      `connect` calls every subscriber whose tracker is live, exactly once each, in
      subscription order, with the emitted argument, and no other. */
  lemma EmitNotifiesEveryLiveSubscriber<A>(before: seq<Subscription>, after: seq<Subscription>, arg: A,
                                           w: Interleaving, calls: seq<Call<A>>)
    requires MadeByConnect(before)
    requires forall k :: w.aliveAtCall(k) == w.aliveAtSweep
    requires Emitted(before, after, arg, arg, w, calls)
    ensures calls == Notify(before, w.aliveAtSweep, arg)
  {
    DispatchOfSweptIsNotify(before, w.aliveAtSweep, arg, w.aliveAtCall);
  }

  /** Emitting on an empty registry calls nothing and leaves the registry empty. */
  lemma EmitOnEmptyRegistry<A>(after: seq<Subscription>, arg: A, moved: A, w: Interleaving, calls: seq<Call<A>>)
    requires Emitted([], after, arg, moved, w, calls)
    ensures after == [] && calls == []
  {
  }
}
