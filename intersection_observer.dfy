/** The `useIntersectionObserver(options)` hook: a visibility latch. It holds
    `isInView` (the last delivered entry) and `hasBeenInView` (set on the first
    in-view entry, never cleared), keeps at most one observer in `observerRef`,
    and disconnects that observer on the first in-view entry when `triggerOnce`. */
module IntersectionObserver {
  import opened Common

  /** The options handed to `new IntersectionObserver`, plus `triggerOnce`. */
  datatype Options = Options(threshold: real, rootMargin: string, triggerOnce: bool)

  /** The caller's options object: a key is either given or absent. */
  datatype CallerOptions = CallerOptions(threshold: Option<real>, rootMargin: Option<string>, triggerOnce: Option<bool>)

  /** `{ threshold: 0.1, rootMargin: '50px', triggerOnce: false, ...options }`. */
  function Merge(o: CallerOptions): (r: Options)
    ensures r.threshold == (if o.threshold.Some? then o.threshold.value else 0.1)
    ensures r.rootMargin == (if o.rootMargin.Some? then o.rootMargin.value else "50px")
    ensures r.triggerOnce == (o.triggerOnce.Some? && o.triggerOnce.value)
  {
    Options(
      match o.threshold case Some(t) => t case None => 0.1,
      match o.rootMargin case Some(m) => m case None => "50px",
      match o.triggerOnce case Some(b) => b case None => false)
  }

  /** With no options at all the defaults apply. */
  lemma DefaultOptions()
    ensures Merge(CallerOptions(None, None, None)) == Options(0.1, "50px", false)
  {
  }

  /** The two state values, whether `elementRef` is attached, the observer in
      `observerRef` (by id), the set of this hook's observers the host still has
      connected, and the host's next observer id. */
  datatype State = State(isInView: bool, hasBeenInView: bool, element: bool,
                         slot: Option<nat>, live: set<nat>, nextId: nat)

  function Init(): State {
    State(false, false, false, None, {}, 0)
  }

  /** Only the observer in the slot may be connected, so at most one is. */
  ghost predicate Inv(s: State) {
    s.live <= (if s.slot.Some? then {s.slot.value} else {})
  }

  /** The ref callback attaching the observed element. */
  function Attach(s: State): State {
    s.(element := true)
  }

  /** `observe()`: a new observer only when an element is attached and the slot is empty. */
  function Observe(s: State): (r: State)
    ensures (s.element && s.slot.None?) ==> r.slot == Some(s.nextId) && r.live == s.live + {s.nextId}
    ensures !(s.element && s.slot.None?) ==> r == s
    ensures r.isInView == s.isInView && r.hasBeenInView == s.hasBeenInView
  {
    if s.element && s.slot.None? then
      s.(slot := Some(s.nextId), live := s.live + {s.nextId}, nextId := s.nextId + 1)
    else
      s
  }

  /** The observer callback for one entry. The host delivers entries only
      while an observer is connected. */
  function Entry(s: State, opts: Options, inView: bool): (r: State)
    ensures s.live == {} ==> r == s
    ensures s.live != {} ==> r.isInView == inView && r.hasBeenInView == (s.hasBeenInView || inView)
    ensures Inv(s) && s.live != {} && inView && opts.triggerOnce ==> r.live == {}
    ensures !(inView && opts.triggerOnce) ==> r.live == s.live
    ensures r.slot == s.slot
  {
    if s.live == {} then s
    else
      var s1 := s.(isInView := inView);
      var s2 := if inView && !s.hasBeenInView then s1.(hasBeenInView := true) else s1;
      if inView && opts.triggerOnce && s.slot.Some? then
        // observerRef.current?.disconnect(): the slot keeps the disconnected observer
        s2.(live := s2.live - {s.slot.value})
      else
        s2
  }

  /** The effect's cleanup: disconnect the observer and empty the slot. */
  function Teardown(s: State): (r: State)
    ensures r.slot.None?
    ensures Inv(s) ==> r.live == {}
    ensures r.isInView == s.isInView && r.hasBeenInView == s.hasBeenInView
  {
    match s.slot
    case Some(id) => s.(live := s.live - {id}, slot := None)
    case None => s
  }

  datatype Event = AttachElement | ObserveCall | EntryAt(inView: bool) | Cleanup

  function Step(s: State, opts: Options, e: Event): State {
    match e
    case AttachElement => Attach(s)
    case ObserveCall => Observe(s)
    case EntryAt(v) => Entry(s, opts, v)
    case Cleanup => Teardown(s)
  }

  function Run(s: State, opts: Options, evs: seq<Event>): State
    decreases |evs|
  {
    if evs == [] then s else Run(Step(s, opts, evs[0]), opts, evs[1..])
  }

  /** At most one live observer, whatever the order of observe calls,
      entries and cleanups. */
  lemma {:induction false} AtMostOneObserver(s: State, opts: Options, evs: seq<Event>)
    requires Inv(s)
    ensures Inv(Run(s, opts, evs)) && |Run(s, opts, evs).live| <= 1
    decreases |evs|
  {
    if evs == [] {
      if s.slot.Some? {
        assert s.live <= {s.slot.value};
        SubsetOfSingleton(s.live, s.slot.value);
      }
    } else {
      var t := Step(s, opts, evs[0]);
      assert Inv(t);
      AtMostOneObserver(t, opts, evs[1..]);
    }
  }

  lemma SubsetOfSingleton(a: set<nat>, x: nat)
    requires a <= {x}
    ensures |a| <= 1
  {
    if a != {} {
      assert a == {x};
    }
  }

  /** `hasBeenInView` never reverts to false. */
  lemma {:induction false} LatchMonotone(s: State, opts: Options, evs: seq<Event>)
    requires s.hasBeenInView
    ensures Run(s, opts, evs).hasBeenInView
    decreases |evs|
  {
    if evs != [] {
      LatchMonotone(Step(s, opts, evs[0]), opts, evs[1..]);
    }
  }

  /** `hasBeenInView` is set only by an in-view entry. */
  lemma {:induction false} LatchNeedsInViewEntry(s: State, opts: Options, evs: seq<Event>)
    requires !s.hasBeenInView
    requires Run(s, opts, evs).hasBeenInView
    ensures exists i :: 0 <= i < |evs| && evs[i] == EntryAt(true)
    decreases |evs|
  {
    var t := Step(s, opts, evs[0]);
    if evs[0] != EntryAt(true) {
      LatchNeedsInViewEntry(t, opts, evs[1..]);
      var i :| 0 <= i < |evs[1..]| && evs[1..][i] == EntryAt(true);
      assert evs[i + 1] == EntryAt(true);
    }
  }

  /** With `triggerOnce`, once an in-view entry has been delivered no further
      entry arrives until the slot is cleared by a cleanup: `isInView` stays
      true and no new observer is created. */
  lemma {:induction false} TriggerOnceSticks(s: State, opts: Options, evs: seq<Event>)
    requires Inv(s) && opts.triggerOnce && s.live != {}
    requires forall i :: 0 <= i < |evs| ==> evs[i] != Cleanup
    ensures var r := Run(Entry(s, opts, true), opts, evs);
      r.isInView && r.hasBeenInView && r.live == {} && r.slot == s.slot
  {
    var t := Entry(s, opts, true);
    assert t.live == {};
    SilentWhileDisconnected(t, opts, evs);
  }

  lemma {:induction false} SilentWhileDisconnected(s: State, opts: Options, evs: seq<Event>)
    requires s.live == {} && s.slot.Some?
    requires forall i :: 0 <= i < |evs| ==> evs[i] != Cleanup
    ensures Run(s, opts, evs).live == {} && Run(s, opts, evs).slot == s.slot
    ensures Run(s, opts, evs).isInView == s.isInView && Run(s, opts, evs).hasBeenInView == s.hasBeenInView
    decreases |evs|
  {
    if evs != [] {
      var t := Step(s, opts, evs[0]);
      assert t.live == {} && t.slot == s.slot && t.isInView == s.isInView && t.hasBeenInView == s.hasBeenInView;
      SilentWhileDisconnected(t, opts, evs[1..]);
    }
  }

  /** After a cleanup a later `observe` may create a fresh observer. */
  lemma CleanupAllowsFreshObserver(s: State)
    requires s.element
    ensures Observe(Teardown(s)).slot == Some(s.nextId)
  {
  }

  /** The hook instance: its state values and refs, updated in place. */
  class VisibilityLatch {
    const options: Options
    var isInView: bool
    var hasBeenInView: bool
    var element: bool
    var slot: Option<nat>
    var live: set<nat>
    var nextId: nat

    function Snapshot(): State
      reads this
    {
      State(isInView, hasBeenInView, element, slot, live, nextId)
    }

    constructor (caller: CallerOptions)
      ensures options == Merge(caller) && Snapshot() == Init()
    {
      options := Merge(caller);
      isInView, hasBeenInView, element, slot, live, nextId := false, false, false, None, {}, 0;
    }

    method AttachElement()
      modifies this
      ensures Snapshot() == Attach(old(Snapshot()))
    {
      element := true;
    }

    method ObserveElement()
      modifies this
      ensures Snapshot() == Observe(old(Snapshot()))
    {
      if element && slot.None? {
        slot := Some(nextId);
        live := live + {nextId};
        nextId := nextId + 1;
      }
    }

    method OnEntry(inView: bool)
      modifies this
      ensures Snapshot() == Entry(old(Snapshot()), options, inView)
    {
      if live == {} {
        return;
      }
      isInView := inView;
      if inView && !hasBeenInView {
        hasBeenInView := true;
      }
      if inView && options.triggerOnce && slot.Some? {
        live := live - {slot.value};
      }
    }

    method Cleanup()
      modifies this
      ensures Snapshot() == Teardown(old(Snapshot()))
    {
      if slot.Some? {
        live := live - {slot.value};
        slot := None;
      }
    }
  }
}
