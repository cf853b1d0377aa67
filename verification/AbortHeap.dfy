// equipa/abort_controller.py: the heap of abort controllers as a value.

/** The heap of controllers as one value, and how aborts may change it. */
module AbortHeap {
  import opened Wrappers

  /** Cancelled is the default asyncio.CancelledError("Operation aborted"). */
  datatype Reason = Given(id: nat) | Cancelled

  /** What a user's listener may do with controllers, in order. */
  datatype Action<!C> =
    | DoAbort(target: C, why: Option<Reason>)
    | DoListen(on: C, listener: Callback<C>, once: bool)
    | DoUnlisten(off: C, removed: Callback<C>)
    | DoCollect(lost: C)                          // the last strong reference goes away; not while it aborts

  /** Listener is a user function, the rest are the closures of this module.
      id tells user functions apart; raises: it ends with an exception. */
  datatype Callback<!C> =
    | Listener(id: nat, body: seq<Action<C>>, raises: bool)
    | Once(inner: Callback<C>)
    | Propagate(parent: C, child: C)
    | Cleanup(parent: C, child: C)

  /** aborted, reason and callbacks are the source's fields. live: weak references
      still resolve. registered and fired count every registration and every call. */
  datatype State<!C(==)> = State(aborted: bool, reason: Option<Reason>, callbacks: seq<Callback<C>>, live: bool,
                             registered: multiset<Callback<C>>, fired: multiset<Callback<C>>)

  type Heap<!C(==)> = map<C, State<C>>

  function Size<C>(cb: Callback<C>): nat {
    match cb
    case Listener(_, body, _) => 1 + SizeOfAll(body)
    case Once(inner) => 1 + Size(inner)
    case _ => 1
  }

  function SizeOfAll<C>(body: seq<Action<C>>): nat {
    if body == [] then 0 else SizeOfOne(body[0]) + SizeOfAll(body[1..])
  }

  function SizeOfOne<C>(a: Action<C>): nat {
    match a
    case DoListen(_, cb, _) => 5 + Size(cb)
    case _ => 2
  }

  function SizeOfList<C>(cbs: seq<Callback<C>>): nat {
    if cbs == [] then 0 else Size(cbs[0]) + SizeOfList(cbs[1..])
  }

  lemma {:induction false} SizeOfMember<C>(cbs: seq<Callback<C>>, i: nat)
    requires i < |cbs|
    ensures Size(cbs[i]) <= SizeOfList(cbs)
  {
    if i > 0 {
      SizeOfMember(cbs[1..], i - 1);
    }
  }

  // -------------------------------------------------------------------------
  // How a heap may evolve
  // -------------------------------------------------------------------------

  /** The closure create_child_abort_controller registers on the parent. */
  predicate IsLink<C>(cb: Callback<C>) {
    cb.Once? && cb.inner.Propagate?
  }

  function LinkChild<C>(cb: Callback<C>): C
    requires IsLink(cb)
  {
    cb.inner.child
  }

  predicate Reached<C>(s: State<C>) {
    s.aborted || !s.live
  }

  /** Every child c still has (or had) been handed is aborted, or was collected. */
  ghost predicate Cascaded<C>(s: State<C>, h: Heap<C>) {
    forall cb :: cb in s.registered && IsLink(cb) ==> LinkChild(cb) in h && Reached(h[LinkChild(cb)])
  }

  /** An aborted controller keeps its first reason and stays in its holder's hands;
      handlers are never lost, links never gained; the dead stay dead. */
  ghost predicate Persists<C>(a: State<C>, b: State<C>) {
    && (a.aborted ==> b.aborted && b.reason == a.reason && b.live == a.live && a.registered <= b.registered)
    && (!a.live ==> !b.live)
    && (forall cb :: cb in a.registered && !cb.Listener? ==> cb in b.registered)
    && (forall cb :: cb in b.registered && IsLink(cb) ==> cb in a.registered)
    && (forall cb :: cb in b.callbacks && IsLink(cb) ==> cb in a.callbacks)
  }

  ghost predicate AllPersist<C>(h: Heap<C>, h': Heap<C>) {
    h.Keys == h'.Keys && forall c: C :: c in h ==> Persists(h[c], h'[c])
  }

  /** Whatever is registered on an aborted controller in the meantime is fired in the
      meantime, and a controller that gets aborted has fired everything. */
  ghost predicate Fires<C>(a: State<C>, b: State<C>, h: Heap<C>) {
    && (a.aborted ==> b.fired + a.registered == a.fired + b.registered)
    && (!a.aborted && b.aborted ==> b.fired == b.registered && Cascaded(b, h))
  }

  ghost predicate Evolves<C>(h: Heap<C>, h': Heap<C>) {
    && AllPersist(h, h')
    && (forall c: C :: c in h ==> Fires(h[c], h'[c], h'))
  }

  /** The same with one controller, in the middle of its own abort, left out of Fires. */
  ghost predicate EvolvesAround<C>(h: Heap<C>, h': Heap<C>, busy: C) {
    && AllPersist(h, h')
    && (forall c: C :: c in h && c != busy ==> Fires(h[c], h'[c], h'))
  }

  lemma AllPersistTransitive<C>(h0: Heap<C>, h1: Heap<C>, h2: Heap<C>)
    requires AllPersist(h0, h1) && AllPersist(h1, h2)
    ensures AllPersist(h0, h2)
  {
    forall c: C | c in h0 ensures Persists(h0[c], h2[c]) {
    }
  }

  lemma CascadeStays<C>(h: Heap<C>, h': Heap<C>, c: C)
    requires c in h && AllPersist(h, h')
    requires h[c].aborted && Cascaded(h[c], h)
    ensures Cascaded(h'[c], h')
  {
    forall cb | cb in h'[c].registered && IsLink(cb)
      ensures LinkChild(cb) in h' && Reached(h'[LinkChild(cb)])
    {
      assert Persists(h[c], h'[c]);
      assert cb in h[c].registered;
      assert Persists(h[LinkChild(cb)], h'[LinkChild(cb)]);
    }
  }

  lemma FiresTransitive<C>(h0: Heap<C>, h1: Heap<C>, h2: Heap<C>, c: C)
    requires c in h0 && h0.Keys == h1.Keys && AllPersist(h1, h2)
    requires Persists(h0[c], h1[c]) && Fires(h0[c], h1[c], h1) && Fires(h1[c], h2[c], h2)
    ensures Fires(h0[c], h2[c], h2)
  {
    assert Persists(h1[c], h2[c]);
    if h0[c].aborted {
      assert forall cb: Callback<C> :: (h2[c].fired + h0[c].registered)[cb] == (h0[c].fired + h2[c].registered)[cb] by {
        forall cb: Callback<C> ensures (h2[c].fired + h0[c].registered)[cb] == (h0[c].fired + h2[c].registered)[cb] {
          assert (h2[c].fired + h1[c].registered)[cb] == (h1[c].fired + h2[c].registered)[cb];
          assert (h1[c].fired + h0[c].registered)[cb] == (h0[c].fired + h1[c].registered)[cb];
        }
      }
    } else if h1[c].aborted {
      CascadeStays(h1, h2, c);
      forall cb: Callback<C> ensures h2[c].fired[cb] == h2[c].registered[cb] {
        assert (h2[c].fired + h1[c].registered)[cb] == (h1[c].fired + h2[c].registered)[cb];
      }
    }
  }

  lemma EvolvesTransitive<C>(h0: Heap<C>, h1: Heap<C>, h2: Heap<C>)
    requires Evolves(h0, h1) && Evolves(h1, h2)
    ensures Evolves(h0, h2)
  {
    AllPersistTransitive(h0, h1, h2);
    forall c: C | c in h0 ensures Fires(h0[c], h2[c], h2) {
      FiresTransitive(h0, h1, h2, c);
    }
  }

  lemma EvolvesAroundTransitive<C>(h0: Heap<C>, h1: Heap<C>, h2: Heap<C>, busy: C)
    requires EvolvesAround(h0, h1, busy) && EvolvesAround(h1, h2, busy)
    ensures EvolvesAround(h0, h2, busy)
  {
    AllPersistTransitive(h0, h1, h2);
    forall c: C | c in h0 && c != busy ensures Fires(h0[c], h2[c], h2) {
      FiresTransitive(h0, h1, h2, c);
    }
  }

  // -------------------------------------------------------------------------
  // What a call has done
  // -------------------------------------------------------------------------

  /** reason or CancelledError("Operation aborted") */
  function Effective(why: Option<Reason>): Reason {
    if why.Some? then why.value else Cancelled
  }

  function Wrapper<C>(listener: Callback<C>, once: bool): Callback<C> {
    if once then Once(listener) else listener
  }

  /** a was run between h and h'. */
  ghost predicate ActionDone<C>(a: Action<C>, h: Heap<C>, h': Heap<C>) {
    match a
    case DoAbort(c, _) => c in h' && Reached(h'[c])
    case DoCollect(c) => c in h' && Reached(h'[c])
    case DoListen(c, cb, once) => c in h && c in h' && (h[c].aborted ==> Wrapper(cb, once) in h'[c].registered)
    case DoUnlisten(_, _) => true
  }

  ghost predicate BodyDone<C>(body: seq<Action<C>>, h: Heap<C>, h': Heap<C>) {
    forall i :: 0 <= i < |body| ==> ActionDone(body[i], h, h')
  }

  /** cb was called between h and h', and did what it is for. */
  ghost predicate Done<C>(cb: Callback<C>, h: Heap<C>, h': Heap<C>) {
    match cb
    case Listener(_, body, _) => BodyDone(body, h, h')
    case Once(inner) => Done(inner, h, h')
    case Propagate(_, e) => e in h' && Reached(h'[e])
    case Cleanup(_, _) => true
  }

  lemma BodyDoneWider<C>(body: seq<Action<C>>, h0: Heap<C>, h1: Heap<C>, h2: Heap<C>, h3: Heap<C>)
    requires AllPersist(h0, h1) && AllPersist(h1, h2) && AllPersist(h2, h3) && BodyDone(body, h1, h2)
    ensures BodyDone(body, h0, h3)
  {
    forall i | 0 <= i < |body| ensures ActionDone(body[i], h0, h3) {
      assert ActionDone(body[i], h1, h2);
      match body[i]
      case DoAbort(c, _) => assert Persists(h2[c], h3[c]);
      case DoCollect(c) => assert Persists(h2[c], h3[c]);
      case DoListen(c, _, _) => assert Persists(h0[c], h1[c]) && Persists(h1[c], h2[c]) && Persists(h2[c], h3[c]);
      case DoUnlisten(_, _) =>
    }
  }

  lemma {:induction false} DoneWider<C>(cb: Callback<C>, h0: Heap<C>, h1: Heap<C>, h2: Heap<C>, h3: Heap<C>)
    requires AllPersist(h0, h1) && AllPersist(h1, h2) && AllPersist(h2, h3) && Done(cb, h1, h2)
    ensures Done(cb, h0, h3)
    decreases cb
  {
    match cb
    case Listener(_, body, _) => BodyDoneWider(body, h0, h1, h2, h3);
    case Once(inner) => DoneWider(inner, h0, h1, h2, h3);
    case Propagate(_, e) => assert Persists(h2[e], h3[e]);
    case Cleanup(_, _) =>
  }

  // -------------------------------------------------------------------------
  // Who gets to say the reason
  // -------------------------------------------------------------------------

  /** A body that begins by aborting a controller nobody has aborted yet settles its reason. */
  ghost predicate BodyDecides<C>(body: seq<Action<C>>, h: Heap<C>, h': Heap<C>) {
    body != [] && body[0].DoAbort? && body[0].target in h && h[body[0].target].live && !h[body[0].target].aborted ==>
      var t := body[0].target;
      t in h' && h'[t].aborted && h'[t].reason == Some(Effective(body[0].why))
  }

  /** A child's own cleanup comes before its listeners. */
  function AfterCleanup<C>(callbacks: seq<Callback<C>>): nat {
    if callbacks != [] && callbacks[0].Once? && callbacks[0].inner.Cleanup? then 1 else 0
  }

  /** The first thing a call of cb runs: its own body, or the body of the first listener
      of the child it is about to abort. */
  ghost function Opener<C>(cb: Callback<C>, h: Heap<C>): seq<Action<C>> {
    match cb
    case Listener(_, body, _) => body
    case Once(inner) => Opener(inner, h)
    case Propagate(_, e) => if e in h && Unreached(h[e]) then OpenerOf(e, h[e].callbacks) else []
    case Cleanup(_, _) => []
  }

  predicate Unreached<C>(s: State<C>) {
    s.live && !s.aborted
  }

  function OpenerOf<C(==)>(e: C, callbacks: seq<Callback<C>>): seq<Action<C>> {
    var k := AfterCleanup(callbacks);
    if k < |callbacks| && callbacks[k].Listener? && callbacks[k].body != [] && callbacks[k].body[0].DoAbort?
       && callbacks[k].body[0].target != e
    then callbacks[k].body else []
  }

  ghost predicate Decides<C>(cb: Callback<C>, h: Heap<C>, h': Heap<C>) {
    BodyDecides(Opener(cb, h), h, h')
  }

  lemma DecidesStays<C>(body: seq<Action<C>>, h: Heap<C>, h1: Heap<C>, h2: Heap<C>)
    requires BodyDecides(body, h, h1) && AllPersist(h1, h2)
    ensures BodyDecides(body, h, h2)
  {
    if body != [] && body[0].DoAbort? && body[0].target in h1 {
      assert Persists(h1[body[0].target], h2[body[0].target]);
    }
  }

  /** Only c differs. */
  ghost predicate SameBut<C>(h: Heap<C>, h': Heap<C>, c: C) {
    h.Keys == h'.Keys && forall d: C :: d in h && d != c ==> h'[d] == h[d]
  }

  lemma {:induction false} OpenerSame<C>(cb: Callback<C>, h: Heap<C>, h': Heap<C>, c: C)
    requires SameBut(h, h', c) && c in h && h[c].aborted && h'[c].aborted
    ensures Opener(cb, h) == Opener(cb, h')
    decreases cb
  {
    if cb.Once? {
      OpenerSame(cb.inner, h, h', c);
    }
  }

  // -------------------------------------------------------------------------
  // The measure
  // -------------------------------------------------------------------------

  ghost function Unaborted<C>(h: Heap<C>): set<C> {
    set c | c in h && !h[c].aborted
  }

  lemma UnabortedShrinks<C>(h: Heap<C>, h': Heap<C>)
    requires AllPersist(h, h')
    ensures |Unaborted(h')| <= |Unaborted(h)|
  {
    assert Unaborted(h') <= Unaborted(h);
    SubsetSize(Unaborted(h'), Unaborted(h));
  }

  lemma {:induction false} SubsetSize<C>(a: set<C>, b: set<C>)
    requires a <= b
    ensures |a| <= |b|
  {
    assert b == a + (b - a);
  }

  // -------------------------------------------------------------------------
  // What the cascade reaches
  // -------------------------------------------------------------------------

  /** path[i+1] is a child created on path[i], and weak references to it resolve. */
  ghost predicate LivePath<C>(h: Heap<C>, live: Heap<C>, path: seq<C>) {
    && path != []
    && (forall i :: 0 <= i < |path| ==> path[i] in h && path[i] in live && live[path[i]].live)
    && (forall i :: 0 <= i < |path| - 1 ==> Once(Propagate(path[i], path[i + 1])) in h[path[i]].registered)
  }

  /** No controller is in the middle of its abort: the aborted ones have fired all
      their listeners and reached all their live children. */
  ghost predicate AtRest<C>(h: Heap<C>) {
    forall c: C :: c in h && h[c].aborted ==> h[c].fired == h[c].registered && Cascaded(h[c], h)
  }

  lemma RestIsKept<C>(h: Heap<C>, h': Heap<C>)
    requires AtRest(h) && Evolves(h, h')
    ensures AtRest(h')
  {
    forall c: C | c in h' && h'[c].aborted ensures h'[c].fired == h'[c].registered && Cascaded(h'[c], h') {
      assert Persists(h[c], h'[c]) && Fires(h[c], h'[c], h');
      if h[c].aborted {
        CascadeStays(h, h', c);
        forall cb: Callback<C> ensures h'[c].fired[cb] == h'[c].registered[cb] {
          assert (h'[c].fired + h[c].registered)[cb] == (h[c].fired + h'[c].registered)[cb];
        }
      }
    }
  }

  /** Aborting the first controller of a live path aborts the whole path. */
  lemma {:induction false} CascadeCoversPath<C>(h: Heap<C>, h': Heap<C>, path: seq<C>)
    requires AtRest(h) && Evolves(h, h') && LivePath(h, h', path) && h'[path[0]].aborted
    ensures forall i :: 0 <= i < |path| ==> h'[path[i]].aborted
    decreases |path|
  {
    RestIsKept(h, h');
    if |path| > 1 {
      assert Persists(h[path[0]], h'[path[0]]);
      var link := Once(Propagate(path[0], path[0 + 1]));
      assert link in h'[path[0]].registered && IsLink(link) && LinkChild(link) == path[1];
      var rest := path[1..];
      forall i | 0 <= i < |rest| - 1 ensures Once(Propagate(rest[i], rest[i + 1])) in h[rest[i]].registered {
        assert rest[i] == path[i + 1] && rest[i + 1] == path[i + 1 + 1];
      }
      CascadeCoversPath(h, h', rest);
      forall i | 0 <= i < |path| ensures h'[path[i]].aborted {
        if i > 0 {
          assert path[i] == rest[i - 1];
        }
      }
    }
  }
}
