// equipa/abort_controller.py: the abort controllers and their listeners.

/** The classes themselves. u is any set of controllers closed under what its
    listeners may touch: an abort in u changes nothing outside u. */
module AbortControllers {
  import opened AbortHeap
  import opened Wrappers

  type Ctl = AbortController
  type Cb = Callback<AbortController>

  // -------------------------------------------------------------------------
  // Which callbacks may be registered
  // -------------------------------------------------------------------------

  ghost predicate BodyWithin(body: seq<Action<Ctl>>, u: set<Ctl>) {
    forall i :: 0 <= i < |body| ==> ActionWithin(body[i], u)
  }

  ghost predicate ActionWithin(a: Action<Ctl>, u: set<Ctl>) {
    match a
    case DoAbort(c, _) => c in u
    case DoListen(c, cb, _) => c in u && cb.Listener? && BodyWithin(cb.body, u)
    case DoUnlisten(c, cb) => c in u && cb.Listener?
    case DoCollect(c) => c in u
  }

  /** cb may run on behalf of owner. */
  ghost predicate Runnable(owner: Ctl, cb: Cb, u: set<Ctl>, all: set<Ctl>) {
    match cb
    case Listener(_, body, _) => BodyWithin(body, u)
    case Once(inner) => !inner.Once? && Runnable(owner, inner, u, all)
    case Propagate(p, e) => p == owner && e in u
    case Cleanup(p, _) => p in all
  }

  /** The module's own closures are stored in their once wrapper only. */
  ghost predicate Wrapped(callbacks: seq<Cb>) {
    forall cb :: cb in callbacks ==> cb.Listener? || cb.Once?
  }

  ghost predicate StateOk(c: Ctl, s: State<Ctl>, u: set<Ctl>, all: set<Ctl>) {
    && (if s.aborted then s.reason.Some? && s.live
        else s.reason.None? && s.registered == multiset(s.callbacks) && s.fired == multiset{})
    && Wrapped(s.callbacks)
    && (forall cb :: cb in s.callbacks ==> Runnable(c, cb, u, all))
  }

  ghost predicate HeapOk(h: Heap<Ctl>, u: set<Ctl>, all: set<Ctl>) {
    h.Keys == u && forall c :: c in h ==> StateOk(c, h[c], u, all)
  }

  /** A listener that speaks for the abort with reason r: whatever it aborts, it aborts
      for that reason, and so do the listeners it adds. */
  predicate Faithful(cb: Cb, r: Reason) {
    match cb
    case Listener(_, body, _) => FaithfulBody(body, r)
    case Once(inner) => Faithful(inner, r)
    case _ => true
  }

  predicate FaithfulBody(body: seq<Action<Ctl>>, r: Reason) {
    forall i :: 0 <= i < |body| ==> FaithfulAction(body[i], r)
  }

  predicate FaithfulAction(a: Action<Ctl>, r: Reason) {
    match a
    case DoAbort(_, why) => Effective(why) == r
    case DoListen(_, cb, _) => Faithful(cb, r)
    case _ => true
  }

  ghost predicate FaithfulHeap(h: Heap<Ctl>, r: Reason) {
    forall c :: c in h ==> FaithfulState(h[c], r)
  }

  ghost predicate FaithfulState(s: State<Ctl>, r: Reason) {
    forall cb :: cb in s.callbacks ==> Faithful(cb, r)
  }

  /** If every listener is faithful to r, everything aborted on the way from h to h'
      has the reason r. */
  ghost predicate SameReason(h: Heap<Ctl>, h': Heap<Ctl>, r: Reason) {
    h.Keys == h'.Keys && (FaithfulHeap(h, r) ==> FaithfulHeap(h', r) && forall c :: c in h ==> Inherits(h[c], h'[c], r))
  }

  ghost predicate Inherits(a: State<Ctl>, b: State<Ctl>, r: Reason) {
    b.aborted && !a.aborted ==> b.reason == Some(r)
  }

  lemma SameReasonTransitive(h0: Heap<Ctl>, h1: Heap<Ctl>, h2: Heap<Ctl>, r: Reason)
    requires SameReason(h0, h1, r) && SameReason(h1, h2, r) && AllPersist(h1, h2)
    ensures SameReason(h0, h2, r)
  {
    if FaithfulHeap(h0, r) {
      forall c | c in h0 ensures Inherits(h0[c], h2[c], r) {
        assert Inherits(h0[c], h1[c], r) && Inherits(h1[c], h2[c], r) && Persists(h1[c], h2[c]);
      }
    }
  }

  lemma OneChangeSameReason(h: Heap<Ctl>, c: Ctl, s: State<Ctl>, r: Reason)
    requires c in h && (FaithfulState(h[c], r) ==> FaithfulState(s, r)) && Inherits(h[c], s, r)
    ensures SameReason(h, h[c := s], r)
  {
    if FaithfulHeap(h, r) {
      assert FaithfulState(h[c], r);
    }
  }

  // -------------------------------------------------------------------------
  // The field updates, on values
  // -------------------------------------------------------------------------

  /** list.remove: the first occurrence goes. */
  function RemoveFirst(s: seq<Cb>, x: Cb): (r: seq<Cb>)
    ensures forall y :: y in r ==> y in s
    ensures x !in s ==> r == s
  {
    if s == [] then []
    else if s[0] == x then s[1..]
    else [s[0]] + RemoveFirst(s[1..], x)
  }

  lemma {:induction false} RemoveFirstCounts(s: seq<Cb>, x: Cb)
    requires x in s
    ensures multiset(RemoveFirst(s, x)) == multiset(s) - multiset{x}
  {
    assert s == [s[0]] + s[1..];
    if s[0] != x {
      RemoveFirstCounts(s[1..], x);
    }
  }

  ghost function Marked(s: State<Ctl>, r: Reason): State<Ctl> {
    s.(aborted := true, reason := Some(r))
  }

  ghost function Counted(s: State<Ctl>, cb: Cb): State<Ctl> {
    s.(fired := s.fired + multiset{cb})
  }

  /** On an unaborted controller a removal withdraws the registration. */
  ghost function Removed(s: State<Ctl>, cb: Cb): State<Ctl> {
    if cb !in s.callbacks then s
    else s.(callbacks := RemoveFirst(s.callbacks, cb), registered := if s.aborted then s.registered else s.registered - multiset{cb})
  }

  /** A listener added to an aborted controller is not stored but fired. */
  ghost function Added(s: State<Ctl>, cb: Cb): State<Ctl> {
    if s.aborted then s.(registered := s.registered + multiset{cb}, fired := s.fired + multiset{cb})
    else s.(callbacks := s.callbacks + [cb], registered := s.registered + multiset{cb})
  }

  predicate UserCallback(cb: Cb) {
    cb.Listener? || (cb.Once? && cb.inner.Listener?)
  }

  /** A change to one controller that Evolves allows. */
  ghost predicate Allowed(a: State<Ctl>, b: State<Ctl>) {
    && Persists(a, b) && (b.aborted ==> a.aborted)
    && (a.aborted ==> b.fired + a.registered == a.fired + b.registered)
  }

  lemma OneChangeEvolves(h: Heap<Ctl>, c: Ctl, s: State<Ctl>)
    requires c in h && Allowed(h[c], s)
    ensures Evolves(h, h[c := s])
  {
  }

  lemma OneChange(h: Heap<Ctl>, c: Ctl, s: State<Ctl>, u: set<Ctl>, all: set<Ctl>)
    requires HeapOk(h, u, all) && c in h && StateOk(c, s, u, all) && Allowed(h[c], s)
    ensures HeapOk(h[c := s], u, all) && Evolves(h, h[c := s])
  {
    OneChangeEvolves(h, c, s);
    forall d | d in u ensures StateOk(d, h[c := s][d], u, all) {
      if d != c {
        assert StateOk(d, h[d], u, all);
      }
    }
  }

  lemma RemovedStep(h: Heap<Ctl>, c: Ctl, cb: Cb, u: set<Ctl>, all: set<Ctl>)
    requires HeapOk(h, u, all) && c in h && (h[c].aborted || cb.Listener?)
    ensures HeapOk(h[c := Removed(h[c], cb)], u, all) && Evolves(h, h[c := Removed(h[c], cb)])
  {
    assert StateOk(c, h[c], u, all);
    RemovedIsAllowed(c, h[c], cb, u, all);
    OneChange(h, c, Removed(h[c], cb), u, all);
  }

  lemma RemovedIsAllowed(c: Ctl, s: State<Ctl>, cb: Cb, u: set<Ctl>, all: set<Ctl>)
    requires StateOk(c, s, u, all) && (s.aborted || cb.Listener?)
    ensures StateOk(c, Removed(s, cb), u, all) && Allowed(s, Removed(s, cb))
  {
    if !s.aborted {
      RemovedPersists(s, cb);
    }
    var s' := Removed(s, cb);
    forall x | x in s'.callbacks ensures x in s.callbacks {
    }
  }

  lemma RemovedSameReason(h: Heap<Ctl>, c: Ctl, cb: Cb, r: Reason)
    requires c in h
    ensures SameReason(h, h[c := Removed(h[c], cb)], r)
  {
    OneChangeSameReason(h, c, Removed(h[c], cb), r);
  }

  lemma RemovedPersists(s: State<Ctl>, cb: Cb)
    requires !s.aborted && cb.Listener? && s.registered == multiset(s.callbacks)
    ensures Allowed(s, Removed(s, cb)) && Removed(s, cb).registered == multiset(Removed(s, cb).callbacks)
  {
    if cb in s.callbacks {
      RemoveFirstCounts(s.callbacks, cb);
    }
  }

  lemma AddedIsAllowed(c: Ctl, s: State<Ctl>, cb: Cb, u: set<Ctl>, all: set<Ctl>)
    requires StateOk(c, s, u, all) && UserCallback(cb) && Runnable(c, cb, u, all)
    ensures StateOk(c, Added(s, cb), u, all) && Allowed(s, Added(s, cb))
  {
    assert multiset(s.callbacks + [cb]) == multiset(s.callbacks) + multiset{cb};
  }

  lemma MarkAborted(h: Heap<Ctl>, c: Ctl, r: Reason, u: set<Ctl>, all: set<Ctl>)
    requires HeapOk(h, u, all) && c in h && Unreached(h[c])
    ensures var h1 := h[c := Marked(h[c], r)];
      HeapOk(h1, u, all) && |Unaborted(h1)| < |Unaborted(h)| && EvolvesAround(h1, h1, c)
      && SameReason(h, h1, r) && SameReason(h1, h1, r)
  {
    var h1 := h[c := Marked(h[c], r)];
    MarkShrinks(h, c, r);
    OneChangeSameReason(h, c, Marked(h[c], r), r);
    assert StateOk(c, h[c], u, all);
    forall d | d in h1 ensures StateOk(d, h1[d], u, all) {
      assert StateOk(d, h[d], u, all);
    }
  }

  lemma MarkShrinks(h: Heap<Ctl>, c: Ctl, r: Reason)
    requires c in h && !h[c].aborted
    ensures |Unaborted(h[c := Marked(h[c], r)])| < |Unaborted(h)|
  {
    assert Unaborted(h[c := Marked(h[c], r)]) == Unaborted(h) - {c};
    assert c in Unaborted(h);
  }

  ghost function WithCount(h: Heap<Ctl>, c: Ctl, cb: Cb): Heap<Ctl>
    requires c in h
  {
    h[c := Counted(h[c], cb)]
  }

  lemma CountIsOk(h: Heap<Ctl>, c: Ctl, cb: Cb, u: set<Ctl>, all: set<Ctl>)
    requires HeapOk(h, u, all) && c in h && h[c].aborted
    ensures HeapOk(WithCount(h, c, cb), u, all)
  {
    assert StateOk(c, h[c], u, all);
    forall d | d in u ensures StateOk(d, WithCount(h, c, cb)[d], u, all) {
      assert StateOk(d, h[d], u, all);
    }
  }

  /** Counting a call shows in nothing but the count. */
  lemma CountIsInvisible(h: Heap<Ctl>, c: Ctl, cb: Cb, r: Reason)
    requires c in h && h[c].aborted
    ensures var hb := WithCount(h, c, cb);
      AllPersist(h, hb) && Unaborted(hb) == Unaborted(h) && SameReason(h, hb, r) && SameBut(h, hb, c)
  {
    OneChangeSameReason(h, c, Counted(h[c], cb), r);
    OneChangePersists(h, c, Counted(h[c], cb));
  }

  lemma OneChangePersists(h: Heap<Ctl>, c: Ctl, s: State<Ctl>)
    requires c in h && Persists(h[c], s)
    ensures AllPersist(h, h[c := s])
  {
    forall d | d in h ensures Persists(h[d], h[c := s][d]) {
    }
  }

  lemma CountAround(h1: Heap<Ctl>, ha: Heap<Ctl>, c: Ctl, cb: Cb)
    requires EvolvesAround(h1, ha, c) && c in h1 && h1[c].aborted
    ensures EvolvesAround(h1, WithCount(ha, c, cb), c)
  {
    var hb := WithCount(ha, c, cb);
    forall d | d in h1 ensures Persists(h1[d], hb[d]) && (d != c ==> Fires(h1[d], hb[d], hb)) {
      assert Persists(h1[d], ha[d]);
      if d != c {
        FiresStillHolds(h1[d], ha[d], ha, c, cb);
      }
    }
  }

  lemma FiresStillHolds(a: State<Ctl>, b: State<Ctl>, h: Heap<Ctl>, c: Ctl, cb: Cb)
    requires Fires(a, b, h) && c in h
    ensures Fires(a, b, WithCount(h, c, cb))
  {
  }

  // -------------------------------------------------------------------------
  // In the middle of an abort
  // -------------------------------------------------------------------------

  /** The first i callbacks of an abort have done what they are for. */
  ghost predicate DoneUpTo(h1: Heap<Ctl>, h: Heap<Ctl>, copy: seq<Cb>, i: nat)
    requires i <= |copy|
  {
    forall j :: 0 <= j < i ==> Done(copy[j], h1, h)
  }

  /** The first callback after the cleanup decides. Up to it only c has changed. */
  ghost predicate OpenerDecides(h1: Heap<Ctl>, h: Heap<Ctl>, c: Ctl, copy: seq<Cb>, i: nat)
    requires i <= |copy|
  {
    var k := AfterCleanup(copy);
    (i <= k ==> SameBut(h1, h, c)) && (i > k ==> Decides(copy[k], h1, h))
  }

  /** c, aborted as in h1, has called the first i callbacks of its list. */
  ghost predicate MidAbort(h1: Heap<Ctl>, h: Heap<Ctl>, c: Ctl, copy: seq<Cb>, i: nat)
    requires i <= |copy|
  {
    && c in h1 && h1[c].aborted && EvolvesAround(h1, h, c)
    && DoneUpTo(h1, h, copy, i) && OpenerDecides(h1, h, c, copy, i)
    && h[c].fired + multiset(copy) == h[c].registered + multiset(copy[..i])
    && h1[c].reason.Some? && SameReason(h1, h, h1[c].reason.value)
  }

  /** What one call of cb on behalf of c does; it counts as one of counted. */
  ghost predicate Called(h: Heap<Ctl>, h': Heap<Ctl>, c: Ctl, cb: Cb, counted: Cb, r: Reason) {
    && c in h && h[c].aborted && Evolves(WithCount(h, c, counted), h')
    && Done(cb, h, h') && Decides(cb, h, h')
    && (IsCleanup(cb) ==> SameBut(h, h', c))
    && (Faithful(cb, r) ==> SameReason(h, h', r))
  }

  predicate IsCleanup(cb: Cb) {
    cb.Cleanup? || (cb.Once? && cb.inner.Cleanup?)
  }

  lemma CallStep(h1: Heap<Ctl>, ha: Heap<Ctl>, hc: Heap<Ctl>, c: Ctl, copy: seq<Cb>, i: nat)
    requires i < |copy| && MidAbort(h1, ha, c, copy, i) && copy[i] in h1[c].callbacks
    requires Called(ha, hc, c, copy[i], copy[i], h1[c].reason.value)
    ensures MidAbort(h1, hc, c, copy, i + 1)
  {
    var hb, r := WithCount(ha, c, copy[i]), h1[c].reason.value;
    CountIsInvisible(ha, c, copy[i], r);
    AllPersistTransitive(ha, hb, hc);
    CountAround(h1, ha, c, copy[i]);
    EvolvesAroundTransitive(h1, hb, hc, c);
    StepDone(h1, ha, hc, copy, i);
    assert Persists(h1[c], ha[c]);
    StepDecides(h1, ha, hc, c, copy, i);
    StepReason(h1, ha, hc, c, copy[i], r);
    NextCount(ha[c], hc[c], hc, copy, i);
  }

  lemma StepDone(h1: Heap<Ctl>, ha: Heap<Ctl>, hc: Heap<Ctl>, copy: seq<Cb>, i: nat)
    requires i < |copy| && AllPersist(h1, ha) && AllPersist(ha, hc)
    requires DoneUpTo(h1, ha, copy, i) && Done(copy[i], ha, hc)
    ensures DoneUpTo(h1, hc, copy, i + 1)
  {
    forall j | 0 <= j < i ensures Done(copy[j], h1, hc) {
      DoneLater(copy[j], h1, ha, hc);
    }
    DoneEarlier(copy[i], h1, ha, hc);
  }

  lemma DoneLater(cb: Cb, h: Heap<Ctl>, h1: Heap<Ctl>, h2: Heap<Ctl>)
    requires AllPersist(h, h1) && AllPersist(h1, h2) && Done(cb, h, h1)
    ensures Done(cb, h, h2)
  {
    Same(h);
    DoneWider(cb, h, h, h1, h2);
  }

  lemma DoneEarlier(cb: Cb, h: Heap<Ctl>, h1: Heap<Ctl>, h2: Heap<Ctl>)
    requires AllPersist(h, h1) && AllPersist(h1, h2) && Done(cb, h1, h2)
    ensures Done(cb, h, h2)
  {
    Same(h2);
    DoneWider(cb, h, h1, h2, h2);
  }

  lemma Same(h: Heap<Ctl>)
    ensures AllPersist(h, h)
  {
  }

  lemma StepDecides(h1: Heap<Ctl>, ha: Heap<Ctl>, hc: Heap<Ctl>, c: Ctl, copy: seq<Cb>, i: nat)
    requires i < |copy| && c in h1 && c in ha && h1[c].aborted && ha[c].aborted && AllPersist(ha, hc)
    requires OpenerDecides(h1, ha, c, copy, i) && Decides(copy[i], ha, hc) && (IsCleanup(copy[i]) ==> SameBut(ha, hc, c))
    ensures OpenerDecides(h1, hc, c, copy, i + 1)
  {
    var k := AfterCleanup(copy);
    if i > k {
      DecidesStays(Opener(copy[k], h1), h1, ha, hc);
    } else if i == k {
      OpenerStep(h1, ha, hc, c, copy[k]);
    } else {
    }
  }

  lemma OpenerStep(h1: Heap<Ctl>, ha: Heap<Ctl>, hc: Heap<Ctl>, c: Ctl, cb: Cb)
    requires SameBut(h1, ha, c) && c in h1 && h1[c].aborted && ha[c].aborted && Decides(cb, ha, hc)
    ensures Decides(cb, h1, hc)
  {
    OpenerSame(cb, h1, ha, c);
    SameDecides(Opener(cb, h1), h1, ha, hc, c);
  }

  lemma SameDecides(body: seq<Action<Ctl>>, h: Heap<Ctl>, h': Heap<Ctl>, h2: Heap<Ctl>, c: Ctl)
    requires SameBut(h, h', c) && c in h && h[c].aborted && BodyDecides(body, h', h2)
    ensures BodyDecides(body, h, h2)
  {
  }

  lemma StepReason(h1: Heap<Ctl>, ha: Heap<Ctl>, hc: Heap<Ctl>, c: Ctl, cb: Cb, r: Reason)
    requires c in h1 && cb in h1[c].callbacks && SameReason(h1, ha, r) && AllPersist(ha, hc)
    requires Faithful(cb, r) ==> SameReason(ha, hc, r)
    ensures SameReason(h1, hc, r)
  {
    if FaithfulHeap(h1, r) {
      assert FaithfulState(h1[c], r);
      SameReasonTransitive(h1, ha, hc, r);
    }
  }

  /** Once the whole copy has fired, the busy controller counts like any other. */
  lemma FinishAbort(h0: Heap<Ctl>, hn: Heap<Ctl>, c: Ctl, r: Reason, copy: seq<Cb>)
    requires c in h0 && Unreached(h0[c]) && h0[c].registered == multiset(copy)
    requires MidAbort(h0[c := Marked(h0[c], r)], hn, c, copy, |copy|)
    ensures Evolves(h0, hn) && SameReason(h0, hn, r)
  {
    var h1 := h0[c := Marked(h0[c], r)];
    assert copy[..|copy|] == copy;
    OneChangeSameReason(h0, c, Marked(h0[c], r), r);
    SameReasonTransitive(h0, h1, hn, r);
    AllFired(h1, hn, c, copy);
    MarkPersists(h0, c, r);
    AllPersistTransitive(h0, h1, hn);
    forall d | d in h0 ensures Fires(h0[d], hn[d], hn) {
      if d != c {
        assert Fires(h1[d], hn[d], hn);
      }
    }
  }

  lemma MarkPersists(h: Heap<Ctl>, c: Ctl, r: Reason)
    requires c in h && Unreached(h[c])
    ensures AllPersist(h, h[c := Marked(h[c], r)])
  {
  }

  lemma AllFired(h1: Heap<Ctl>, hn: Heap<Ctl>, c: Ctl, copy: seq<Cb>)
    requires c in h1 && h1[c].registered == multiset(copy) && MidAbort(h1, hn, c, copy, |copy|)
    ensures hn[c].fired == hn[c].registered && Cascaded(hn[c], hn)
  {
    assert copy[..|copy|] == copy;
    assert Persists(h1[c], hn[c]);
    forall cb: Cb ensures hn[c].fired[cb] == hn[c].registered[cb] {
      assert (hn[c].fired + multiset(copy))[cb] == (hn[c].registered + multiset(copy))[cb];
    }
    forall cb | cb in hn[c].registered && IsLink(cb) ensures LinkChild(cb) in hn && Reached(hn[LinkChild(cb)]) {
      assert cb in multiset(copy);
      var j :| 0 <= j < |copy| && copy[j] == cb;
      assert Done(copy[j], h1, hn) && Done(copy[j].inner, h1, hn);
    }
  }

  lemma Stutters(h: Heap<Ctl>)
    ensures Evolves(h, h)
  {
  }

  // -------------------------------------------------------------------------
  // The classes
  // -------------------------------------------------------------------------

  class AbortController {
    var aborted: bool
    var reason: Option<Reason>
    var callbacks: seq<Cb>
    var live: bool
    ghost var registered: multiset<Cb>
    ghost var fired: multiset<Cb>

    constructor ()
      ensures View() == State(false, None, [], true, multiset{}, multiset{})
    {
      aborted, reason, callbacks := false, None, [];
      live, registered, fired := true, multiset{}, multiset{};
    }

    ghost function View(): State<Ctl>
      reads this
    {
      State(aborted, reason, callbacks, live, registered, fired)
    }

    method SetFields(isAborted: bool, why: Option<Reason>, list: seq<Cb>, isLive: bool, ghost reg: multiset<Cb>, ghost fir: multiset<Cb>)
      modifies this
      ensures View() == State(isAborted, why, list, isLive, reg, fir)
    {
      aborted, reason, callbacks, live, registered, fired := isAborted, why, list, isLive, reg, fir;
    }

    /** Every field update of this module goes through here. */
    method Assign(isAborted: bool, why: Option<Reason>, list: seq<Cb>, isLive: bool,
                  ghost reg: multiset<Cb>, ghost fir: multiset<Cb>, ghost u: set<Ctl>)
      requires this in u
      modifies this
      ensures Snap(u) == old(Snap(u))[this := State(isAborted, why, list, isLive, reg, fir)]
    {
      SetFields(isAborted, why, list, isLive, reg, fir);
    }

    /** _remove_callback */
    method RemoveCallback(cb: Cb, ghost u: set<Ctl>, ghost all: set<Ctl>)
      requires World(u, all) && this in u && (aborted || cb.Listener?)
      modifies this
      ensures World(u, all) && Snap(u) == old(Snap(u))[this := Removed(old(View()), cb)]
      ensures Evolves(old(Snap(u)), Snap(u))
    {
      RemovedStep(Snap(u), this, cb, u, all);
      Assign(aborted, reason, RemoveFirst(callbacks, cb), live,
             if aborted || cb !in callbacks then registered else registered - multiset{cb}, fired, u);
    }

    /** One call more in the ghost count. */
    method Count(ghost cb: Cb, ghost u: set<Ctl>, ghost all: set<Ctl>)
      requires World(u, all) && this in u && aborted
      modifies this
      ensures World(u, all) && Snap(u) == WithCount(old(Snap(u)), this, cb)
    {
      CountIsOk(Snap(u), this, cb, u, all);
      Assign(aborted, reason, callbacks, live, registered, fired + multiset{cb}, u);
    }

    /** The loop body of abort(): the i-th callback of the copied list is called. */
    method CallOne(copy: seq<Cb>, i: nat, ghost h1: Heap<Ctl>, ghost u: set<Ctl>, ghost all: set<Ctl>)
      requires World(u, all) && this in u && i < |copy| && Runnable(this, copy[i], u, all)
      requires MidAbort(h1, Snap(u), this, copy, i) && copy[i] in h1[this].callbacks
      modifies u
      ensures World(u, all) && MidAbort(h1, Snap(u), this, copy, i + 1)
      decreases |Unaborted(h1)|, Size(copy[i]) + 1
    {
      ghost var ha := Snap(u);
      assert Persists(h1[this], ha[this]);
      UnabortedShrinks(h1, ha);
      var _ := Fire(this, copy[i], copy[i], h1[this].reason.value, u, all);
      CallStep(h1, ha, Snap(u), this, copy, i);
    }

    method CallAll(copy: seq<Cb>, ghost h1: Heap<Ctl>, ghost u: set<Ctl>, ghost all: set<Ctl>)
      requires World(u, all) && this in u && Snap(u) == h1 && MidAbort(h1, h1, this, copy, 0)
      requires forall cb :: cb in copy ==> Runnable(this, cb, u, all) && cb in h1[this].callbacks
      modifies u
      ensures World(u, all) && MidAbort(h1, Snap(u), this, copy, |copy|)
      decreases |Unaborted(h1)|, 2 + SizeOfList(copy)
    {
      for i := 0 to |copy|
        invariant World(u, all) && MidAbort(h1, Snap(u), this, copy, i)
      {
        SizeOfMember(copy, i);
        CallOne(copy, i, h1, u, all);
      }
    }

    /** abort: set the flag and the reason, then call a copy of the listener list. */
    method Abort(why: Option<Reason>, ghost u: set<Ctl>, ghost all: set<Ctl>)
      requires World(u, all) && this in u && live
      modifies u
      ensures World(u, all) && Evolves(old(Snap(u)), Snap(u)) && aborted
      ensures reason == if old(aborted) then old(reason) else Some(Effective(why))
      ensures old(aborted) ==> Snap(u) == old(Snap(u))
      ensures !old(aborted) ==> AllDone(old(callbacks), old(Snap(u))[this := Marked(old(View()), Effective(why))], Snap(u))
      ensures !old(aborted) ==> BodyDecides(OpenerOf(this, old(callbacks)), old(Snap(u)), Snap(u))
      ensures !old(aborted) ==> FirstDecides(old(callbacks), old(Snap(u))[this := Marked(old(View()), Effective(why))], Snap(u))
      ensures SameReason(old(Snap(u)), Snap(u), Effective(why))
      decreases |Unaborted(Snap(u))|, 0
    {
      Stutters(Snap(u));
      if aborted { return; }
      ghost var h0 := Snap(u);
      assert StateOk(this, h0[this], u, all);
      MarkAborted(h0, this, Effective(why), u, all);
      var copy := callbacks;
      Assign(true, Some(Effective(why)), callbacks, live, registered, fired, u);
      ghost var h1 := Snap(u);
      CallAll(copy, h1, u, all);
      assert Persists(h1[this], Snap(u)[this]);
      FinishAbort(h0, Snap(u), this, Effective(why), copy);
      OpenerBeforeMark(h0, Snap(u), this, Effective(why), copy);
    }
  }

  ghost predicate AllDone(callbacks: seq<Cb>, h: Heap<Ctl>, h': Heap<Ctl>) {
    forall cb :: cb in callbacks ==> Done(cb, h, h')
  }

  ghost predicate FirstDecides(callbacks: seq<Cb>, h: Heap<Ctl>, h': Heap<Ctl>) {
    var k := AfterCleanup(callbacks);
    k < |callbacks| ==> Decides(callbacks[k], h, h')
  }

  lemma OpenerBeforeMark(h0: Heap<Ctl>, hn: Heap<Ctl>, c: Ctl, r: Reason, copy: seq<Cb>)
    requires c in h0 && MidAbort(h0[c := Marked(h0[c], r)], hn, c, copy, |copy|)
    ensures BodyDecides(OpenerOf(c, copy), h0, hn)
    ensures AllDone(copy, h0[c := Marked(h0[c], r)], hn)
    ensures FirstDecides(copy, h0[c := Marked(h0[c], r)], hn)
  {
    var h1 := h0[c := Marked(h0[c], r)];
    forall cb | cb in copy ensures Done(cb, h1, hn) {
      var j :| 0 <= j < |copy| && copy[j] == cb;
    }
  }

  lemma NextCount(a: State<Ctl>, c: State<Ctl>, h: Heap<Ctl>, copy: seq<Cb>, i: nat)
    requires i < |copy| && a.aborted && Fires(Counted(a, copy[i]), c, h)
    requires a.fired + multiset(copy) == a.registered + multiset(copy[..i])
    ensures c.fired + multiset(copy) == c.registered + multiset(copy[..i + 1])
  {
    assert copy[..i + 1] == copy[..i] + [copy[i]];
    var b := Counted(a, copy[i]);
    forall x: Cb ensures (c.fired + multiset(copy))[x] == (c.registered + multiset(copy[..i + 1]))[x] {
      assert (c.fired + b.registered)[x] == (b.fired + c.registered)[x];
      assert (a.fired + multiset(copy))[x] == (a.registered + multiset(copy[..i]))[x];
    }
  }

  ghost function Snap(u: set<Ctl>): Heap<Ctl>
    reads u
  {
    map c | c in u :: c.View()
  }

  ghost predicate AllWrapped(cs: set<Ctl>)
    reads cs
  {
    forall c :: c in cs ==> Wrapped(c.callbacks)
  }

  ghost predicate World(u: set<Ctl>, all: set<Ctl>)
    reads all
  {
    u <= all && HeapOk(Snap(u), u, all) && AllWrapped(all - u)
  }

  /** Calls cb and counts the call as one of counted. raised: it ended with an
      exception, which its caller swallows. */
  method Fire(owner: Ctl, cb: Cb, ghost counted: Cb, ghost r: Reason, ghost u: set<Ctl>, ghost all: set<Ctl>)
      returns (raised: bool)
    requires World(u, all) && owner in u && owner.aborted && Runnable(owner, cb, u, all)
    requires UserCallback(cb) || owner.reason == Some(r)
    modifies u
    ensures World(u, all) && Called(old(Snap(u)), Snap(u), owner, cb, counted, r)
    decreases |Unaborted(Snap(u))|, Size(cb), 1
  {
    match cb
    case Once(inner) =>
      raised := FireOnce(owner, cb, counted, r, u, all);
    case _ =>
      raised := FireBare(owner, cb, counted, r, u, all);
  }

  /** once_wrapper */
  method FireOnce(owner: Ctl, cb: Cb, ghost counted: Cb, ghost r: Reason, ghost u: set<Ctl>, ghost all: set<Ctl>)
      returns (raised: bool)
    requires World(u, all) && owner in u && owner.aborted && cb.Once? && Runnable(owner, cb, u, all)
    requires UserCallback(cb) || owner.reason == Some(r)
    modifies u
    ensures World(u, all) && Called(old(Snap(u)), Snap(u), owner, cb, counted, r)
    decreases |Unaborted(Snap(u))|, Size(cb), 0
  {
    ghost var h := Snap(u);
    raised := Fire(owner, cb.inner, counted, r, u, all);
    ghost var h1 := Snap(u);
    OnceCalled(h, h1, owner, cb, counted, r);
    if !raised {
      owner.RemoveCallback(cb, u, all);
      AfterOnce(h, h1, Snap(u), owner, cb, counted, r);
    }
  }

  /** A user function, _propagate_abort or _remove_abort_handler. */
  method FireBare(owner: Ctl, cb: Cb, ghost counted: Cb, ghost r: Reason, ghost u: set<Ctl>, ghost all: set<Ctl>)
      returns (raised: bool)
    requires World(u, all) && owner in u && owner.aborted && !cb.Once? && Runnable(owner, cb, u, all)
    requires UserCallback(cb) || owner.reason == Some(r)
    modifies u
    ensures World(u, all) && Called(old(Snap(u)), Snap(u), owner, cb, counted, r)
    ensures raised ==> cb.Listener? && cb.raises
    decreases |Unaborted(Snap(u))|, Size(cb), 0
  {
    ghost var h := Snap(u);
    owner.Count(counted, u, all);
    ghost var hb := Snap(u);
    CountIsInvisible(h, owner, counted, r);
    raised := false;
    match cb
    case Listener(_, body, raises) =>
      RunBody(body, r, u, all);
      raised := raises;
      ListenerCalled(h, hb, Snap(u), owner, cb, counted, r);
    case Propagate(p, e) =>
      if e.live {
        e.Abort(if p.live then p.reason else None, u, all);
      } else {
        Stutters(hb);
      }
      LinkCalled(h, hb, Snap(u), owner, cb, counted, r);
    case Cleanup(p, e) =>
      // remove_event_listener(handler): the parent holds the handler in its wrapper only
      NotBare(p, e, u, all);
      CleanupCalled(h, owner, cb, counted, r);
  }

  lemma ListenerCalled(h: Heap<Ctl>, hb: Heap<Ctl>, h': Heap<Ctl>, c: Ctl, cb: Cb, counted: Cb, r: Reason)
    requires cb.Listener? && c in h && h[c].aborted && hb == WithCount(h, c, counted) && RanBody(cb.body, hb, h', r)
    ensures Called(h, h', c, cb, counted, r)
  {
    AfterCount(h, hb, h', c, cb, counted, r);
  }

  lemma LinkCalled(h: Heap<Ctl>, hb: Heap<Ctl>, h': Heap<Ctl>, c: Ctl, cb: Cb, counted: Cb, r: Reason)
    requires cb.Propagate? && c in h && h[c].aborted && hb == WithCount(h, c, counted) && Evolves(hb, h')
    requires cb.child in hb && Reached(h'[cb.child])
    requires Unreached(hb[cb.child]) ==> BodyDecides(OpenerOf(cb.child, hb[cb.child].callbacks), hb, h')
    requires SameReason(hb, h', r)
    ensures Called(h, h', c, cb, counted, r)
  {
    AfterCount(h, hb, h', c, cb, counted, r);
  }

  lemma CleanupCalled(h: Heap<Ctl>, c: Ctl, cb: Cb, counted: Cb, r: Reason)
    requires cb.Cleanup? && c in h && h[c].aborted
    ensures Called(h, WithCount(h, c, counted), c, cb, counted, r)
  {
    var hb := WithCount(h, c, counted);
    Stutters(hb);
    CountIsInvisible(h, c, counted, r);
    AfterCount(h, hb, hb, c, cb, counted, r);
  }

  lemma AfterCount(h: Heap<Ctl>, hb: Heap<Ctl>, h': Heap<Ctl>, owner: Ctl, cb: Cb, counted: Cb, r: Reason)
    requires owner in h && h[owner].aborted && hb == WithCount(h, owner, counted) && Evolves(hb, h')
    requires Done(cb, hb, h') && BodyDecides(Opener(cb, hb), hb, h')
    requires Faithful(cb, r) ==> SameReason(hb, h', r)
    ensures Done(cb, h, h') && Decides(cb, h, h')
    ensures Faithful(cb, r) ==> SameReason(h, h', r)
  {
    CountIsInvisible(h, owner, counted, r);
    DoneEarlier(cb, h, hb, h');
    OpenerSame(cb, h, hb, owner);
    SameDecides(Opener(cb, h), h, hb, h', owner);
    if Faithful(cb, r) {
      SameReasonTransitive(h, hb, h', r);
    }
  }

  lemma OnceCalled(h: Heap<Ctl>, h1: Heap<Ctl>, owner: Ctl, cb: Cb, counted: Cb, r: Reason)
    requires cb.Once? && Called(h, h1, owner, cb.inner, counted, r)
    ensures Called(h, h1, owner, cb, counted, r) && h1[owner].aborted
  {
    assert Persists(WithCount(h, owner, counted)[owner], h1[owner]);
  }

  /** The wrapper removes itself after the call. */
  lemma AfterOnce(h: Heap<Ctl>, h1: Heap<Ctl>, h2: Heap<Ctl>, owner: Ctl, cb: Cb, counted: Cb, r: Reason)
    requires cb.Once? && Called(h, h1, owner, cb, counted, r)
    requires owner in h1 && h2 == h1[owner := Removed(h1[owner], cb)] && Evolves(h1, h2)
    ensures Called(h, h2, owner, cb, counted, r)
  {
    CountIsInvisible(h, owner, counted, r);
    AllPersistTransitive(h, WithCount(h, owner, counted), h1);
    EvolvesTransitive(WithCount(h, owner, counted), h1, h2);
    DoneLater(cb, h, h1, h2);
    DecidesStays(Opener(cb, h), h, h1, h2);
    if Faithful(cb, r) {
      RemovedSameReason(h1, owner, cb, r);
      SameReasonTransitive(h, h1, h2, r);
    }
  }

  /** The removal of the bare handler finds nothing, whatever the parent went through. */
  lemma NotBare(p: Ctl, e: Ctl, u: set<Ctl>, all: set<Ctl>)
    requires World(u, all) && p in all
    ensures RemoveFirst(p.callbacks, Propagate(p, e)) == p.callbacks
  {
    if p in u {
      assert StateOk(p, Snap(u)[p], u, all);
    }
  }

  ghost predicate RanBody(body: seq<Action<Ctl>>, h: Heap<Ctl>, h': Heap<Ctl>, r: Reason) {
    && Evolves(h, h') && BodyDone(body, h, h') && BodyDecides(body, h, h')
    && (FaithfulBody(body, r) ==> SameReason(h, h', r))
  }

  method RunBody(body: seq<Action<Ctl>>, ghost r: Reason, ghost u: set<Ctl>, ghost all: set<Ctl>)
    requires World(u, all) && BodyWithin(body, u)
    modifies u
    ensures World(u, all) && RanBody(body, old(Snap(u)), Snap(u), r)
    decreases |Unaborted(Snap(u))|, SizeOfAll(body)
  {
    ghost var h := Snap(u);
    if body == [] {
      return;
    }
    BodyParts(body, u);
    RunAction(body[0], r, u, all);
    ghost var h1 := Snap(u);
    UnabortedShrinks(h, h1);
    RunBody(body[1..], r, u, all);
    BodyStep(body, h, h1, Snap(u), r);
  }

  lemma BodyParts(body: seq<Action<Ctl>>, u: set<Ctl>)
    requires body != [] && BodyWithin(body, u)
    ensures ActionWithin(body[0], u) && BodyWithin(body[1..], u)
    ensures SizeOfOne(body[0]) - 1 < SizeOfAll(body) && SizeOfAll(body[1..]) < SizeOfAll(body)
  {
  }

  lemma BodyStep(body: seq<Action<Ctl>>, h: Heap<Ctl>, h1: Heap<Ctl>, h2: Heap<Ctl>, r: Reason)
    requires body != [] && RanAction(body[0], h, h1, r) && RanBody(body[1..], h1, h2, r)
    ensures RanBody(body, h, h2, r)
  {
    EvolvesTransitive(h, h1, h2);
    StepBodyDone(body, h, h1, h2);
    DecidesStays([body[0]], h, h1, h2);
    if FaithfulBody(body, r) {
      forall i | 0 <= i < |body[1..]| ensures FaithfulAction(body[1..][i], r) {
        assert body[1..][i] == body[i + 1];
      }
      SameReasonTransitive(h, h1, h2, r);
    }
  }

  lemma StepBodyDone(body: seq<Action<Ctl>>, h: Heap<Ctl>, h1: Heap<Ctl>, h2: Heap<Ctl>)
    requires body != [] && AllPersist(h, h1) && AllPersist(h1, h2)
    requires ActionDone(body[0], h, h1) && BodyDone(body[1..], h1, h2)
    ensures BodyDone(body, h, h2)
  {
    Same(h);
    Same(h2);
    BodyDoneWider([body[0]], h, h, h1, h2);
    BodyDoneWider(body[1..], h, h1, h2, h2);
    forall i | 0 <= i < |body| ensures ActionDone(body[i], h, h2) {
      assert body[i] == if i == 0 then [body[0]][0] else body[1..][i - 1];
    }
  }

  ghost predicate RanAction(a: Action<Ctl>, h: Heap<Ctl>, h': Heap<Ctl>, r: Reason) {
    && Evolves(h, h') && ActionDone(a, h, h') && BodyDecides([a], h, h')
    && (FaithfulAction(a, r) ==> SameReason(h, h', r))
  }

  method RunAction(a: Action<Ctl>, ghost r: Reason, ghost u: set<Ctl>, ghost all: set<Ctl>)
    requires World(u, all) && ActionWithin(a, u)
    modifies u
    ensures World(u, all) && RanAction(a, old(Snap(u)), Snap(u), r)
    ensures a.DoUnlisten? ==> Snap(u) == old(Snap(u))[a.off := Removed(old(a.off.View()), a.removed)]
    decreases |Unaborted(Snap(u))|, SizeOfOne(a) - 1
  {
    ghost var h := Snap(u);
    match a
    case DoAbort(c, why) =>
      if c.live {
        c.Abort(why, u, all);
      } else {
        Stutters(h);
      }
      AbortRan(a, h, Snap(u), r);
    case DoListen(c, cb, once) =>
      AddEventListener(c, "abort", cb, once, r, u, all);
      ListenRan(a, h, Snap(u), r);
    case DoUnlisten(c, cb) =>
      c.RemoveCallback(cb, u, all);
      RemovedSameReason(h, c, cb, r);
    case DoCollect(c) =>
      Collect(c, u, all);
      CollectRan(a, h, Snap(u), r);
  }

  lemma AbortRan(a: Action<Ctl>, h: Heap<Ctl>, h': Heap<Ctl>, r: Reason)
    requires a.DoAbort? && a.target in h && Evolves(h, h')
    requires if h[a.target].live then h'[a.target].aborted && SameReason(h, h', Effective(a.why)) else h' == h
    requires Unreached(h[a.target]) ==> h'[a.target].reason == Some(Effective(a.why))
    ensures RanAction(a, h, h', r)
  {
  }

  lemma ListenRan(a: Action<Ctl>, h: Heap<Ctl>, h': Heap<Ctl>, r: Reason)
    requires a.DoListen? && Evolves(h, h') && Registered(Wrapper(a.listener, a.once), a.on, h, h')
    requires Faithful(a.listener, r) ==> SameReason(h, h', r)
    ensures RanAction(a, h, h', r)
  {
    assert Wrapper(a.listener, a.once) in h'[a.on].registered;
  }

  lemma CollectRan(a: Action<Ctl>, h: Heap<Ctl>, h': Heap<Ctl>, r: Reason)
    requires a.DoCollect? && a.lost in h && h' == h[a.lost := CollectedState(h[a.lost])] && Evolves(h, h')
    ensures RanAction(a, h, h', r)
  {
    OneChangeSameReason(h, a.lost, CollectedState(h[a.lost]), r);
  }

  /** Nobody can see an aborted controller go, and its abort holds it while it runs. */
  ghost function CollectedState(s: State<Ctl>): State<Ctl> {
    if s.aborted then s else s.(live := false)
  }

  /** The last reference to c goes away. */
  method Collect(c: Ctl, ghost u: set<Ctl>, ghost all: set<Ctl>)
    requires World(u, all) && c in u
    modifies c
    ensures World(u, all) && Snap(u) == old(Snap(u))[c := CollectedState(old(c.View()))]
    ensures Evolves(old(Snap(u)), Snap(u))
  {
    Stutters(Snap(u));
    if !c.aborted {
      assert StateOk(c, Snap(u)[c], u, all);
      OneChange(Snap(u), c, CollectedState(c.View()), u, all);
      c.Assign(false, c.reason, c.callbacks, false, c.registered, c.fired, u);
    }
  }

  /** AbortSignal.add_event_listener */
  method AddEventListener(c: Ctl, event: string, listener: Cb, once: bool, ghost r: Reason, ghost u: set<Ctl>, ghost all: set<Ctl>)
    requires World(u, all) && c in u && listener.Listener? && BodyWithin(listener.body, u)
    modifies u
    ensures World(u, all) && Evolves(old(Snap(u)), Snap(u))
    ensures event != "abort" ==> Snap(u) == old(Snap(u))
    ensures event == "abort" ==> Registered(Wrapper(listener, once), c, old(Snap(u)), Snap(u))
    ensures Faithful(listener, r) ==> SameReason(old(Snap(u)), Snap(u), r)
    decreases |Unaborted(Snap(u))|, 3 + Size(listener)
  {
    Stutters(Snap(u));
    if event == "abort" {
      AddCallback(c, Wrapper(listener, once), r, u, all);
    }
  }

  /** cb is appended to the list of c, or, if c is aborted already, called. */
  ghost predicate Registered(cb: Cb, c: Ctl, h: Heap<Ctl>, h': Heap<Ctl>) {
    && c in h && c in h' && h[c].registered + multiset{cb} <= h'[c].registered
    && (if h[c].aborted then Done(cb, h, h') else h' == h[c := Added(h[c], cb)])
  }

  /** _add_callback: append, or call at once when c is already aborted. */
  method AddCallback(c: Ctl, cb: Cb, ghost r: Reason, ghost u: set<Ctl>, ghost all: set<Ctl>)
    requires World(u, all) && c in u && Runnable(c, cb, u, all) && UserCallback(cb)
    modifies u
    ensures World(u, all) && Evolves(old(Snap(u)), Snap(u)) && Registered(cb, c, old(Snap(u)), Snap(u))
    ensures Faithful(cb, r) ==> SameReason(old(Snap(u)), Snap(u), r)
    decreases |Unaborted(Snap(u))|, Size(cb) + 1, 1
  {
    ghost var h := Snap(u);
    AddStep(h, c, cb, r, u, all);
    if c.aborted {
      CallAtOnce(c, cb, r, u, all);
    } else {
      c.Assign(false, c.reason, c.callbacks + [cb], c.live, c.registered + multiset{cb}, c.fired, u);
    }
  }

  method CallAtOnce(c: Ctl, cb: Cb, ghost r: Reason, ghost u: set<Ctl>, ghost all: set<Ctl>)
    requires World(u, all) && c in u && c.aborted && Runnable(c, cb, u, all) && UserCallback(cb)
    requires Evolves(Snap(u), Snap(u)[c := Added(c.View(), cb)])
    modifies u
    ensures World(u, all) && Evolves(old(Snap(u)), Snap(u)) && Registered(cb, c, old(Snap(u)), Snap(u))
    ensures Faithful(cb, r) ==> SameReason(old(Snap(u)), Snap(u), r)
    decreases |Unaborted(Snap(u))|, Size(cb) + 1, 0
  {
    ghost var h := Snap(u);
    RegisterIsOk(h, c, cb, u, all);
    c.Assign(true, c.reason, c.callbacks, c.live, c.registered + multiset{cb}, c.fired, u);
    ghost var h1 := Snap(u);
    var _ := Fire(c, cb, cb, r, u, all);
    AfterRegister(h, h1, Snap(u), c, cb, r);
  }

  lemma AddStep(h: Heap<Ctl>, c: Ctl, cb: Cb, r: Reason, u: set<Ctl>, all: set<Ctl>)
    requires HeapOk(h, u, all) && c in h && Runnable(c, cb, u, all) && UserCallback(cb)
    ensures var h' := h[c := Added(h[c], cb)];
      HeapOk(h', u, all) && Evolves(h, h') && (Faithful(cb, r) ==> SameReason(h, h', r))
  {
    assert StateOk(c, h[c], u, all);
    AddedIsAllowed(c, h[c], cb, u, all);
    OneChange(h, c, Added(h[c], cb), u, all);
    if Faithful(cb, r) {
      OneChangeSameReason(h, c, Added(h[c], cb), r);
    }
  }

  ghost function Noted(s: State<Ctl>, cb: Cb): State<Ctl> {
    s.(registered := s.registered + multiset{cb})
  }

  lemma RegisterIsOk(h: Heap<Ctl>, c: Ctl, cb: Cb, u: set<Ctl>, all: set<Ctl>)
    requires HeapOk(h, u, all) && c in h && h[c].aborted
    ensures var h1 := h[c := Noted(h[c], cb)];
      HeapOk(h1, u, all) && |Unaborted(h1)| == |Unaborted(h)|
  {
    var h1 := h[c := Noted(h[c], cb)];
    assert Unaborted(h1) == Unaborted(h);
    assert StateOk(c, h[c], u, all);
    forall d | d in u ensures StateOk(d, h1[d], u, all) {
      assert StateOk(d, h[d], u, all);
    }
  }

  /** Registered and called: both counts have grown by one when all is done. */
  lemma AfterRegister(h: Heap<Ctl>, h1: Heap<Ctl>, h2: Heap<Ctl>, c: Ctl, cb: Cb, r: Reason)
    requires c in h && h[c].aborted && UserCallback(cb) && h1 == h[c := Noted(h[c], cb)]
    requires Evolves(h, h[c := Added(h[c], cb)]) && Called(h1, h2, c, cb, cb, r)
    ensures Evolves(h, h2) && Registered(cb, c, h, h2)
    ensures Faithful(cb, r) ==> SameReason(h, h2, r)
  {
    var hb := h[c := Added(h[c], cb)];
    NotedAndCounted(h, c, cb);
    EvolvesTransitive(h, hb, h2);
    CountIsInvisible(h1, c, cb, r);
    AllPersistTransitive(h1, hb, h2);
    NotedDone(h, h1, h2, c, cb);
    NotedReason(h, h1, h2, c, cb, r);
  }

  lemma NotedAndCounted(h: Heap<Ctl>, c: Ctl, cb: Cb)
    requires c in h && h[c].aborted
    ensures WithCount(h[c := Noted(h[c], cb)], c, cb) == h[c := Added(h[c], cb)]
  {
    assert Counted(Noted(h[c], cb), cb) == Added(h[c], cb);
  }

  lemma NotedDone(h: Heap<Ctl>, h1: Heap<Ctl>, h2: Heap<Ctl>, c: Ctl, cb: Cb)
    requires c in h && h[c].aborted && UserCallback(cb) && h1 == h[c := Noted(h[c], cb)]
    requires AllPersist(h1, h2) && Done(cb, h1, h2)
    ensures Registered(cb, c, h, h2)
  {
    OneChangePersists(h, c, h1[c]);
    assert Persists(h1[c], h2[c]);
    DoneEarlier(cb, h, h1, h2);
  }

  lemma NotedReason(h: Heap<Ctl>, h1: Heap<Ctl>, h2: Heap<Ctl>, c: Ctl, cb: Cb, r: Reason)
    requires c in h && h1 == h[c := Noted(h[c], cb)] && AllPersist(h1, h2) && (Faithful(cb, r) ==> SameReason(h1, h2, r))
    ensures Faithful(cb, r) ==> SameReason(h, h2, r)
  {
    if Faithful(cb, r) {
      OneChangeSameReason(h, c, h1[c], r);
      SameReasonTransitive(h, h1, h2, r);
    }
  }
}
