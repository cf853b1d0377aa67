// equipa/abort_controller.py: parents, children and what an abort reaches.

module AbortFamilies {
  import opened AbortControllers
  import opened AbortHeap
  import opened Wrappers

  // -------------------------------------------------------------------------
  // The cascade as a whole
  // -------------------------------------------------------------------------

  /** Listeners that abort for the same reason or not at all: one abort at the top of
      a live path aborts the path. Each controller on it ends with the reason of that
      abort, or the earlier reason it already had, and has fired every registration once. */
  lemma CascadeReason(h: Heap<Ctl>, h': Heap<Ctl>, path: seq<Ctl>, r: Reason, i: nat)
    requires AtRest(h) && Evolves(h, h') && FaithfulHeap(h, r) && SameReason(h, h', r)
    requires LivePath(h, h', path) && h'[path[0]].aborted && i < |path|
    ensures var a, b := h[path[i]], h'[path[i]];
      b.aborted && b.reason == (if a.aborted then a.reason else Some(r)) && b.fired == b.registered
  {
    CascadeCoversPath(h, h', path);
    RestIsKept(h, h');
    assert Persists(h[path[i]], h'[path[i]]) && Inherits(h[path[i]], h'[path[i]], r);
  }

  /** A listener of the first child that aborts the second one: the second child has
      the listener's reason, and that of the parent's abort only if the two agree. */
  method ASiblingMaySayTheReason(w: Option<Reason>, q: Option<Reason>) returns (parent: Ctl, first: Ctl, second: Ctl)
    ensures parent.aborted && parent.reason == Some(Effective(q))
    ensures second.aborted && second.reason == Some(Effective(w))
    ensures parent.reason == second.reason <==> FaithfulAction(DoAbort(second, w), Effective(q))
  {
    ghost var u;
    parent, first, second, u := FirstSpeaks(w);
    ghost var h := Snap(u);
    assert h[parent] == parent.View();
    parent.Abort(q, u, u);
    SecondDecided(h, Snap(u), parent, first, second, w, q);
  }

  /** Two children, and the listener on the first. */
  ghost predicate Speaking(h: Heap<Ctl>, parent: Ctl, first: Ctl, second: Ctl, w: Option<Reason>) {
    && parent in h && first in h && second in h && parent != first && first != second && parent != second
    && h[parent] == TwoLinks(parent, first, second) && h[second] == FreshChild(parent, second)
    && h[first] == Added(FreshChild(parent, first), Listener(0, [DoAbort(second, w)], false))
  }

  method FirstSpeaks(w: Option<Reason>) returns (parent: Ctl, first: Ctl, second: Ctl, ghost u: set<Ctl>)
    ensures fresh(u) && World(u, u) && Speaking(Snap(u), parent, first, second, w)
  {
    parent, first, second, u := TwoChildren();
    ghost var h := Snap(u);
    AddEventListener(first, "abort", Listener(0, [DoAbort(second, w)], false), false, Effective(w), u, u);
    assert Snap(u) == h[first := Added(h[first], Listener(0, [DoAbort(second, w)], false))];
    SpeakingAfter(h, parent, first, second, w);
  }

  lemma SpeakingAfter(h: Heap<Ctl>, parent: Ctl, first: Ctl, second: Ctl, w: Option<Reason>)
    requires parent in h && first in h && second in h && parent != first && first != second && parent != second
    requires h[parent] == TwoLinks(parent, first, second)
    requires h[first] == FreshChild(parent, first) && h[second] == FreshChild(parent, second)
    ensures Speaking(h[first := Added(h[first], Listener(0, [DoAbort(second, w)], false))], parent, first, second, w)
  {
  }

  method TwoChildren() returns (parent: Ctl, first: Ctl, second: Ctl, ghost u: set<Ctl>)
    ensures fresh(u) && World(u, u) && parent in u && first in u && second in u
    ensures parent != first && first != second && parent != second
    ensures Snap(u)[parent] == TwoLinks(parent, first, second)
    ensures Snap(u)[first] == FreshChild(parent, first) && Snap(u)[second] == FreshChild(parent, second)
  {
    parent, first, u := OneChild();
    ghost var h := Snap(u);
    second := CreateChild(parent, u, u);
    u := u + {second};
    ghost var h2 := Snap(u);
    ChildrenOf(parent, first, second, h, h2);
  }

  method OneChild() returns (parent: Ctl, child: Ctl, ghost u: set<Ctl>)
    ensures fresh(u) && World(u, u) && parent in u && child in u && parent != child
    ensures Snap(u)[child] == FreshChild(parent, child)
    ensures Snap(u)[parent] == Added(State(false, None, [], true, multiset{}, multiset{}), Once(Propagate(parent, child)))
  {
    parent, u := LoneController();
    child := CreateChild(parent, u, u);
    u := u + {child};
  }

  method LoneController() returns (c: Ctl, ghost u: set<Ctl>)
    ensures fresh(c) && u == {c} && World(u, u) && Snap(u) == map[c := State(false, None, [], true, multiset{}, multiset{})]
  {
    c := new AbortController();
    u := {c};
  }

  lemma ChildrenOf(parent: Ctl, first: Ctl, second: Ctl, h: Heap<Ctl>, h2: Heap<Ctl>)
    requires parent in h && first in h && second !in h && parent != first && h2 == WithChild(h, parent, second)
    requires h[parent] == Added(State(false, None, [], true, multiset{}, multiset{}), Once(Propagate(parent, first)))
    ensures h2[parent] == TwoLinks(parent, first, second)
    ensures h2[first] == h[first] && h2[second] == FreshChild(parent, second)
  {
    var l1, l2 := Once(Propagate(parent, first)), Once(Propagate(parent, second));
    assert h[parent] == State(false, None, [l1], true, multiset{l1}, multiset{});
    assert [l1] + [l2] == [l1, l2] && multiset{l1} + multiset{l2} == multiset{l1, l2};
  }

  ghost function TwoLinks(parent: Ctl, first: Ctl, second: Ctl): State<Ctl> {
    var l1, l2 := Once(Propagate(parent, first)), Once(Propagate(parent, second));
    State(false, None, [l1, l2], true, multiset{l1, l2}, multiset{})
  }

  lemma SecondDecided(h: Heap<Ctl>, h': Heap<Ctl>, parent: Ctl, first: Ctl, second: Ctl, w: Option<Reason>, q: Option<Reason>)
    requires Speaking(h, parent, first, second, w)
    requires FirstDecides(h[parent].callbacks, h[parent := Marked(h[parent], Effective(q))], h')
    ensures second in h' && h'[second].aborted && h'[second].reason == Some(Effective(w))
  {
    var h1 := h[parent := Marked(h[parent], Effective(q))];
    var link := Once(Propagate(parent, first));
    assert AfterCleanup(h[parent].callbacks) == 0 && h[parent].callbacks[0] == link;
    assert h1[first].callbacks[1] == Listener(0, [DoAbort(second, w)], false);
    assert Opener(link, h1) == Opener(link.inner, h1) == [DoAbort(second, w)];
  }

  // -------------------------------------------------------------------------
  // Parents and children
  // -------------------------------------------------------------------------

  lemma {:induction false} BodyWithinMore(body: seq<Action<Ctl>>, u: set<Ctl>, u': set<Ctl>)
    requires u <= u' && BodyWithin(body, u)
    ensures BodyWithin(body, u')
    decreases body
  {
    forall i | 0 <= i < |body| ensures ActionWithin(body[i], u') {
      ActionWithinMore(body[i], u, u');
    }
  }

  lemma {:induction false} ActionWithinMore(a: Action<Ctl>, u: set<Ctl>, u': set<Ctl>)
    requires u <= u' && ActionWithin(a, u)
    ensures ActionWithin(a, u')
    decreases a
  {
    if a.DoListen? {
      BodyWithinMore(a.listener.body, u, u');
    }
  }

  lemma {:induction false} RunnableMore(owner: Ctl, cb: Cb, u: set<Ctl>, all: set<Ctl>, u': set<Ctl>, all': set<Ctl>)
    requires u <= u' && all <= all' && Runnable(owner, cb, u, all)
    ensures Runnable(owner, cb, u', all')
    decreases cb
  {
    match cb
    case Listener(_, body, _) => BodyWithinMore(body, u, u');
    case Once(inner) => RunnableMore(owner, inner, u, all, u', all');
    case _ =>
  }

  lemma StateOkMore(c: Ctl, s: State<Ctl>, u: set<Ctl>, all: set<Ctl>, u': set<Ctl>, all': set<Ctl>)
    requires u <= u' && all <= all' && StateOk(c, s, u, all)
    ensures StateOk(c, s, u', all')
  {
    forall cb | cb in s.callbacks ensures Runnable(c, cb, u', all') {
      RunnableMore(c, cb, u, all, u', all');
    }
  }

  ghost function FreshChild(parent: Ctl, child: Ctl): State<Ctl> {
    var cleanup := Once(Cleanup(parent, child));
    State(false, None, [cleanup], true, multiset{cleanup}, multiset{})
  }

  /** The heap after create_child_abort_controller. An aborted parent hands its
      reason over at once; otherwise each side gets one once listener. */
  ghost function WithChild(h: Heap<Ctl>, parent: Ctl, child: Ctl): Heap<Ctl>
    requires parent in h
  {
    if h[parent].aborted then
      h[child := State(true, Some(Effective(h[parent].reason)), [], true, multiset{}, multiset{})]
    else
      h[parent := Added(h[parent], Once(Propagate(parent, child)))][child := FreshChild(parent, child)]
  }

  lemma WithChildIsOk(h: Heap<Ctl>, parent: Ctl, child: Ctl, u: set<Ctl>, all: set<Ctl>)
    requires HeapOk(h, u, all) && parent in h && child !in all && u <= all
    ensures HeapOk(WithChild(h, parent, child), u + {child}, all + {child})
  {
    var h' := WithChild(h, parent, child);
    forall c | c in h' ensures StateOk(c, h'[c], u + {child}, all + {child}) {
      if c != child {
        assert StateOk(c, h[c], u, all);
        StateOkMore(c, h[c], u, all, u + {child}, all + {child});
        if c == parent && !h[c].aborted {
          var link := Once(Propagate(parent, child));
          assert multiset(h[c].callbacks + [link]) == multiset(h[c].callbacks) + multiset{link};
        }
      } else {
        assert multiset([Once(Cleanup(parent, child))]) == multiset{Once(Cleanup(parent, child))};
      }
    }
  }

  /** A new child disturbs nothing: what was settled stays settled, and a later abort
      of the parent will find it. */
  lemma WithChildRests(h: Heap<Ctl>, parent: Ctl, child: Ctl)
    requires parent in h && child !in h && AtRest(h)
    ensures AtRest(WithChild(h, parent, child))
    ensures !h[parent].aborted && h[parent].live ==>
              LivePath(WithChild(h, parent, child), WithChild(h, parent, child), [parent, child])
  {
    var h' := WithChild(h, parent, child);
    forall c | c in h' && h'[c].aborted ensures h'[c].fired == h'[c].registered && Cascaded(h'[c], h') {
      if c != child {
        assert Cascaded(h[c], h);
      }
    }
  }

  /** The two controllers of create_child_abort_controller. */
  method MakeChild(parent: Ctl, ghost u: set<Ctl>) returns (child: Ctl)
    requires parent in u
    modifies parent
    ensures fresh(child) && child !in u
    ensures MadeChild(old(Snap(u)), Snap(u), child.View(), parent, child)
  {
    child := new AbortController();
    if parent.aborted {
      child.SetFields(true, Some(Effective(parent.reason)), [], true, multiset{}, multiset{});
    } else {
      LinkTo(parent, child, u);
      var cleanup := Once(Cleanup(parent, child));
      child.SetFields(false, None, [cleanup], true, multiset{cleanup}, multiset{});
    }
  }

  /** The listener the parent gets. */
  method LinkTo(parent: Ctl, child: Ctl, ghost u: set<Ctl>)
    requires parent in u && child !in u && !parent.aborted
    modifies parent
    ensures Snap(u) == old(Snap(u))[parent := Added(old(parent.View()), Once(Propagate(parent, child)))]
  {
    var link := Once(Propagate(parent, child));
    parent.Assign(false, parent.reason, parent.callbacks + [link], parent.live, parent.registered + multiset{link}, parent.fired, u);
  }

  ghost predicate MadeChild(h: Heap<Ctl>, h': Heap<Ctl>, s: State<Ctl>, parent: Ctl, child: Ctl) {
    parent in h &&
    if h[parent].aborted then h' == h && s == State(true, Some(Effective(h[parent].reason)), [], true, multiset{}, multiset{})
    else h' == h[parent := Added(h[parent], Once(Propagate(parent, child)))] && s == FreshChild(parent, child)
  }

  /** create_child_abort_controller */
  method CreateChild(parent: Ctl, ghost u: set<Ctl>, ghost all: set<Ctl>) returns (child: Ctl)
    requires World(u, all) && parent in u
    modifies parent
    ensures fresh(child) && World(u + {child}, all + {child})
    ensures Snap(u + {child}) == WithChild(old(Snap(u)), parent, child)
  {
    ghost var h := Snap(u);
    child := MakeChild(parent, u);
    WithChildIsOk(h, parent, child, u, all);
    SnapWith(h, parent, child, u);
  }

  lemma SnapWith(h: Heap<Ctl>, parent: Ctl, child: Ctl, u: set<Ctl>)
    requires child !in u && MadeChild(h, Snap(u), child.View(), parent, child)
    ensures Snap(u + {child}) == WithChild(h, parent, child)
  {
    forall c | c in u ensures Snap(u + {child})[c] == Snap(u)[c] {
    }
  }

  // -------------------------------------------------------------------------
  // What an abort does not reach
  // -------------------------------------------------------------------------

  /** An abort inside v, any closed part of u, is one of u. */
  lemma OnlyPartChanged(h: Heap<Ctl>, h1: Heap<Ctl>, part: Heap<Ctl>, v: set<Ctl>, u: set<Ctl>, all: set<Ctl>)
    requires HeapOk(h, u, all) && h1.Keys == u && v <= u && HeapOk(part, v, all)
    requires forall d :: d in v ==> h1[d] == part[d]
    requires forall d :: d in u && d !in v ==> h1[d] == h[d]
    ensures HeapOk(h1, u, all)
  {
    forall d | d in u ensures StateOk(d, h1[d], u, all) {
      if d in v {
        assert StateOk(d, part[d], v, all);
        StateOkMore(d, h1[d], v, all, u, all);
      } else {
        assert StateOk(d, h[d], u, all);
      }
    }
  }

  lemma PartEvolves(h: Heap<Ctl>, h1: Heap<Ctl>, part: Heap<Ctl>, part1: Heap<Ctl>, v: set<Ctl>)
    requires part.Keys == part1.Keys == v && v <= h.Keys == h1.Keys && Evolves(part, part1)
    requires forall d :: d in v ==> part[d] == h[d] && part1[d] == h1[d]
    requires forall d :: d in h && d !in v ==> h1[d] == h[d]
    ensures Evolves(h, h1)
  {
    Stutters(h);
    forall d | d in h ensures Persists(h[d], h1[d]) && Fires(h[d], h1[d], h1) {
      if d in v {
        assert Persists(part[d], part1[d]) && Fires(part[d], part1[d], part1);
      } else {
        assert Persists(h[d], h[d]) && Fires(h[d], h[d], h);
      }
    }
  }

  /** The child is aborted first, and its listener on the parent is not removed. When
      the parent is aborted later the leftover changes nothing about the child. */
  method LeftoverIsHarmless(parent: Ctl, child: Ctl, first: Option<Reason>, second: Option<Reason>,
                            ghost v: set<Ctl>, ghost u: set<Ctl>, ghost all: set<Ctl>)
    requires World(u, all) && World(v, all) && v <= u && child in v && parent in u && parent !in v
    requires parent.live && child.live
    requires !parent.aborted && !child.aborted && Once(Propagate(parent, child)) in parent.callbacks
    modifies u
    ensures World(u, all) && parent.aborted && child.aborted
    ensures child.reason == Some(Effective(first)) && parent.reason == Some(Effective(second))
    ensures Once(Propagate(parent, child)) in old(parent.callbacks)
  {
    ghost var h := Snap(u);
    child.Abort(first, v, all);
    ghost var h1 := Snap(u);
    OnlyPartChanged(h, h1, Snap(v), v, u, all);
    parent.Abort(second, u, all);
    assert Persists(h1[child], Snap(u)[child]);
  }

  ghost predicate LinksTo(h: Heap<Ctl>, p: Ctl, e: Ctl) {
    p in h && Once(Propagate(p, e)) in h[p].callbacks
  }

  /** n links lead from c down to d. */
  ghost predicate Leads(h: Heap<Ctl>, c: Ctl, d: Ctl, n: nat) {
    if n == 0 then c == d else exists m :: m in h && Leads(h, c, m, n - 1) && LinksTo(h, m, d)
  }

  ghost predicate Under(h: Heap<Ctl>, c: Ctl, d: Ctl) {
    exists n: nat :: Leads(h, c, d, n)
  }

  /** c and everything below it. */
  ghost function Below(h: Heap<Ctl>, c: Ctl): set<Ctl> {
    set d | d in h && Under(h, c, d)
  }

  /** The links form a forest: up is the controller a child was created on, age the
      order of creation. */
  ghost predicate Forest(h: Heap<Ctl>, up: map<Ctl, Ctl>, age: map<Ctl, nat>) {
    && h.Keys <= age.Keys
    && (forall e :: e in up ==> e in age && up[e] in age && age[up[e]] < age[e])
    && (forall p :: p in h ==> forall cb :: cb in h[p].callbacks && IsLink(cb) ==> LinkChild(cb) in up && up[LinkChild(cb)] == p)
  }

  lemma ForestIsKept(h: Heap<Ctl>, h': Heap<Ctl>, up: map<Ctl, Ctl>, age: map<Ctl, nat>)
    requires Forest(h, up, age) && AllPersist(h, h')
    ensures Forest(h', up, age)
  {
    forall p, cb | p in h' && cb in h'[p].callbacks && IsLink(cb) ensures LinkChild(cb) in up && up[LinkChild(cb)] == p {
      assert Persists(h[p], h'[p]);
    }
  }

  lemma WithChildKeepsForest(h: Heap<Ctl>, parent: Ctl, child: Ctl, up: map<Ctl, Ctl>, age: map<Ctl, nat>)
    requires Forest(h, up, age) && parent in h && child !in h && child !in age
    ensures Forest(WithChild(h, parent, child), up[child := parent], age[child := age[parent] + 1])
  {
  }

  lemma {:induction false} LeadsToYounger(h: Heap<Ctl>, c: Ctl, d: Ctl, n: nat, up: map<Ctl, Ctl>, age: map<Ctl, nat>)
    requires Forest(h, up, age) && c in h && Leads(h, c, d, n)
    ensures d in age && (c == d || age[c] < age[d])
  {
    if n > 0 {
      var m :| m in h && Leads(h, c, m, n - 1) && LinksTo(h, m, d);
      LeadsToYounger(h, c, m, n - 1, up, age);
      assert IsLink(Once(Propagate(m, d)));
    }
  }

  predicate Siblings(c: Ctl, d: Ctl, up: map<Ctl, Ctl>) {
    c != d && c in up && d in up && up[c] == up[d]
  }

  /** Neither what c hangs from nor what hangs beside it is below c. */
  lemma AncestorsAndSiblingsAreNotBelow(h: Heap<Ctl>, c: Ctl, d: Ctl, up: map<Ctl, Ctl>, age: map<Ctl, nat>)
    requires Forest(h, up, age) && c in h && d in h && ((c != d && Under(h, d, c)) || Siblings(c, d, up))
    ensures d !in Below(h, c)
  {
    if d in Below(h, c) {
      var n: nat :| Leads(h, c, d, n);
      LeadsToYounger(h, c, d, n, up, age);
      if c != d && Under(h, d, c) {
        var k: nat :| Leads(h, d, c, k);
        LeadsToYounger(h, d, c, k, up, age);
        assert false;
      } else {
        var m :| m in h && Leads(h, c, m, n - 1) && LinksTo(h, m, d);
        assert IsLink(Once(Propagate(m, d))) && m == up[c];
        LeadsToYounger(h, c, m, n - 1, up, age);
        assert false;
      }
    }
  }

  /** The users' listeners in v touch only controllers in v. */
  ghost predicate ListenersWithin(h: Heap<Ctl>, v: set<Ctl>, all: set<Ctl>) {
    forall d :: d in v && d in h ==> forall cb :: cb in h[d].callbacks && UserCallback(cb) ==> Runnable(d, cb, v, all)
  }

  lemma BelowIsClosed(h: Heap<Ctl>, part: Heap<Ctl>, c: Ctl, u: set<Ctl>, all: set<Ctl>)
    requires HeapOk(h, u, all) && c in h && ListenersWithin(h, Below(h, c), all)
    requires part.Keys == Below(h, c) && forall d :: d in part ==> part[d] == h[d]
    ensures HeapOk(part, Below(h, c), all)
  {
    var v := Below(h, c);
    forall d, cb | d in v && cb in part[d].callbacks ensures Runnable(d, cb, v, all) {
      assert StateOk(d, h[d], u, all) && Runnable(d, cb, u, all);
      if cb.Once? && !cb.inner.Listener? {
        assert Runnable(d, cb.inner, u, all);
        if cb.inner.Propagate? {
          ChildIsBelow(h, c, d, cb.inner.child);
        }
        assert Runnable(d, cb.inner, v, all);
      }
    }
    forall d | d in v ensures StateOk(d, part[d], v, all) {
      assert StateOk(d, h[d], u, all);
    }
  }

  lemma ChildIsBelow(h: Heap<Ctl>, c: Ctl, d: Ctl, e: Ctl)
    requires d in Below(h, c) && e in h && LinksTo(h, d, e)
    ensures e in Below(h, c)
  {
    var n: nat :| Leads(h, c, d, n);
    assert Leads(h, c, e, n + 1);
  }

  lemma BelowItself(h: Heap<Ctl>, c: Ctl)
    requires c in h
    ensures c in Below(h, c)
  {
    assert Leads(h, c, c, 0);
  }

  /** Aborting c changes only controllers below c, as long as their listeners touch no
      others: its ancestors, its siblings and everything elsewhere stay as they are. */
  method AbortStaysBelow(c: Ctl, why: Option<Reason>, ghost u: set<Ctl>, ghost all: set<Ctl>,
                         ghost up: map<Ctl, Ctl>, ghost age: map<Ctl, nat>)
    requires World(u, all) && c in u && c.live && Forest(Snap(u), up, age)
    requires ListenersWithin(Snap(u), Below(Snap(u), c), all)
    modifies Below(Snap(u), c)
    ensures World(u, all) && Evolves(old(Snap(u)), Snap(u)) && Forest(Snap(u), up, age)
    ensures c.aborted && c.reason == if old(c.aborted) then old(c.reason) else Some(Effective(why))
    ensures forall d :: d in u && d !in old(Below(Snap(u), c)) ==> Snap(u)[d] == old(Snap(u))[d]
    ensures forall d :: d in u && c != d && old(Under(Snap(u), d, c)) ==> Snap(u)[d] == old(Snap(u))[d]
    ensures forall d :: d in u && Siblings(c, d, up) ==> Snap(u)[d] == old(Snap(u))[d]
  {
    ghost var h := Snap(u);
    ghost var v := Below(h, c);
    ghost var part := Snap(v);
    BelowItself(h, c);
    BelowIsClosed(h, part, c, u, all);
    c.Abort(why, v, all);
    ghost var h1 := Snap(u);
    OnlyPartChanged(h, h1, Snap(v), v, u, all);
    forall d | d in u && ((c != d && Under(h, d, c)) || Siblings(c, d, up)) ensures h1[d] == h[d] {
      AncestorsAndSiblingsAreNotBelow(h, c, d, up, age);
    }
    PartEvolves(h, h1, part, Snap(v), v);
    ForestIsKept(h, h1, up, age);
  }
}
