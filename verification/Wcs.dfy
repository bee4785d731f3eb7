/**
 The worst case stack of every function of a program (rt-thread/tools/WCS.py): a depth-first search over
 the call graph that keeps its results in the dictionaries of the functions.
 */
module Wcs {
  import opened Wrappers

  datatype Stack = Unbounded | Bounded(bytes: nat)

  /** What is known of a function: its own stack, whether it calls through a pointer, the functions it calls,
      and the names it calls that nothing is known of. */
  datatype Function = Function(localStack: nat, ptrCall: bool, calls: seq<nat>, unresolved: set<string>)

  type Graph = map<nat, Function>

  ghost predicate Closed(g: Graph) {
    forall f, i :: f in g && 0 <= i < |g[f].calls| ==> g[f].calls[i] in g
  }

  // ----- names -----

  /** find_fxn: a global function of that name, or else a local one of the same file. */
  function Find(tu: string, name: string, globals: map<string, nat>, locals: map<string, map<string, nat>>): Option<nat> {
    if name in globals then Some(globals[name])
    else if name in locals && tu in locals[name] then Some(locals[name][tu])
    else None
  }

  /** resolve_calls, for the calls in the order they are visited. */
  method Resolve(tu: string, calls: seq<string>, globals: map<string, nat>, locals: map<string, map<string, nat>>)
      returns (found: seq<nat>, unresolved: set<string>)
    ensures forall c :: c in unresolved <==> c in calls && c !in globals && !(c in locals && tu in locals[c])
    ensures forall c :: c in calls && c in globals ==> globals[c] in found
    ensures forall c :: c in calls && c !in globals && c in locals && tu in locals[c] ==> locals[c][tu] in found
    ensures forall f :: f in found ==> exists c :: c in calls && if c in globals then globals[c] == f else c in locals && tu in locals[c] && locals[c][tu] == f
    ensures forall f :: f in found <==> exists c :: c in calls && Find(tu, c, globals, locals) == Some(f)
    ensures forall c :: c in unresolved <==> c in calls && Find(tu, c, globals, locals) == None
  {
    found, unresolved := [], {};
    for i := 0 to |calls|
      invariant forall f :: f in found <==> exists c :: c in calls[..i] && Find(tu, c, globals, locals) == Some(f)
      invariant forall c :: c in unresolved <==> c in calls[..i] && Find(tu, c, globals, locals) == None
    {
      assert calls[..i + 1] == calls[..i] + [calls[i]];
      var call := Find(tu, calls[i], globals, locals);
      match call {
        case Some(f) => found := found + [f];
        case None => unresolved := unresolved + {calls[i]};
      }
    }
    assert calls[..|calls|] == calls;
  }

  // ----- call paths -----

  /** A chain of calls. */
  ghost predicate IsPath(g: Graph, p: seq<nat>) {
    && p != [] && (forall i :: 0 <= i < |p| ==> p[i] in g)
    && forall i :: 0 <= i < |p| - 1 ==> p[i + 1] in g[p[i]].calls
  }

  ghost predicate From(g: Graph, f: nat, p: seq<nat>) { IsPath(g, p) && p[0] == f }

  /** The stack used when the last function of the chain runs. */
  ghost function Sum(g: Graph, p: seq<nat>): nat
    requires forall i :: 0 <= i < |p| ==> p[i] in g
  {
    if p == [] then 0 else g[p[0]].localStack + Sum(g, p[1..])
  }

  /** A chain that ends in a call through a pointer, or in a function it has been in. */
  ghost predicate Bad(g: Graph, p: seq<nat>)
    requires IsPath(g, p)
  {
    g[p[|p| - 1]].ptrCall || p[|p| - 1] in p[..|p| - 1]
  }

  /** No call through a pointer and no recursion can be reached. */
  ghost predicate Clean(g: Graph, f: nat) {
    forall p :: From(g, f, p) ==> !Bad(g, p)
  }

  /** The largest sum of any chain from `f`. */
  ghost predicate Worst(g: Graph, f: nat, n: nat) {
    && (forall p :: From(g, f, p) ==> Sum(g, p) <= n)
    && exists p :: From(g, f, p) && Sum(g, p) == n
  }

  /** The unknown names called by anything that can be reached. */
  ghost predicate AllUnresolved(g: Graph, f: nat, names: set<string>) {
    forall u :: u in names <==> Calls(g, f, u)
  }

  ghost predicate Calls(g: Graph, f: nat, u: string) {
    exists p :: From(g, f, p) && u in g[p[|p| - 1]].unresolved
  }

  /** What the search has found about `f` is right. */
  ghost predicate Right(g: Graph, f: nat, wcs: Stack, names: set<string>) {
    match wcs
    case Unbounded => !Clean(g, f)
    case Bounded(n) => Clean(g, f) && Worst(g, f, n) && AllUnresolved(g, f, names)
  }

  lemma ConsPath(g: Graph, f: nat, p: seq<nat>)
    requires f in g && IsPath(g, p) && p[0] in g[f].calls
    ensures From(g, f, [f] + p) && Sum(g, [f] + p) == g[f].localStack + Sum(g, p)
  {
    var q := [f] + p;
    assert q[1..] == p;
    forall i | 0 <= i < |q| - 1 ensures q[i + 1] in g[q[i]].calls {
      if i > 0 { assert q[i] == p[i - 1] && q[i + 1] == p[i - 1 + 1]; }
    }
  }

  lemma TailPath(g: Graph, f: nat, p: seq<nat>)
    requires From(g, f, p) && |p| > 1
    ensures p[1] in g[f].calls && From(g, p[1], p[1..]) && Sum(g, p) == g[f].localStack + Sum(g, p[1..]) && p == [f] + p[1..]
  {
    var q := p[1..];
    forall i | 0 <= i < |q| - 1 ensures q[i + 1] in g[q[i]].calls {
      assert q[i] == p[i + 1] && q[i + 1] == p[i + 1 + 1];
    }
  }

  lemma OnePath(g: Graph, f: nat)
    requires f in g
    ensures From(g, f, [f]) && Sum(g, [f]) == g[f].localStack
  {
    assert Sum(g, [f]) == g[f].localStack + Sum(g, []);
  }

  /** A function that calls clean functions only, and not through a pointer, is clean: a chain back to it
      would have made the function it started with unclean. */
  lemma CallsClean(g: Graph, f: nat)
    requires f in g && !g[f].ptrCall && forall c :: c in g[f].calls ==> Clean(g, c)
    ensures Clean(g, f)
  {
    forall p | From(g, f, p) ensures !Bad(g, p) {
      if |p| > 1 {
        TailPath(g, f, p);
        var q := p[1..];
        assert !Bad(g, q);
        if p[|p| - 1] == f { Returns(g, f, q); }
        assert p[..|p| - 1] == [f] + q[..|q| - 1];
      }
    }
  }

  /** A chain from a callee of `f` back to `f` can go on to the callee. */
  lemma Returns(g: Graph, f: nat, q: seq<nat>)
    requires f in g && IsPath(g, q) && q[0] in g[f].calls && q[|q| - 1] == f
    ensures !Clean(g, q[0])
  {
    var r := q + [q[0]];
    forall i | 0 <= i < |r| - 1 ensures r[i + 1] in g[r[i]].calls {}
    assert From(g, q[0], r) && r[..|r| - 1] == q && q[0] in q;
    assert Bad(g, r);
  }

  /** What calls an unclean function is unclean. */
  lemma CallsUnclean(g: Graph, f: nat, c: nat)
    requires f in g && c in g[f].calls && !Clean(g, c)
    ensures !Clean(g, f)
  {
    var p :| From(g, c, p) && Bad(g, p);
    ConsPath(g, f, p);
    var q := [f] + p;
    assert q[|q| - 1] == p[|p| - 1] && q[..|q| - 1] == [f] + p[..|p| - 1];
    assert Bad(g, q);
  }

  /** A function that is on the chain of calls leading to it is unclean. */
  lemma CycleUnclean(g: Graph, p: seq<nat>, f: nat)
    requires IsPath(g, p + [f]) && f in p
    ensures !Clean(g, f)
  {
    var i :| 0 <= i < |p| && p[i] == f;
    var q, r := p + [f], (p + [f])[i..];
    forall j | 0 <= j < |r| - 1 ensures r[j + 1] in g[r[j]].calls {
      assert r[j] == q[i + j] && r[j + 1] == q[i + j + 1];
    }
    assert From(g, f, r) && r[0] == f && r[0] in r[..|r| - 1];
    assert Bad(g, r);
  }

  /** The worst sum, from those of the functions called. */
  lemma WorstIs(g: Graph, f: nat, wcs: map<nat, Stack>, most: nat)
    requires f in g && forall c :: c in g[f].calls ==> c in wcs && wcs[c].Bounded? && Worst(g, c, wcs[c].bytes) && wcs[c].bytes <= most
    requires most == 0 || exists c :: c in g[f].calls && wcs[c].bytes == most
    ensures Worst(g, f, most + g[f].localStack)
  {
    OnePath(g, f);
    forall p | From(g, f, p) ensures Sum(g, p) <= most + g[f].localStack {
      if |p| > 1 { TailPath(g, f, p); } else { assert p == [f]; }
    }
    if most > 0 {
      var c :| c in g[f].calls && wcs[c].bytes == most;
      var p :| From(g, c, p) && Sum(g, p) == most;
      ConsPath(g, f, p);
    }
  }

  /** The unknown names, from those of the functions called. */
  lemma UnresolvedIs(g: Graph, f: nat, names: map<nat, set<string>>, all: set<string>)
    requires f in g && forall c :: c in g[f].calls ==> c in names && AllUnresolved(g, c, names[c])
    requires forall u :: u in all <==> u in g[f].unresolved || exists c :: c in g[f].calls && u in names[c]
    ensures AllUnresolved(g, f, all)
  {
    OnePath(g, f);
    forall u ensures u in all <==> Calls(g, f, u) {
      if Calls(g, f, u) {
        var p :| From(g, f, p) && u in g[p[|p| - 1]].unresolved;
        if |p| > 1 {
          TailPath(g, f, p);
          assert From(g, p[1], p[1..]) && p[1..][|p| - 2] == p[|p| - 1];
          assert Calls(g, p[1], u);
        }
      }
      if u in all {
        if u in g[f].unresolved {
          assert From(g, f, [f]) && u in g[[f][0]].unresolved;
        } else {
          var c :| c in g[f].calls && u in names[c];
          assert Calls(g, c, u);
          var p :| From(g, c, p) && u in g[p[|p| - 1]].unresolved;
          ConsPath(g, f, p);
          assert ([f] + p)[|[f] + p| - 1] == p[|p| - 1];
        }
      }
    }
  }

  // ----- the search -----

  ghost function On(p: seq<nat>): set<nat> { set x | x in p }

  lemma OnSnoc(p: seq<nat>, f: nat)
    ensures On(p + [f]) == On(p) + {f}
  {
  }

  /** Results stay, with their names. */
  ghost predicate Keeps(w0: map<nat, Stack>, u0: map<nat, set<string>>, w: map<nat, Stack>, u: map<nat, set<string>>) {
    forall x :: x in w0 ==> x in w && w[x] == w0[x] && x in u0 && x in u && u[x] == u0[x]
  }

  ghost predicate SameOn(s: set<nat>, u0: map<nat, set<string>>, u: map<nat, set<string>>) {
    forall x :: x in s ==> x in u0 && x in u && u[x] == u0[x]
  }

  /** Functions without a result that are not being searched have just their own unknown names. */
  ghost predicate Plain(g: Graph, w: map<nat, Stack>, u: map<nat, set<string>>, s: set<nat>) {
    forall x :: x in g && x !in w && x !in s ==> x in u && u[x] == g[x].unresolved
  }

  ghost predicate AllRight(g: Graph, w: map<nat, Stack>, u: map<nat, set<string>>) {
    forall f :: f in w ==> f in g && f in u && Right(g, f, w[f], u[f])
  }

  /** What the loop over the calls has gathered. */
  ghost predicate Gathered(calls: seq<nat>, own: set<string>, w: map<nat, Stack>, u: map<nat, set<string>>, most: nat, names: set<string>) {
    && (forall c :: c in calls ==> c in w && c in u && w[c].Bounded? && w[c].bytes <= most)
    && (most == 0 || exists c :: c in calls && w[c].bytes == most)
    && (forall n :: n in names <==> n in own || exists c :: c in calls && n in u[c])
  }

  lemma GatheredKeeps(calls: seq<nat>, own: set<string>, w0: map<nat, Stack>, u0: map<nat, set<string>>, w: map<nat, Stack>,
                      u: map<nat, set<string>>, most: nat, names: set<string>)
    requires Gathered(calls, own, w0, u0, most, names) && Keeps(w0, u0, w, u)
    ensures Gathered(calls, own, w, u, most, names)
  {
    if most > 0 {
      var c :| c in calls && w0[c].bytes == most;
      assert w[c].bytes == most;
    }
  }

  lemma GatheredNext(calls: seq<nat>, c: nat, own: set<string>, w: map<nat, Stack>, u: map<nat, set<string>>, most: nat, names: set<string>)
    requires Gathered(calls, own, w, u, most, names) && c in w && c in u && w[c].Bounded?
    ensures Gathered(calls + [c], own, w, u, if most < w[c].bytes then w[c].bytes else most, names + u[c])
  {
    var s, most' := calls + [c], if most < w[c].bytes then w[c].bytes else most;
    if most' > 0 {
      if most < w[c].bytes {
        assert c in s;
      } else {
        var d :| d in calls && w[d].bytes == most;
        assert d in s;
      }
    }
    forall n ensures n in names + u[c] <==> n in own || exists d :: d in s && n in u[d] {
      if n in own || exists d :: d in s && n in u[d] {
        if n !in own {
          var d :| d in s && n in u[d];
          assert d in calls || d == c;
        }
      }
    }
  }

  /** Names gathered for `f` do not count for its callees, which have results while `f` has none. */
  lemma GatheredFrame(calls: seq<nat>, own: set<string>, w: map<nat, Stack>, u: map<nat, set<string>>, most: nat, names: set<string>, f: nat, x: set<string>)
    requires Gathered(calls, own, w, u, most, names) && f !in calls
    ensures Gathered(calls, own, w, u[f := x], most, names)
  {
  }

  /** Functions being searched get no result but that they are unbounded. */
  ghost predicate Pending(s: set<nat>, w0: map<nat, Stack>, w: map<nat, Stack>) {
    forall x :: x in s && x in w ==> x in w0 || w[x] == Unbounded
  }

  /** The dictionaries of the functions, as far as the search writes to them. */
  class Search {
    const g: Graph
    var wcs: map<nat, Stack>
    var unresolved: map<nat, set<string>>

    /** What the search starts from: stack sizes given by hand, and the names left by resolve_calls. */
    constructor (g: Graph, manual: map<nat, Stack>)
      requires Closed(g)
      requires forall f :: f in manual ==> f in g && Right(g, f, manual[f], g[f].unresolved)
      ensures Valid() && this.g == g && wcs == manual && Plain(g, map[], unresolved, {})
    {
      this.g := g;
      wcs := manual;
      unresolved := map f | f in g :: g[f].unresolved;
    }

    ghost predicate Valid()
      reads this
    {
      Closed(g) && unresolved.Keys == g.Keys && AllRight(g, wcs, unresolved)
    }

    /** calc_wcs. The results already there stay, and the functions on the chain of calls that led here keep
        their names. */
    method Calc(f: nat, parents: seq<nat>)
      requires Valid() && f in g && IsPath(g, parents + [f]) && On(parents) <= g.Keys
      requires Plain(g, wcs, unresolved, On(parents))
      modifies this
      ensures Valid() && f in wcs
      ensures Keeps(old(wcs), old(unresolved), wcs, unresolved) && SameOn(On(parents), old(unresolved), unresolved)
      ensures Plain(g, wcs, unresolved, On(parents)) && Pending(On(parents), old(wcs), wcs)
      decreases g.Keys - On(parents), 1
    {
      hide Right, Keeps, SameOn, Plain, AllRight, IsPath, Pending, Closed, On;
      ghost var w0, u0 := wcs, unresolved;
      Still(g, w0, u0, On(parents));
      InOn(parents, f);
      if f in wcs {
        return;
      }
      if g[f].ptrCall {
        PtrUnclean(g, f);
        MarkedUnbounded(g, w0, u0, On(parents), f);
        wcs := wcs[f := Unbounded];
        return;
      }
      if f in parents {
        CycleUnclean(g, parents, f);
        MarkedUnbounded(g, w0, u0, On(parents), f);
        wcs := wcs[f := Unbounded];
        return;
      }
      Visit(f, parents);
    }

    /** The loop over the calls of `f`. */
    method Visit(f: nat, parents: seq<nat>)
      requires Valid() && f in g && IsPath(g, parents + [f]) && On(parents) <= g.Keys
      requires Plain(g, wcs, unresolved, On(parents)) && f !in wcs && !g[f].ptrCall && f !in On(parents)
      modifies this
      ensures Valid() && f in wcs
      ensures Keeps(old(wcs), old(unresolved), wcs, unresolved) && SameOn(On(parents), old(unresolved), unresolved)
      ensures Plain(g, wcs, unresolved, On(parents)) && Pending(On(parents), old(wcs), wcs)
      decreases g.Keys - On(parents), 0
    {
      hide Right, Keeps, SameOn, Plain, AllRight, IsPath, Pending, Closed, On, Gathered, Under;
      ghost var w0, u0, s := wcs, unresolved, On(parents);
      VisitStart(g, w0, u0, s, f);
      OnSnoc(parents, f);
      var callMax: nat := 0;
      var i := 0;
      assert g[f].calls[..0] == [];
      while i < |g[f].calls|
        invariant i <= |g[f].calls| && unresolved.Keys == g.Keys
        invariant Under(g, w0, u0, wcs, unresolved, s, f)
        invariant Gathered(g[f].calls[..i], g[f].unresolved, wcs, unresolved, callMax, unresolved[f])
        decreases |g[f].calls| - i
      {
        assert g[f].calls[..i + 1] == g[f].calls[..i] + [g[f].calls[i]];
        var bounded: bool;
        bounded, callMax := VisitCall(f, parents, i, callMax, w0, u0);
        if !bounded {
          VisitUnbounded(g, w0, u0, wcs, unresolved, s, f);
          wcs := wcs[f := Unbounded];
          return;
        }
        i := i + 1;
      }
      assert g[f].calls[..i] == g[f].calls;
      VisitEnd(g, w0, u0, wcs, unresolved, s, f, callMax);
      wcs := wcs[f := Bounded(callMax + g[f].localStack)];
    }

    /** One call: its result counts for `f`. */
    method VisitCall(f: nat, parents: seq<nat>, i: nat, callMax: nat, ghost w0: map<nat, Stack>, ghost u0: map<nat, set<string>>)
        returns (bounded: bool, most: nat)
      requires Closed(g) && f in g && i < |g[f].calls| && IsPath(g, parents + [f]) && On(parents) <= g.Keys && unresolved.Keys == g.Keys
      requires f !in w0 && f !in On(parents) && Under(g, w0, u0, wcs, unresolved, On(parents), f)
      requires Gathered(g[f].calls[..i], g[f].unresolved, wcs, unresolved, callMax, unresolved[f])
      modifies this
      ensures Under(g, w0, u0, wcs, unresolved, On(parents), f) && unresolved.Keys == g.Keys
      ensures bounded ==> Gathered(g[f].calls[..i] + [g[f].calls[i]], g[f].unresolved, wcs, unresolved, most, unresolved[f])
      ensures !bounded ==> !Clean(g, f)
      decreases g.Keys - On(parents), 0, 0
    {
      hide Right, Keeps, SameOn, Plain, AllRight, IsPath, Pending, Closed, On, Gathered, Under, Clean;
      OnSnoc(parents, f);
      var c := g[f].calls[i];
      ghost var w1, u1 := wcs, unresolved;
      CallPath(g, parents, f, i);
      UnderFacts(g, w0, u0, w1, u1, On(parents), f);
      Calc(c, parents + [f]);
      VisitNested(g, w0, u0, w1, u1, wcs, unresolved, On(parents), f);
      GatheredKeeps(g[f].calls[..i], g[f].unresolved, w1, u1, wcs, unresolved, callMax, unresolved[f]);
      bounded, most := wcs[c] != Unbounded, callMax;
      if !bounded {
        FoundUnclean(g, wcs, unresolved, f, c);
        return;
      }
      ghost var w2, u2 := wcs, unresolved;
      GatheredNext(g[f].calls[..i], c, g[f].unresolved, w2, u2, callMax, u2[f]);
      most := if callMax < wcs[c].bytes then wcs[c].bytes else callMax;
      unresolved := unresolved[f := unresolved[f] + unresolved[c]];
      VisitNext(g, w0, u0, w2, u2, On(parents), f, u2[f] + u2[c], g[f].calls[..i] + [c], most);
    }

    /** calc_all_wcs: every function gets a result. It is unbounded exactly if a call through a pointer or
        recursion can be reached, and otherwise the largest stack of any chain of calls, with the unknown
        names called by anything that can be reached. */
    method CalcAll(order: seq<nat>)
      requires Valid() && Plain(g, wcs, unresolved, {}) && forall f :: f in order <==> f in g
      modifies this
      ensures Valid() && forall f :: f in g ==> f in wcs
      ensures forall f :: f in g ==> (wcs[f] == Unbounded <==> !Clean(g, f))
      ensures forall f :: f in g && wcs[f].Bounded? ==> Worst(g, f, wcs[f].bytes) && AllUnresolved(g, f, unresolved[f])
    {
      hide Keeps, Plain, Clean, Worst, AllUnresolved, Closed;
      for i := 0 to |order|
        invariant Valid() && Plain(g, wcs, unresolved, {}) && forall j :: 0 <= j < i ==> order[j] in wcs
      {
        assert order[i] in order;
        NoParents(g, order[i]);
        ghost var w0, u0 := wcs, unresolved;
        Calc(order[i], []);
        KeptResults(w0, u0, wcs, unresolved);
      }
      forall f | f in g ensures f in wcs && Right(g, f, wcs[f], unresolved[f]) {
        var j :| 0 <= j < |order| && order[j] == f;
      }
    }
  }

  lemma NoParents(g: Graph, f: nat)
    requires f in g
    ensures IsPath(g, [] + [f]) && On([]) == {}
  {
    OnePath(g, f);
    assert [] + [f] == [f];
  }

  lemma KeptResults(w0: map<nat, Stack>, u0: map<nat, set<string>>, w: map<nat, Stack>, u: map<nat, set<string>>)
    requires Keeps(w0, u0, w, u)
    ensures forall x :: x in w0 ==> x in w
  {
  }

  /** The state of the search below `f`, whose callers are `s`. */
  ghost predicate Under(g: Graph, w0: map<nat, Stack>, u0: map<nat, set<string>>, w: map<nat, Stack>, u: map<nat, set<string>>, s: set<nat>, f: nat) {
    AllRight(g, w, u) && Keeps(w0, u0, w, u) && SameOn(s, u0, u) && Plain(g, w, u, s + {f}) && Pending(s + {f}, w0, w)
  }

  lemma UnderFacts(g: Graph, w0: map<nat, Stack>, u0: map<nat, set<string>>, w: map<nat, Stack>, u: map<nat, set<string>>, s: set<nat>, f: nat)
    requires Under(g, w0, u0, w, u, s, f)
    ensures AllRight(g, w, u) && Plain(g, w, u, s + {f})
  {
  }

  lemma InOn(p: seq<nat>, f: nat)
    ensures f in On(p) <==> f in p
  {
  }

  lemma Still(g: Graph, w: map<nat, Stack>, u: map<nat, set<string>>, s: set<nat>)
    requires AllRight(g, w, u) && s <= u.Keys
    ensures Keeps(w, u, w, u) && SameOn(s, u, u) && Pending(s, w, w)
  {
  }

  lemma PtrUnclean(g: Graph, f: nat)
    requires f in g && g[f].ptrCall
    ensures !Clean(g, f)
  {
    OnePath(g, f);
    assert Bad(g, [f]);
  }

  lemma MarkedUnbounded(g: Graph, w: map<nat, Stack>, u: map<nat, set<string>>, s: set<nat>, f: nat)
    requires AllRight(g, w, u) && u.Keys == g.Keys && f in g && f !in w && !Clean(g, f) && Plain(g, w, u, s) && s <= u.Keys
    ensures AllRight(g, w[f := Unbounded], u) && Keeps(w, u, w[f := Unbounded], u) && Plain(g, w[f := Unbounded], u, s)
    ensures Pending(s, w, w[f := Unbounded])
  {
  }

  lemma CallPath(g: Graph, parents: seq<nat>, f: nat, i: nat)
    requires Closed(g) && IsPath(g, parents + [f]) && f in g && i < |g[f].calls|
    ensures g[f].calls[i] in g && IsPath(g, parents + [f] + [g[f].calls[i]])
  {
    var p, c := parents + [f], g[f].calls[i];
    var q := p + [c];
    forall j | 0 <= j < |q| - 1 ensures q[j + 1] in g[q[j]].calls {
      if j < |p| - 1 { assert q[j + 1] == p[j + 1] && q[j] == p[j]; } else { assert q[j] == f && q[j + 1] == c; }
    }
  }

  lemma VisitStart(g: Graph, w: map<nat, Stack>, u: map<nat, set<string>>, s: set<nat>, f: nat)
    requires AllRight(g, w, u) && u.Keys == g.Keys && s <= g.Keys && Plain(g, w, u, s) && f in g && f !in w && f !in s
    ensures Under(g, w, u, w, u, s, f) && Gathered([], g[f].unresolved, w, u, 0, u[f])
  {
    hide Right;
  }

  lemma VisitNested(g: Graph, w0: map<nat, Stack>, u0: map<nat, set<string>>, w1: map<nat, Stack>, u1: map<nat, set<string>>,
                    w2: map<nat, Stack>, u2: map<nat, set<string>>, s: set<nat>, f: nat)
    requires Under(g, w0, u0, w1, u1, s, f) && AllRight(g, w2, u2) && Plain(g, w2, u2, s + {f})
    requires Keeps(w1, u1, w2, u2) && SameOn(s + {f}, u1, u2) && Pending(s + {f}, w1, w2)
    ensures Under(g, w0, u0, w2, u2, s, f) && f in u1 && f in u2 && u2[f] == u1[f]
  {
    hide AllRight, Plain;
  }

  lemma FoundUnclean(g: Graph, w: map<nat, Stack>, u: map<nat, set<string>>, f: nat, c: nat)
    requires AllRight(g, w, u) && c in w && w[c] == Unbounded && f in g && c in g[f].calls
    ensures !Clean(g, f)
  {
    CallsUnclean(g, f, c);
  }

  lemma VisitUnbounded(g: Graph, w0: map<nat, Stack>, u0: map<nat, set<string>>, w: map<nat, Stack>, u: map<nat, set<string>>, s: set<nat>, f: nat)
    requires Under(g, w0, u0, w, u, s, f) && u.Keys == g.Keys && f in g && f !in w0 && !Clean(g, f)
    ensures var w' := w[f := Unbounded];
            AllRight(g, w', u) && Keeps(w0, u0, w', u) && SameOn(s, u0, u) && Plain(g, w', u, s) && Pending(s, w0, w')
  {
    hide Clean;
  }

  lemma VisitNext(g: Graph, w0: map<nat, Stack>, u0: map<nat, set<string>>, w: map<nat, Stack>, u: map<nat, set<string>>,
                  s: set<nat>, f: nat, names: set<string>, calls: seq<nat>, most: nat)
    requires Under(g, w0, u0, w, u, s, f) && u.Keys == g.Keys && f in g && f !in w0 && f !in s
    requires Gathered(calls, g[f].unresolved, w, u, most, names)
    ensures Under(g, w0, u0, w, u[f := names], s, f) && Gathered(calls, g[f].unresolved, w, u[f := names], most, names)
  {
    hide Clean;
    NotGathered(w0, w, s + {f}, f, calls, g[f].unresolved, u, most, names);
    GatheredFrame(calls, g[f].unresolved, w, u, most, names, f, names);
  }

  lemma NotGathered(w0: map<nat, Stack>, w: map<nat, Stack>, t: set<nat>, f: nat, calls: seq<nat>, own: set<string>,
                    u: map<nat, set<string>>, most: nat, names: set<string>)
    requires f in t && f !in w0 && Pending(t, w0, w) && Gathered(calls, own, w, u, most, names)
    ensures f !in calls && (f in w ==> w[f] == Unbounded)
  {
  }

  lemma VisitEnd(g: Graph, w0: map<nat, Stack>, u0: map<nat, set<string>>, w: map<nat, Stack>, u: map<nat, set<string>>, s: set<nat>, f: nat, most: nat)
    requires Under(g, w0, u0, w, u, s, f) && u.Keys == g.Keys && f in g && f !in w0 && f !in s && !g[f].ptrCall
    requires Gathered(g[f].calls, g[f].unresolved, w, u, most, u[f])
    ensures var w' := w[f := Bounded(most + g[f].localStack)];
            AllRight(g, w', u) && Keeps(w0, u0, w', u) && SameOn(s, u0, u) && Plain(g, w', u, s) && Pending(s, w0, w')
  {
    hide Clean, Worst, AllUnresolved;
    forall c | c in g[f].calls ensures Clean(g, c) && Worst(g, c, w[c].bytes) && AllUnresolved(g, c, u[c]) {
      assert Right(g, c, w[c], u[c]);
    }
    CallsClean(g, f);
    WorstIs(g, f, w, most);
    UnresolvedIs(g, f, u, u[f]);
  }
}
