/** Place/transition nets with unit arcs, their firing rule, and linear (weight) invariants.

    The net library the translator writes to is not part of this model; what matters of it is that a
    net is a set of places with initial tokens and a set of transitions with input and output arcs.
 */
module PetriNets {
  import opened Wrappers

  datatype Transition<P> = Transition(pre: multiset<P>, post: multiset<P>)

  /** `places` holds the initial tokens of every place. */
  datatype Net<P, T> = Net(places: map<P, nat>, transitions: map<T, Transition<P>>)

  // ---------------------------------------------------------------------------------------------
  // Firing rule

  predicate Enabled<P, T>(net: Net<P, T>, m: multiset<P>, t: T) {
    t in net.transitions && net.transitions[t].pre <= m
  }

  function Fire<P, T>(net: Net<P, T>, m: multiset<P>, t: T): multiset<P>
    requires Enabled(net, m, t)
  {
    m - net.transitions[t].pre + net.transitions[t].post
  }

  ghost predicate Dead<P, T(!new)>(net: Net<P, T>, m: multiset<P>) {
    forall t: T :: !Enabled(net, m, t)
  }

  ghost predicate IsInitial<P(!new), T>(net: Net<P, T>, m: multiset<P>) {
    forall p: P :: m[p] == if p in net.places then net.places[p] else 0
  }

  /** The marking after firing `run` from `m`; `None` if some transition of the run is not enabled. */
  ghost function After<P, T>(net: Net<P, T>, m: multiset<P>, run: seq<T>): Option<multiset<P>> {
    if run == [] then Some(m)
    else
      var last := |run| - 1;
      match After(net, m, run[..last])
      case None => None
      case Some(mid) =>
        if Enabled(net, mid, run[last]) then Some(Fire(net, mid, run[last])) else None
  }

  ghost predicate Reachable<P(!new), T(!new)>(net: Net<P, T>, m: multiset<P>) {
    exists m0: multiset<P>, run: seq<T> :: IsInitial(net, m0) && After(net, m0, run) == Some(m)
  }

  /** The formula handed to the model checker: EF (DEADLOCK AND end = 0 AND panic = 0). */
  ghost predicate DeadlockReported<P(!new), T(!new)>(net: Net<P, T>, end: P, panic: P) {
    exists m: multiset<P> :: Reachable(net, m) && Dead(net, m) && m[end] == 0 && m[panic] == 0
  }

  /** Every net has an initial marking. */
  lemma {:induction false} InitialExists<P(!new), T>(net: Net<P, T>) returns (m: multiset<P>)
    ensures IsInitial(net, m)
    decreases |net.places|
  {
    if net.places == map[] {
      m := multiset{};
    } else {
      var p :| p in net.places;
      var rest := net.places - {p};
      assert net.places.Keys == rest.Keys + {p};
      m := InitialExists(net.(places := rest));
      m := m[p := net.places[p]];
    }
  }

  lemma StartIsReachable<P(!new), T(!new)>(net: Net<P, T>, m0: multiset<P>)
    requires IsInitial(net, m0)
    ensures Reachable(net, m0)
  {
    assert After(net, m0, []) == Some(m0);
  }

  lemma ExtendRun<P, T>(net: Net<P, T>, m0: multiset<P>, run: seq<T>, m: multiset<P>, t: T)
    requires After(net, m0, run) == Some(m) && Enabled(net, m, t)
    ensures After(net, m0, run + [t]) == Some(Fire(net, m, t))
  {
    assert (run + [t])[..|run|] == run;
  }

  lemma ReachableStep<P(!new), T(!new)>(net: Net<P, T>, m: multiset<P>, t: T)
    requires Reachable(net, m) && Enabled(net, m, t)
    ensures Reachable(net, Fire(net, m, t))
  {
    var m0: multiset<P>, run: seq<T> :| IsInitial(net, m0) && After(net, m0, run) == Some(m);
    ExtendRun(net, m0, run, m, t);
  }

  // ---------------------------------------------------------------------------------------------
  // Weighted token sums

  ghost function Pick<P(!new)>(m: multiset<P>): (p: P)
    requires |m| != 0
    ensures p in m
  {
    var p :| p in m;
    p
  }

  ghost function Weight<P(!new)>(m: multiset<P>, w: P -> int): int
    decreases |m|
  {
    if |m| == 0 then 0 else w(Pick(m)) + Weight(m - multiset{Pick(m)}, w)
  }

  lemma WeightPick<P(!new)>(m: multiset<P>, w: P -> int)
    requires |m| != 0
    ensures Weight(m, w) == w(Pick(m)) + Weight(m - multiset{Pick(m)}, w)
  {
  }

  lemma Remove<P>(m: multiset<P>, p: P, q: P)
    requires p in m && q in m && p != q
    ensures m - multiset{q} - multiset{p} == m - multiset{p} - multiset{q}
    ensures p in m - multiset{q} && q in m - multiset{p} && |m - multiset{q}| == |m| - 1 == |m - multiset{p}|
  {
  }

  lemma {:induction false} WeightRemove<P(!new)>(m: multiset<P>, w: P -> int, p: P)
    requires p in m
    ensures Weight(m, w) == w(p) + Weight(m - multiset{p}, w)
    decreases |m|
  {
    hide Weight;
    var q := Pick(m);
    WeightPick(m, w);
    if q != p {
      Remove(m, p, q);
      WeightRemove(m - multiset{q}, w, p);
      WeightRemove(m - multiset{p}, w, q);
    }
  }

  lemma WeightNothing<P(!new)>(m: multiset<P>, w: P -> int)
    requires |m| == 0
    ensures Weight(m, w) == 0
  {
  }

  lemma RemoveFromSum<P>(a: multiset<P>, b: multiset<P>, p: P)
    requires p in b
    ensures p in a + b && a + b - multiset{p} == a + (b - multiset{p}) && |b - multiset{p}| == |b| - 1
  {
  }

  lemma {:induction false} WeightSum<P(!new)>(a: multiset<P>, b: multiset<P>, w: P -> int)
    ensures Weight(a + b, w) == Weight(a, w) + Weight(b, w)
    decreases |b|
  {
    hide Weight;
    if |b| == 0 {
      WeightNothing(b, w);
      assert a + b == a;
    } else {
      var p :| p in b;
      RemoveFromSum(a, b, p);
      WeightRemove(a + b, w, p);
      WeightRemove(b, w, p);
      WeightSum(a, b - multiset{p}, w);
    }
  }

  lemma WeightOne<P(!new)>(p: P, w: P -> int)
    ensures Weight(multiset{p}, w) == w(p)
  {
    WeightRemove(multiset{p}, w, p);
    assert multiset{p} - multiset{p} == multiset{};
  }

  lemma {:induction false} WeightNonNegative<P(!new)>(m: multiset<P>, w: P -> int)
    requires forall p :: w(p) >= 0
    ensures Weight(m, w) >= 0
    decreases |m|
  {
    if |m| != 0 {
      var p :| p in m;
      WeightRemove(m, w, p);
      WeightNonNegative(m - multiset{p}, w);
    }
  }

  /** A marking weighs at least what a part of it weighs, if no place weighs less than nothing. */
  lemma WeightPart<P(!new)>(part: multiset<P>, m: multiset<P>, w: P -> int)
    requires part <= m && forall p :: w(p) >= 0
    ensures Weight(part, w) <= Weight(m, w)
  {
    WeightSum(part, m - part, w);
    assert part + (m - part) == m;
    WeightNonNegative(m - part, w);
  }

  /** Weighing one place counts its tokens. */
  lemma {:induction false} WeightIsCount<P(!new)>(m: multiset<P>, w: P -> int, p: P)
    requires forall q :: w(q) == if q == p then 1 else 0
    ensures Weight(m, w) == m[p]
    decreases |m|
  {
    if |m| != 0 {
      WeightIsCount(m - multiset{Pick(m)}, w, p);
    }
  }

  /** What one firing of `t` adds to the weight. */
  ghost function Gain<P(!new)>(t: Transition<P>, w: P -> int): int {
    Weight(t.post, w) - Weight(t.pre, w)
  }

  lemma FireWeight<P(!new), T>(net: Net<P, T>, m: multiset<P>, t: T, w: P -> int)
    requires Enabled(net, m, t)
    ensures Weight(Fire(net, m, t), w) == Weight(m, w) + Gain(net.transitions[t], w)
  {
    var tr := net.transitions[t];
    WeightSum(m - tr.pre, tr.pre, w);
    assert m - tr.pre + tr.pre == m;
    WeightSum(m - tr.pre, tr.post, w);
  }

  // ---------------------------------------------------------------------------------------------
  // Counting the firings of a run

  ghost function Fired<T>(run: seq<T>, which: T -> bool): nat {
    if run == [] then 0
    else Fired(run[..|run| - 1], which) + if which(run[|run| - 1]) then 1 else 0
  }

  /** If a place gains a token from exactly the transitions `up` and loses one to exactly the transitions `down`,
      its tokens count the firings of both. */
  lemma {:induction false} CountLedger<P(!new), T(!new)>(net: Net<P, T>, m: multiset<P>, run: seq<T>, p: P, up: T -> bool, down: T -> bool)
    requires After(net, m, run).Some?
    requires forall t: T :: t in net.transitions ==>
      net.transitions[t].post[p] + (if down(t) then 1 else 0) == net.transitions[t].pre[p] + if up(t) then 1 else 0
    ensures After(net, m, run).value[p] == m[p] + Fired(run, up) - Fired(run, down)
  {
    if run != [] {
      CountLedger(net, m, run[..|run| - 1], p, up, down);
    }
  }

  /** Every run of a net starts somewhere: the marking before its last firing. */
  lemma LastFiring<P, T>(net: Net<P, T>, m: multiset<P>, run: seq<T>)
    requires After(net, m, run).Some? && run != []
    ensures var before := After(net, m, run[..|run| - 1]);
      before.Some? && Enabled(net, before.value, run[|run| - 1]) && After(net, m, run).value == Fire(net, before.value, run[|run| - 1])
  {
  }

  lemma {:induction false} FiredNone<T(!new)>(run: seq<T>, which: T -> bool)
    requires forall t :: t in run ==> !which(t)
    ensures Fired(run, which) == 0
  {
    if run != [] {
      FiredNone(run[..|run| - 1], which);
    }
  }

  lemma {:induction false} NoneFired<T(!new)>(run: seq<T>, which: T -> bool)
    requires Fired(run, which) == 0
    ensures forall t :: t in run ==> !which(t)
  {
    if run != [] {
      NoneFired(run[..|run| - 1], which);
      assert forall t :: t in run <==> t in run[..|run| - 1] || t == run[|run| - 1];
    }
  }

  lemma {:induction false} FiredOneOf<T(!new)>(run: seq<T>, all: T -> bool, one: T -> bool, other: T -> bool)
    requires forall t :: all(t) <==> one(t) || other(t)
    requires forall t :: !(one(t) && other(t))
    ensures Fired(run, all) == Fired(run, one) + Fired(run, other)
  {
    if run != [] {
      FiredOneOf(run[..|run| - 1], all, one, other);
    }
  }

  lemma {:induction false} FiredAdd<T(!new)>(run: seq<T>, more: seq<T>, which: T -> bool)
    ensures Fired(run + more, which) == Fired(run, which) + Fired(more, which)
    decreases |more|
  {
    if more == [] {
      assert run + more == run;
    } else {
      assert (run + more)[..|run + more| - 1] == run + more[..|more| - 1];
      FiredAdd(run, more[..|more| - 1], which);
    }
  }

  /** If exactly the transitions `up` gain one unit of weight and exactly the transitions `down` lose one, the weight
      counts the firings of both. */
  lemma {:induction false} WeightLedger<P(!new), T(!new)>(net: Net<P, T>, m: multiset<P>, run: seq<T>, w: P -> int, up: T -> bool, down: T -> bool)
    requires After(net, m, run).Some?
    requires forall t: T :: t in net.transitions ==>
      Gain(net.transitions[t], w) == (if up(t) then 1 else 0) - if down(t) then 1 else 0
    ensures Weight(After(net, m, run).value, w) == Weight(m, w) + Fired(run, up) - Fired(run, down)
  {
    if run != [] {
      LastFiring(net, m, run);
      WeightLedger(net, m, run[..|run| - 1], w, up, down);
      FireWeight(net, After(net, m, run[..|run| - 1]).value, run[|run| - 1], w);
    }
  }

  /** If no transition loses weight, no run does. */
  lemma {:induction false} WeightNeverShrinks<P(!new), T>(net: Net<P, T>, m: multiset<P>, run: seq<T>, w: P -> int)
    requires After(net, m, run).Some?
    requires forall t :: t in net.transitions ==> Gain(net.transitions[t], w) >= 0
    ensures Weight(After(net, m, run).value, w) >= Weight(m, w)
  {
    if run != [] {
      LastFiring(net, m, run);
      WeightNeverShrinks(net, m, run[..|run| - 1], w);
      FireWeight(net, After(net, m, run[..|run| - 1]).value, run[|run| - 1], w);
    }
  }

  /** If no transition gains weight, no run does; if no transition of the run loses any, the weight stays the same. */
  lemma {:induction false} WeightNeverGrows<P(!new), T(!new)>(net: Net<P, T>, m: multiset<P>, run: seq<T>, w: P -> int)
    requires After(net, m, run).Some?
    requires forall t: T :: t in net.transitions ==> Gain(net.transitions[t], w) <= 0
    ensures Weight(After(net, m, run).value, w) <= Weight(m, w)
    ensures (forall t :: t in run && t in net.transitions ==> Gain(net.transitions[t], w) == 0) ==>
      Weight(After(net, m, run).value, w) == Weight(m, w)
  {
    if run != [] {
      var before, last := run[..|run| - 1], run[|run| - 1];
      LastFiring(net, m, run);
      WeightNeverGrows(net, m, before, w);
      FireWeight(net, After(net, m, before).value, last, w);
      assert last in run && forall t :: t in before ==> t in run;
    }
  }

  /** A marking of positive weight has a token that weighs something. */
  lemma {:induction false} Heavy<P(!new)>(m: multiset<P>, w: P -> int) returns (p: P)
    requires Weight(m, w) > 0
    ensures p in m && w(p) > 0
    decreases |m|
  {
    var q := Pick(m);
    if w(q) > 0 {
      p := q;
    } else {
      p := Heavy(m - multiset{q}, w);
    }
  }

  /** The weight of a marking with one token that weighs anything. */
  lemma WeightOfOne<P(!new)>(m: multiset<P>, w: P -> int, p: P)
    requires m[p] == 1 && forall q :: q in m && q != p ==> w(q) == 0
    ensures Weight(m, w) == w(p)
  {
    WeightRemove(m, w, p);
    WeightZero(m - multiset{p}, w);
  }

  lemma {:induction false} WeightZero<P(!new)>(m: multiset<P>, w: P -> int)
    requires forall p :: p in m ==> w(p) == 0
    ensures Weight(m, w) == 0
    decreases |m|
  {
    if |m| != 0 {
      WeightZero(m - multiset{Pick(m)}, w);
    }
  }

  lemma {:induction false} WeightPlus<P(!new)>(m: multiset<P>, w: P -> int, one: P -> int, other: P -> int)
    requires forall p :: w(p) == one(p) + other(p)
    ensures Weight(m, w) == Weight(m, one) + Weight(m, other)
    decreases |m|
  {
    if |m| != 0 {
      WeightPlus(m - multiset{Pick(m)}, w, one, other);
    }
  }

  // ---------------------------------------------------------------------------------------------
  // Places that hold at most one token

  /** No marking of the run has more than one token in `p`. */
  ghost predicate Safe<P, T>(net: Net<P, T>, m: multiset<P>, run: seq<T>, p: P) {
    forall k :: 0 <= k <= |run| && After(net, m, run[..k]).Some? ==> After(net, m, run[..k]).value[p] <= 1
  }

  lemma SafeBefore<P, T>(net: Net<P, T>, m: multiset<P>, run: seq<T>, p: P)
    requires run != [] && After(net, m, run).Some?
    ensures Safe(net, m, run, p) <==> Safe(net, m, run[..|run| - 1], p) && After(net, m, run).value[p] <= 1
  {
    hide After;
    var before := run[..|run| - 1];
    assert forall k :: 0 <= k <= |before| ==> before[..k] == run[..k];
    assert run[..|run|] == run;
  }

  lemma SafeAtStart<P, T>(net: Net<P, T>, m: multiset<P>, p: P)
    requires m[p] <= 1
    ensures Safe(net, m, [], p)
  {
  }

  /** No marking the net can reach has more than one token in `p`. */
  ghost predicate Bounded<P(!new), T(!new)>(net: Net<P, T>, p: P) {
    forall m: multiset<P> :: Reachable(net, m) ==> m[p] <= 1
  }

  /** The transitions `up` can only fire while `p` is empty. */
  ghost predicate OnlyWhenEmpty<P(!new), T(!new)>(net: Net<P, T>, p: P, up: T -> bool) {
    forall m: multiset<P>, t: T :: Reachable(net, m) && m[p] >= 1 && up(t) ==> !Enabled(net, m, t)
  }

  /** `p` starts with at most one token and gains one exactly from the transitions `up`. */
  ghost predicate FilledBy<P(!new), T(!new)>(net: Net<P, T>, p: P, up: T -> bool) {
    && (p in net.places ==> net.places[p] <= 1)
    && forall t: T :: t in net.transitions ==>
         if up(t) then net.transitions[t].pre[p] == 0 && net.transitions[t].post[p] == 1 else net.transitions[t].post[p] <= net.transitions[t].pre[p]
  }

  lemma {:induction false} BoundedRun<P(!new), T(!new)>(net: Net<P, T>, m0: multiset<P>, run: seq<T>, p: P, up: T -> bool)
    requires IsInitial(net, m0) && After(net, m0, run).Some? && FilledBy(net, p, up) && OnlyWhenEmpty(net, p, up)
    ensures After(net, m0, run).value[p] <= 1
  {
    if run != [] {
      var before := run[..|run| - 1];
      LastFiring(net, m0, run);
      BoundedRun(net, m0, before, p, up);
      assert Reachable(net, After(net, m0, before).value);
    }
  }

  /** Such a place is bounded exactly if no transition that fills it can fire while it holds a token. */
  lemma BoundedIff<P(!new), T(!new)>(net: Net<P, T>, p: P, up: T -> bool)
    requires FilledBy(net, p, up)
    ensures Bounded(net, p) <==> OnlyWhenEmpty(net, p, up)
  {
    hide Reachable;
    if OnlyWhenEmpty(net, p, up) {
      forall m: multiset<P> | Reachable(net, m) ensures m[p] <= 1 {
        var m0, run := RunTo(net, m);
        BoundedRun(net, m0, run, p, up);
      }
    }
    if Bounded(net, p) {
      forall m: multiset<P>, t: T | Reachable(net, m) && m[p] >= 1 && up(t) ensures !Enabled(net, m, t) {
        if Enabled(net, m, t) {
          ReachableStep(net, m, t);
        }
      }
    }
  }

  /** The run behind a reachable marking. */
  lemma RunTo<P(!new), T(!new)>(net: Net<P, T>, m: multiset<P>) returns (m0: multiset<P>, run: seq<T>)
    requires Reachable(net, m)
    ensures IsInitial(net, m0) && After(net, m0, run) == Some(m)
  {
    m0, run :| IsInitial(net, m0) && After(net, m0, run) == Some(m);
  }
}
