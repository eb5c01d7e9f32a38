/** Facts that hold all along a run, and steps that never happen in it. */
module Runs {
  /** Holds of every prefix of the run, itself included. */
  ghost predicate Throughout<E>(es: seq<E>, good: seq<E> -> bool) {
    forall k :: 0 <= k <= |es| ==> good(es[..k])
  }

  /** No event of the run is bad after the events before it. */
  ghost predicate Nowhere<E>(es: seq<E>, bad: (seq<E>, E) -> bool) {
    forall k :: 0 <= k < |es| ==> !bad(es[..k], es[k])
  }

  lemma ThroughoutSnoc<E>(es: seq<E>, e: E, good: seq<E> -> bool)
    ensures Throughout(es + [e], good) <==> Throughout(es, good) && good(es + [e])
  {
    var fs := es + [e];
    assert fs[..|fs|] == fs;
    assert forall k :: 0 <= k <= |es| ==> fs[..k] == es[..k];
  }

  lemma NowhereSnoc<E>(es: seq<E>, e: E, bad: (seq<E>, E) -> bool)
    ensures Nowhere(es + [e], bad) <==> Nowhere(es, bad) && !bad(es, e)
  {
    var fs := es + [e];
    assert fs[..|es|] == es && fs[|es|] == e;
    assert forall k :: 0 <= k < |es| ==> fs[..k] == es[..k];
  }

  /** If each step of a run keeps a fact exactly when it is not bad, the fact holds all
      along if and only if no step is bad. */
  lemma {:induction false} IffNowhere<E>(es: seq<E>, good: seq<E> -> bool, bad: (seq<E>, E) -> bool)
    requires good([])
    requires forall k :: 0 <= k < |es| && good(es[..k]) ==> (good(es[..k] + [es[k]]) <==> !bad(es[..k], es[k]))
    ensures Throughout(es, good) <==> Nowhere(es, bad)
  {
    if es != [] {
      var p, e := es[..|es| - 1], es[|es| - 1];
      assert es == p + [e];
      assert forall k :: 0 <= k <= |p| ==> p[..k] == es[..k];
      IffNowhere(p, good, bad);
      ThroughoutSnoc(p, e, good);
      NowhereSnoc(p, e, bad);
      assert p[..|p|] == p;
    }
  }
}
