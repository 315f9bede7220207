/**
 * Culling in `update`: `group.getChildren().forEach(c => { if (c.x < -50) c.destroy(); })`.
 * `getChildren()` is the group's live array, and `destroy` splices the child
 * out of it while `forEach` walks it by index, so the child right after a
 * destroyed one moves into the visited slot and is not looked at in that frame.
 */
module Culling {

  import opened Sprites

  const CULL_X: real := -50.0

  predicate OffScreen(s: Sprite)
  {
    s.x < CULL_X
  }

  /** The children left after one culling pass over the live array `s`. */
  function Cull(s: seq<Sprite>): seq<Sprite>
  {
    if s == [] then []
    else if !OffScreen(s[0]) then [s[0]] + Cull(s[1..])
    else if |s| == 1 then []
    else [s[1]] + Cull(s[2..])
  }

  /** The on-screen children of `s`, in order. */
  function Visible(s: seq<Sprite>): seq<Sprite>
  {
    if s == [] then []
    else (if OffScreen(s[0]) then [] else [s[0]]) + Visible(s[1..])
  }

  /** `a` is `b` with some elements left out, the others in their order and unchanged. */
  predicate IsSubsequence(a: seq<Sprite>, b: seq<Sprite>)
  {
    if a == [] then true
    else if b == [] then false
    else if a[0] == b[0] then IsSubsequence(a[1..], b[1..])
    else IsSubsequence(a, b[1..])
  }

  /**
   * What the rest of the pass will leave, at index `k` of the live array: the
   * visited part as it is now and the unvisited part culled.
   */
  ghost function Outcome(live: seq<Sprite>, k: nat): seq<Sprite>
  {
    if k <= |live| then live[..k] + Cull(live[k..]) else live
  }

  /**
   * The `forEach` loop: walk the live array by index up to its length at the
   * start, destroying (splicing out) each visited child that is off-screen.
   */
  method DestroyOffScreen(children: seq<Sprite>) returns (live: seq<Sprite>)
    ensures live == Cull(children)
  {
    live := children;
    var n := |children|;
    var k := 0;
    assert live[..0] + Cull(live[0..]) == Cull(children);
    while k < n
      invariant 0 <= k <= n
      invariant |live| <= n
      invariant Outcome(live, k) == Cull(children)
    {
      if k < |live| {
        if OffScreen(live[k]) {
          OutcomeAfterDestroy(live, k);
          live := live[..k] + live[k + 1..];
        } else {
          OutcomeAfterKeep(live, k);
        }
      }
      k := k + 1;
    }
    assert live[..|live|] == live;
  }

  lemma OutcomeAfterDestroy(live: seq<Sprite>, k: nat)
    requires k < |live| && OffScreen(live[k])
    ensures Outcome(live[..k] + live[k + 1..], k + 1) == Outcome(live, k)
  {
    var rest := live[k..];
    var after := live[..k] + live[k + 1..];
    if k + 1 == |live| {
      assert after == live[..k];
    } else {
      assert Cull(rest) == [rest[1]] + Cull(rest[2..]);
      assert after[..k + 1] == live[..k] + [rest[1]];
      assert after[k + 1..] == rest[2..];
    }
  }

  lemma OutcomeAfterKeep(live: seq<Sprite>, k: nat)
    requires k < |live| && !OffScreen(live[k])
    ensures Outcome(live, k + 1) == Outcome(live, k)
  {
  }

  /** Culling only leaves children out: the survivors keep their order and their fields. */
  lemma {:induction false} CullIsSubsequence(s: seq<Sprite>)
    ensures IsSubsequence(Cull(s), s)
  {
    if s == [] {
    } else if !OffScreen(s[0]) {
      CullIsSubsequence(s[1..]);
    } else if |s| == 1 {
    } else {
      var c := Cull(s[2..]);
      CullIsSubsequence(s[2..]);
      assert ([s[1]] + c)[0] == s[1] && ([s[1]] + c)[1..] == c;
      assert s[1..][0] == s[1] && s[1..][1..] == s[2..];
      if s[1] == s[0] {
        SkipOne(c, s[1..]);
      }
    }
  }

  /** A subsequence of `b[1..]` is a subsequence of `b`. */
  lemma {:induction false} SkipOne(a: seq<Sprite>, b: seq<Sprite>)
    requires b != [] && IsSubsequence(a, b[1..])
    ensures IsSubsequence(a, b)
    decreases |a| + |b|
  {
    if a != [] && a[0] == b[0] {
      HeadDrop(a, b[1..]);
    }
  }

  /** Leaving out the head of a subsequence keeps it a subsequence. */
  lemma {:induction false} HeadDrop(a: seq<Sprite>, b: seq<Sprite>)
    requires a != [] && IsSubsequence(a, b)
    ensures IsSubsequence(a[1..], b)
    decreases |a| + |b|
  {
    assert b != [];
    if a[0] == b[0] {
      SkipOne(a[1..], b);
    } else {
      HeadDrop(a, b[1..]);
      SkipOne(a[1..], b);
    }
  }

  /** Culling removes only off-screen children: the on-screen ones all survive. */
  lemma {:induction false} CullKeepsVisible(s: seq<Sprite>)
    ensures Visible(Cull(s)) == Visible(s)
  {
    if s == [] {
    } else if !OffScreen(s[0]) {
      CullKeepsVisible(s[1..]);
      assert ([s[0]] + Cull(s[1..]))[1..] == Cull(s[1..]);
    } else if |s| == 1 {
    } else {
      CullKeepsVisible(s[2..]);
      assert ([s[1]] + Cull(s[2..]))[1..] == Cull(s[2..]);
      assert s[1..][1..] == s[2..];
    }
  }

  /** A pass leaves the group as it was exactly when no child is off-screen; otherwise it shrinks it. */
  lemma {:induction false} CullFixpoint(s: seq<Sprite>)
    ensures |Cull(s)| <= |s|
    ensures Cull(s) == s <==> forall i :: 0 <= i < |s| ==> !OffScreen(s[i])
  {
    if s == [] {
    } else if !OffScreen(s[0]) {
      CullFixpoint(s[1..]);
      assert forall i :: 1 <= i < |s| ==> s[i] == s[1..][i - 1];
      if Cull(s) == s {
        assert Cull(s[1..]) == ([s[0]] + Cull(s[1..]))[1..] == s[1..];
      }
    } else if |s| == 1 {
    } else {
      CullFixpoint(s[2..]);
      assert |Cull(s)| < |s|;
    }
  }

  /** Every survivor of a pass was a child before it. */
  lemma {:induction false} CullMembers(s: seq<Sprite>)
    ensures forall c :: c in Cull(s) ==> c in s
  {
    if s == [] {
    } else if !OffScreen(s[0]) {
      CullMembers(s[1..]);
    } else if |s| > 1 {
      CullMembers(s[2..]);
    }
  }
}
