/** Namespaces as zero-padded paths, and the narrowing of capability targets. */
module Namespaces {
  type Octet = n: nat | n < 256
  type Namespace = s: seq<Octet> | |s| == 16 witness seq(16, _ => 0)

  /** The path is the shortest prefix with nothing but padding after it. */
  predicate IsPathLength(ns: Namespace, n: nat) {
    n <= 16 && (forall i :: n <= i < 16 ==> ns[i] == 0) && (0 < n ==> ns[n - 1] != 0)
  }

  lemma PathLengthIsUnique(ns: Namespace, n: nat, k: nat)
    requires IsPathLength(ns, n) && IsPathLength(ns, k)
    ensures n == k
  {
  }

  function PathLength(ns: Namespace): (n: nat)
    ensures IsPathLength(ns, n)
  {
    PathLengthFrom(ns, 16)
  }

  function PathLengthFrom(ns: Namespace, len: nat): (n: nat)
    requires len <= 16 && forall i :: len <= i < 16 ==> ns[i] == 0
    ensures IsPathLength(ns, n)
  {
    if len > 0 && ns[len - 1] == 0 then PathLengthFrom(ns, len - 1) else len
  }

  method NamespacePrefixLen(ns: Namespace) returns (len: nat)
    ensures len == PathLength(ns)
  {
    len := 16;
    while len > 0 && ns[len - 1] == 0
      invariant len <= 16 && forall i :: len <= i < 16 ==> ns[i] == 0
    {
      len := len - 1;
    }
    PathLengthIsUnique(ns, len, PathLength(ns));
  }

  predicate IsWithin(child: Namespace, ancestor: Namespace) {
    child[..PathLength(ancestor)] == ancestor[..PathLength(ancestor)]
  }

  /** Containment is exactly the prefix order on paths. */
  lemma WithinMeansPathPrefix(child: Namespace, ancestor: Namespace)
    ensures IsWithin(child, ancestor) <==> ancestor[..PathLength(ancestor)] <= child[..PathLength(child)]
  {
    var n := PathLength(ancestor);
    if IsWithin(child, ancestor) {
      assert n > 0 ==> child[n - 1] == child[..n][n - 1] == ancestor[..n][n - 1] != 0;
      assert n <= PathLength(child);
      assert child[..PathLength(child)][..n] == child[..n];
    }
  }

  lemma PathDetermines(a: Namespace, b: Namespace)
    requires a[..PathLength(a)] == b[..PathLength(b)]
    ensures a == b
  {
    var n := PathLength(a);
    assert n == |a[..n]| == PathLength(b);
    forall i | 0 <= i < 16 ensures a[i] == b[i] {
      if i < n {
        assert a[i] == a[..n][i] == b[..n][i];
      }
    }
  }

  lemma WithinIsReflexive(a: Namespace)
    ensures IsWithin(a, a)
  {
  }

  lemma WithinIsAntisymmetric(a: Namespace, b: Namespace)
    requires IsWithin(a, b) && IsWithin(b, a)
    ensures a == b
  {
    WithinMeansPathPrefix(a, b);
    WithinMeansPathPrefix(b, a);
    PathDetermines(a, b);
  }

  lemma WithinIsTransitive(a: Namespace, b: Namespace, c: Namespace)
    requires IsWithin(a, b) && IsWithin(b, c)
    ensures IsWithin(a, c)
  {
    WithinMeansPathPrefix(a, b);
    WithinMeansPathPrefix(b, c);
    WithinMeansPathPrefix(a, c);
  }

  /** Two namespaces above one and the same namespace are comparable. */
  lemma AncestorsFormAChain(child: Namespace, a: Namespace, b: Namespace)
    requires IsWithin(child, a) && IsWithin(child, b)
    ensures IsWithin(a, b) || IsWithin(b, a)
  {
    WithinMeansPathPrefix(child, a);
    WithinMeansPathPrefix(child, b);
    WithinMeansPathPrefix(a, b);
    WithinMeansPathPrefix(b, a);
    PrefixesOfOne(a[..PathLength(a)], b[..PathLength(b)], child[..PathLength(child)]);
  }

  lemma PrefixesOfOne(p: seq<Octet>, q: seq<Octet>, s: seq<Octet>)
    requires p <= s && q <= s
    ensures p <= q || q <= p
  {
  }

  // ---------- capability targets ----------

  datatype Target = Task(task: nat) | Within(namespace: Namespace)

  predicate TargetIsWithin(requested: Target, granted: Target) {
    match (requested, granted)
    case (Task(r), Task(g)) => r == g
    case (Within(r), Within(g)) => IsWithin(r, g)
    case _ => false
  }

  predicate Narrows(targets: seq<Target>) {
    forall i :: 0 <= i < |targets| - 1 ==> TargetIsWithin(targets[i + 1], targets[i])
  }

  /** However often a target is narrowed, it stays within every target it was narrowed from. */
  lemma {:induction false} NarrowingStaysWithin(targets: seq<Target>, i: nat, j: nat)
    requires Narrows(targets) && i <= j < |targets|
    ensures TargetIsWithin(targets[j], targets[i])
    decreases j
  {
    if i < j {
      NarrowingStaysWithin(targets, i, j - 1);
      assert TargetIsWithin(targets[j - 1 + 1], targets[j - 1]);
      if targets[i].Within? {
        WithinIsTransitive(targets[j].namespace, targets[j - 1].namespace, targets[i].namespace);
      }
    }
  }

  /** Two grants that both cover one request lie on one line of narrowings. */
  lemma GrantsOverOneRequest(request: Target, g: Target, h: Target)
    requires TargetIsWithin(request, g) && TargetIsWithin(request, h)
    ensures TargetIsWithin(g, h) || TargetIsWithin(h, g)
  {
    if request.Within? {
      AncestorsFormAChain(request.namespace, g.namespace, h.namespace);
    }
  }
}
