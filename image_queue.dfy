/**
 * The operations the queue synchroniser applies to one output's image queue
 * (front = next image to show), and what they do to its contents and order.
 */
module ImageQueue {
  import opened Paths

  /**
   * VecDeque::retain with the predicate "not named in `paths`": the entries
   * that are not named, in their original order.
   */
  function Retain(q: seq<PathBuf>, paths: seq<PathBuf>): (r: seq<PathBuf>)
    ensures |r| <= |q|
    ensures paths == [] ==> r == q
  {
    if q == [] then []
    else (if q[0] in paths then [] else [q[0]]) + Retain(q[1..], paths)
  }

  /**
   * The insertion loop of a Create event: in event order, each path not yet
   * in the queue is pushed to the front.
   */
  function PushFrontMissing(q: seq<PathBuf>, paths: seq<PathBuf>): (r: seq<PathBuf>)
    ensures |q| <= |r| <= |q| + |paths|
    decreases |paths|
  {
    if paths == [] then q
    else PushFrontMissing(if paths[0] in q then q else [paths[0]] + q, paths[1..])
  }

  /** The paths of `paths` in reverse order. */
  function Reversed(paths: seq<PathBuf>): (r: seq<PathBuf>)
    ensures |r| == |paths|
    ensures forall i :: 0 <= i < |r| ==> r[i] == paths[|paths| - 1 - i]
  {
    if paths == [] then [] else Reversed(paths[1..]) + [paths[0]]
  }

  predicate NoDuplicates(q: seq<PathBuf>) {
    forall i, j :: 0 <= i < j < |q| ==> q[i] != q[j]
  }

  /** Retain keeps exactly the entries not named, and never lengthens the queue. */
  lemma {:induction false} RetainMembers(q: seq<PathBuf>, paths: seq<PathBuf>)
    ensures |Retain(q, paths)| <= |q|
    ensures forall x :: x in Retain(q, paths) <==> x in q && x !in paths
  {
    if q != [] {
      RetainMembers(q[1..], paths);
      assert q == [q[0]] + q[1..];
    }
  }

  /** After the insertion loop the queue holds its old entries and every path of the event, and nothing else. */
  lemma {:induction false} PushFrontMissingMembers(q: seq<PathBuf>, paths: seq<PathBuf>)
    ensures forall x :: x in PushFrontMissing(q, paths) <==> x in q || x in paths
    decreases |paths|
  {
    if paths != [] {
      var q' := if paths[0] in q then q else [paths[0]] + q;
      PushFrontMissingMembers(q', paths[1..]);
      assert forall x :: x in paths <==> x == paths[0] || x in paths[1..];
    }
  }

  /**
   * The insertion loop only adds at the front: the old queue is the back part
   * of the result, behind at most one new entry per path of the event.
   */
  lemma {:induction false} PushFrontMissingSuffix(q: seq<PathBuf>, paths: seq<PathBuf>)
    ensures var r := PushFrontMissing(q, paths);
      |q| <= |r| <= |q| + |paths| && r[|r| - |q|..] == q
    decreases |paths|
  {
    if paths != [] {
      var q' := if paths[0] in q then q else [paths[0]] + q;
      PushFrontMissingSuffix(q', paths[1..]);
      var r := PushFrontMissing(q, paths);
      assert r == PushFrontMissing(q', paths[1..]);
      assert r[|r| - |q|..] == r[|r| - |q'|..][|q'| - |q|..];
    }
  }

  /** Retain keeps relative order: it acts on the two halves of a queue separately. */
  lemma {:induction false} RetainConcat(a: seq<PathBuf>, b: seq<PathBuf>, paths: seq<PathBuf>)
    ensures Retain(a + b, paths) == Retain(a, paths) + Retain(b, paths)
  {
    if a == [] {
      assert a + b == b;
    } else {
      assert (a + b)[1..] == a[1..] + b;
      RetainConcat(a[1..], b, paths);
    }
  }

  /** Retain keeps every occurrence of an entry it does not remove. */
  lemma {:induction false} RetainCount(q: seq<PathBuf>, paths: seq<PathBuf>, x: PathBuf)
    ensures multiset(Retain(q, paths))[x] == if x in paths then 0 else multiset(q)[x]
  {
    if q != [] {
      RetainCount(q[1..], paths, x);
      assert q == [q[0]] + q[1..];
    }
  }

  /** Removing the same paths a second time changes nothing. */
  lemma {:induction false} RetainIdempotent(q: seq<PathBuf>, paths: seq<PathBuf>)
    ensures Retain(Retain(q, paths), paths) == Retain(q, paths)
  {
    if q != [] {
      RetainConcat(if q[0] in paths then [] else [q[0]], Retain(q[1..], paths), paths);
      RetainIdempotent(q[1..], paths);
    }
  }

  /** A queue without the named paths is unchanged by removing them. */
  lemma {:induction false} RetainNothingNamed(q: seq<PathBuf>, paths: seq<PathBuf>)
    requires forall x :: x in q ==> x !in paths
    ensures Retain(q, paths) == q
  {
    if q != [] {
      RetainNothingNamed(q[1..], paths);
      assert q == [q[0]] + q[1..];
    }
  }

  /**
   * However often an event repeats a path, the insertion loop queues it at
   * most once: a path already queued keeps its count, a new one appears once.
   */
  lemma {:induction false} PushFrontMissingCount(q: seq<PathBuf>, paths: seq<PathBuf>, x: PathBuf)
    ensures multiset(PushFrontMissing(q, paths))[x] ==
      if x in q then multiset(q)[x] else if x in paths then 1 else 0
    decreases |paths|
  {
    if paths != [] {
      var q' := if paths[0] in q then q else [paths[0]] + q;
      PushFrontMissingCount(q', paths[1..], x);
      assert paths == [paths[0]] + paths[1..];
      assert x in paths <==> x == paths[0] || x in paths[1..];
    }
  }

  /** A queue without duplicates gets none from the insertion loop. */
  lemma {:induction false} PushFrontMissingNoDuplicates(q: seq<PathBuf>, paths: seq<PathBuf>)
    requires NoDuplicates(q)
    ensures NoDuplicates(PushFrontMissing(q, paths))
    decreases |paths|
  {
    if paths != [] {
      var q' := if paths[0] in q then q else [paths[0]] + q;
      assert NoDuplicates(q') by {
        if paths[0] !in q {
          forall i, j | 0 <= i < j < |q'| ensures q'[i] != q'[j] {
            if i == 0 {
              assert q'[j] == q[j - 1];
            }
          }
        }
      }
      PushFrontMissingNoDuplicates(q', paths[1..]);
    }
  }

  /**
   * When the event's paths are new and distinct, the insertion loop leaves
   * them in front of the old queue, the last path of the event first.
   */
  lemma {:induction false} PushFrontMissingFresh(q: seq<PathBuf>, paths: seq<PathBuf>)
    requires NoDuplicates(paths)
    requires forall x :: x in paths ==> x !in q
    ensures PushFrontMissing(q, paths) == Reversed(paths) + q
    decreases |paths|
  {
    if paths != [] {
      assert paths[0] !in q;
      assert paths[0] !in paths[1..] by {
        assert forall m :: 1 <= m < |paths| ==> paths[m] != paths[0];
      }
      PushFrontMissingFresh([paths[0]] + q, paths[1..]);
      assert Reversed(paths[1..]) + ([paths[0]] + q) == Reversed(paths) + q;
    }
  }

  /**
   * Removing `paths` after the insertion loop gives what removing them from
   * the original queue gives: every path the loop pushed is removed again.
   */
  lemma {:induction false} RetainAfterPushFront(q: seq<PathBuf>, pushed: seq<PathBuf>, paths: seq<PathBuf>)
    requires forall x :: x in pushed ==> x in paths
    ensures Retain(PushFrontMissing(q, pushed), paths) == Retain(q, paths)
    decreases |pushed|
  {
    if pushed != [] {
      var q' := if pushed[0] in q then q else [pushed[0]] + q;
      RetainAfterPushFront(q', pushed[1..], paths);
      if pushed[0] !in q {
        assert q'[1..] == q;
      }
    }
  }
}
