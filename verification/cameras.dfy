/**
 * The in-memory camera list of the monitoring shell: an ordered sequence of
 * (name, stream URL) entries, grown by appending and shrunk by dropping every
 * entry that carries a given name. Names are not required to be unique.
 */
module Cameras {

  datatype Camera = Camera(name: string, streamUrl: string)

  /** True when some entry of `cs` is called `n`. */
  predicate HasName(cs: seq<Camera>, n: string) {
    exists i :: 0 <= i < |cs| && cs[i].name == n
  }

  /** The list after adding an entry: the new entry goes at the end. */
  function Added(cs: seq<Camera>, n: string, u: string): (r: seq<Camera>)
    ensures |r| == |cs| + 1
    ensures forall i :: 0 <= i < |cs| ==> r[i] == cs[i]
    ensures r[|cs|] == Camera(n, u)
    ensures HasName(r, n)
  {
    cs + [Camera(n, u)]
  }

  /** The list after removing a name: the entries whose name differs from `n`. */
  function Removed(cs: seq<Camera>, n: string): (r: seq<Camera>)
    ensures |r| <= |cs|
    ensures !HasName(r, n)
    ensures forall c :: c in r <==> c in cs && c.name != n
  {
    if cs == [] then []
    else if cs[0].name != n then [cs[0]] + Removed(cs[1..], n)
    else Removed(cs[1..], n)
  }

  /** Removal keeps every copy of each entry whose name differs, and no copy of the others. */
  lemma {:induction false} RemovedCounts(cs: seq<Camera>, n: string, c: Camera)
    ensures multiset(Removed(cs, n))[c] == if c.name == n then 0 else multiset(cs)[c]
  {
    if cs != [] {
      assert cs == [cs[0]] + cs[1..];
      RemovedCounts(cs[1..], n, c);
    }
  }

  /** Removal works entry by entry, so it keeps the relative order of what stays. */
  lemma {:induction false} RemovedConcat(a: seq<Camera>, b: seq<Camera>, n: string)
    ensures Removed(a + b, n) == Removed(a, n) + Removed(b, n)
  {
    if a == [] {
      assert a + b == b;
    } else {
      assert (a + b)[1..] == a[1..] + b;
      RemovedConcat(a[1..], b, n);
    }
  }

  /** Removing a name that no entry carries leaves the list as it was. */
  lemma {:induction false} RemovedAbsent(cs: seq<Camera>, n: string)
    requires !HasName(cs, n)
    ensures Removed(cs, n) == cs
  {
    if cs != [] {
      assert cs[0].name != n;
      assert !HasName(cs[1..], n) by {
        forall i | 0 <= i < |cs[1..]| ensures cs[1..][i].name != n {
          assert cs[1..][i] == cs[i + 1];
        }
      }
      RemovedAbsent(cs[1..], n);
      assert [cs[0]] + cs[1..] == cs;
    }
  }

  /** Removing the same name twice is the same as removing it once. */
  lemma RemovedIdempotent(cs: seq<Camera>, n: string)
    ensures Removed(Removed(cs, n), n) == Removed(cs, n)
  {
    RemovedAbsent(Removed(cs, n), n);
  }

  /** On a single entry, removal keeps it exactly when its name differs. */
  lemma RemovedSingle(c: Camera, n: string)
    ensures Removed([c], n) == if c.name == n then [] else [c]
  {
    assert [c][1..] == [];
  }

  /** Adding `n` and then removing `n` gives what removing `n` alone gives. */
  lemma AddedThenRemoved(cs: seq<Camera>, n: string, u: string)
    ensures Removed(Added(cs, n, u), n) == Removed(cs, n)
  {
    RemovedConcat(cs, [Camera(n, u)], n);
    RemovedSingle(Camera(n, u), n);
    assert Removed(cs, n) + [] == Removed(cs, n);
  }

  /** When no entry was called `n`, adding `n` and then removing `n` restores the list. */
  lemma AddedThenRemovedRestores(cs: seq<Camera>, n: string, u: string)
    requires !HasName(cs, n)
    ensures Removed(Added(cs, n, u), n) == cs
  {
    AddedThenRemoved(cs, n, u);
    RemovedAbsent(cs, n);
  }

  /** Adding one name and removing another commute. */
  lemma AddedThenRemovedOther(cs: seq<Camera>, n: string, u: string, m: string)
    requires m != n
    ensures Removed(Added(cs, n, u), m) == Added(Removed(cs, m), n, u)
  {
    RemovedConcat(cs, [Camera(n, u)], m);
    RemovedSingle(Camera(n, u), m);
  }
}
