/**
 * The list plumbing of the reception units: cutting a batch in two,
 * mapping a function over a part, concatenating the parts' results and
 * dropping the `None` results.
 */
module Batches {
  import opened Py

  /** `np.array_split(s, 2)`: the first part takes the odd element. */
  function ArraySplitHalves<T>(s: seq<T>): (r: (seq<T>, seq<T>))
    ensures |r.0| == (|s| + 1) / 2 && |r.1| == |s| / 2
    ensures r.0 + r.1 == s
  {
    var m := (|s| + 1) / 2;
    assert s[..m] + s[m..] == s;
    (s[..m], s[m..])
  }

  /** `s[:len(s) // 2]` and `s[len(s) // 2:]`: the second part takes the odd element. */
  function SliceHalves<T>(s: seq<T>): (r: (seq<T>, seq<T>))
    ensures |r.0| == |s| / 2 && |r.1| == |s| - |s| / 2
    ensures |r.0| <= |r.1| <= |r.0| + 1
    ensures r.0 + r.1 == s
  {
    var m := |s| / 2;
    assert s[..m] + s[m..] == s;
    (s[..m], s[m..])
  }

  /** `[x for x in s if x is not None]` */
  function DropNone<T>(s: seq<Option<T>>): (r: seq<T>)
    ensures |r| <= |s|
    ensures |r| == |s| <==> forall k :: 0 <= k < |s| ==> s[k].Some?
  {
    if s == [] then []
    else
      assert forall k :: 1 <= k < |s| ==> s[k] == s[1..][k - 1];
      (if s[0].Some? then [s[0].value] else []) + DropNone(s[1..])
  }

  /** Dropping `None` distributes over concatenation, so merging keeps the parts' order. */
  lemma {:induction false} DropNoneConcat<T>(a: seq<Option<T>>, b: seq<Option<T>>)
    ensures DropNone(a + b) == DropNone(a) + DropNone(b)
  {
    if a != [] {
      var head := if a[0].Some? then [a[0].value] else [];
      assert (a + b)[0] == a[0] && (a + b)[1..] == a[1..] + b;
      DropNoneConcat(a[1..], b);
      assert DropNone(a + b) == head + DropNone(a[1..] + b);
      assert DropNone(a) == head + DropNone(a[1..]);
    } else {
      assert a + b == b;
    }
  }

  /** The kept values are exactly the `Some` entries. */
  lemma {:induction false} DropNoneMembers<T>(s: seq<Option<T>>)
    ensures forall x :: x in DropNone(s) <==> Some(x) in s
  {
    if s != [] {
      DropNoneMembers(s[1..]);
      assert s == [s[0]] + s[1..];
      assert forall o :: o in s <==> o == s[0] || o in s[1..];
    }
  }

  /** With no `None` entry nothing is dropped and the order is kept. */
  lemma {:induction false} DropNoneNoNone<T>(s: seq<Option<T>>)
    requires forall k :: 0 <= k < |s| ==> s[k].Some?
    ensures |DropNone(s)| == |s|
    ensures forall k :: 0 <= k < |s| ==> DropNone(s)[k] == s[k].value
  {
    if s != [] {
      DropNoneNoNone(s[1..]);
      assert DropNone(s) == [s[0].value] + DropNone(s[1..]);
    }
  }

  /** With only `None` entries nothing is kept. */
  lemma {:induction false} DropNoneAllNone<T>(s: seq<Option<T>>)
    requires forall k :: 0 <= k < |s| ==> s[k].None?
    ensures DropNone(s) == []
  {
    if s != [] {
      DropNoneAllNone(s[1..]);
    }
  }

  /** `f` completes on every element of `s`. */
  predicate AllOk<T, U>(f: T -> Result<U>, s: seq<T>)
  {
    forall k :: 0 <= k < |s| ==> f(s[k]).Ok?
  }

  /**
   * `[f(x) for x in s]`: one result per element, in order; the first
   * exception aborts the comprehension.
   */
  function MapAll<T, U>(f: T -> Result<U>, s: seq<T>): (r: Result<seq<U>>)
    ensures r.Ok? <==> forall k :: 0 <= k < |s| ==> f(s[k]).Ok?
    ensures r.Ok? ==> |r.value| == |s| && forall k :: 0 <= k < |s| ==> r.value[k] == f(s[k]).value
    ensures r.Raise? ==> exists k :: 0 <= k < |s| && f(s[k]) == Raise(r.exc) && AllOk(f, s[..k])
  {
    if s == [] then Ok([])
    else
      var x :- f(s[0]);
      assert forall k :: 1 <= k < |s| ==> s[k] == s[1..][k - 1];
      var rest := MapAll(f, s[1..]);
      if rest.Raise? then
        var k :| 0 <= k < |s[1..]| && f(s[1..][k]) == Raise(rest.exc) && AllOk(f, s[1..][..k]);
        assert s[..k + 1] == [s[0]] + s[1..][..k];
        assert AllOk(f, s[..k + 1]);
        Raise(rest.exc)
      else
        Ok([x] + rest.value)
  }

  /** Mapping over two parts and concatenating is mapping over the whole, exceptions included. */
  lemma {:induction false} MapAllConcat<T, U>(f: T -> Result<U>, a: seq<T>, b: seq<T>)
    ensures MapAll(f, a + b) == (var ra :- MapAll(f, a); var rb :- MapAll(f, b); Ok(ra + rb))
  {
    if a != [] {
      assert (a + b)[0] == a[0] && (a + b)[1..] == a[1..] + b;
      MapAllConcat(f, a[1..], b);
      if f(a[0]).Ok? && MapAll(f, a[1..]).Ok? && MapAll(f, b).Ok? {
        assert [f(a[0]).value] + (MapAll(f, a[1..]).value + MapAll(f, b).value)
          == ([f(a[0]).value] + MapAll(f, a[1..]).value) + MapAll(f, b).value;
      }
    } else {
      assert a + b == b;
      if MapAll(f, b).Ok? {
        assert [] + MapAll(f, b).value == MapAll(f, b).value;
      }
    }
  }
}
