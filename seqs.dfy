/** Sequence helpers shared by the pages: the JavaScript array operations
    (`filter`, `find`, `includes`, `slice`, `reverse`) the source applies to its
    state, stated once with the properties the pages rely on. */
module Seqs {

  datatype Option<+T> = None | Some(value: T)

  /** `Array.prototype.filter`: the elements satisfying `p`, in their original order. */
  function Filter<T>(s: seq<T>, p: T -> bool): (r: seq<T>)
    ensures |r| <= |s|
    ensures forall i :: 0 <= i < |r| ==> r[i] in s && p(r[i])
    ensures forall i :: 0 <= i < |s| && p(s[i]) ==> s[i] in r
    decreases |s|
  {
    if s == [] then []
    else if p(s[0]) then [s[0]] + Filter(s[1..], p)
    else Filter(s[1..], p)
  }

  /** `a` is obtained from `b` by deleting elements (order preserved). */
  predicate IsSubseq<T(==)>(a: seq<T>, b: seq<T>)
    decreases |b|
  {
    if a == [] then true
    else if b == [] then false
    else if a[0] == b[0] then IsSubseq(a[1..], b[1..])
    else IsSubseq(a, b[1..])
  }

  predicate NoDup<T(==)>(s: seq<T>) {
    forall i, j :: 0 <= i < j < |s| ==> s[i] != s[j]
  }

  lemma {:induction false} FilterIsSubseq<T>(s: seq<T>, p: T -> bool)
    ensures IsSubseq(Filter(s, p), s)
    decreases |s|
  {
    if s != [] {
      FilterIsSubseq(s[1..], p);
      var rest := Filter(s[1..], p);
      if p(s[0]) {
        assert Filter(s, p) == [s[0]] + rest;
        assert ([s[0]] + rest)[1..] == rest;
      } else {
        assert Filter(s, p) == rest;
        if rest != [] {
          assert rest[0] in rest;
          assert rest[0] != s[0];
        }
      }
    }
  }

  /** Filtering distributes over concatenation. */
  lemma {:induction false} FilterAppend<T>(a: seq<T>, b: seq<T>, p: T -> bool)
    ensures Filter(a + b, p) == Filter(a, p) + Filter(b, p)
    decreases |a|
  {
    if a == [] {
      assert a + b == b;
    } else {
      assert (a + b)[0] == a[0];
      assert (a + b)[1..] == a[1..] + b;
      FilterAppend(a[1..], b, p);
    }
  }

  /** A filter that keeps every element is the identity. */
  lemma {:induction false} FilterKeepsAll<T>(s: seq<T>, p: T -> bool)
    requires forall i :: 0 <= i < |s| ==> p(s[i])
    ensures Filter(s, p) == s
    decreases |s|
  {
    if s != [] {
      FilterKeepsAll(s[1..], p);
      assert [s[0]] + s[1..] == s;
    }
  }

  /** The test "its key is not `id`", for records keyed by `key`. */
  function KeyDiffers<T>(key: T -> string, id: string): T -> bool {
    (x: T) => key(x) != id
  }

  /** `list.filter(x => x.id !== id)`: the records whose key is not `id`, the
      others kept in order. */
  function ExcludeKey<T(==)>(s: seq<T>, key: T -> string, id: string): (r: seq<T>)
    ensures IsSubseq(r, s)
    ensures forall i :: 0 <= i < |r| ==> key(r[i]) != id
    ensures forall i :: 0 <= i < |s| && key(s[i]) != id ==> s[i] in r
  {
    FilterIsSubseq(s, KeyDiffers(key, id));
    Filter(s, KeyDiffers(key, id))
  }

  /** Excluding a key no record has changes nothing. */
  lemma ExcludeKeyAbsent<T>(s: seq<T>, key: T -> string, id: string)
    requires forall i :: 0 <= i < |s| ==> key(s[i]) != id
    ensures ExcludeKey(s, key, id) == s
  {
    FilterKeepsAll(s, KeyDiffers(key, id));
  }

  /** Filtering a sequence in which only position `k` fails the test removes
      exactly that position. */
  lemma FilterDropsAt<T>(s: seq<T>, k: nat, p: T -> bool)
    requires k < |s| && !p(s[k])
    requires forall i :: 0 <= i < |s| && i != k ==> p(s[i])
    ensures Filter(s, p) == s[..k] + s[k + 1..]
  {
    var pre, post := s[..k], s[k + 1..];
    assert s == pre + [s[k]] + post;
    forall i | 0 <= i < |pre| ensures p(pre[i]) {
      assert pre[i] == s[i];
    }
    forall i | 0 <= i < |post| ensures p(post[i]) {
      assert post[i] == s[k + 1 + i];
    }
    FilterDropsOne(pre, s[k], post, p);
  }

  /** Filtering out exactly one element of a sequence. */
  lemma FilterDropsOne<T>(pre: seq<T>, x: T, post: seq<T>, p: T -> bool)
    requires forall i :: 0 <= i < |pre| ==> p(pre[i])
    requires forall i :: 0 <= i < |post| ==> p(post[i])
    requires !p(x)
    ensures Filter(pre + [x] + post, p) == pre + post
  {
    assert Filter([x], p) == [];
    calc {
      Filter(pre + [x] + post, p);
      { FilterAppend(pre + [x], post, p); }
      Filter(pre + [x], p) + Filter(post, p);
      { FilterAppend(pre, [x], p); }
      Filter(pre, p) + Filter([x], p) + Filter(post, p);
      { FilterKeepsAll(pre, p); FilterKeepsAll(post, p); }
      pre + [] + post;
      { assert pre + [] == pre; }
      pre + post;
    }
  }

  /** Two predicates that agree on every element of `s` filter it identically. */
  lemma {:induction false} FilterExtensional<T>(s: seq<T>, p: T -> bool, q: T -> bool)
    requires forall i :: 0 <= i < |s| ==> p(s[i]) == q(s[i])
    ensures Filter(s, p) == Filter(s, q)
    decreases |s|
  {
    if s != [] {
      FilterExtensional(s[1..], p, q);
    }
  }

  lemma {:induction false} FilterNoDup<T>(s: seq<T>, p: T -> bool)
    requires NoDup(s)
    ensures NoDup(Filter(s, p))
    decreases |s|
  {
    if s != [] {
      var rest := Filter(s[1..], p);
      FilterNoDup(s[1..], p);
      if p(s[0]) {
        assert s[0] !in s[1..];
        assert s[0] !in rest;
        var r := [s[0]] + rest;
        forall i, j | 0 <= i < j < |r| ensures r[i] != r[j] {
          if i == 0 {
            assert r[j] == rest[j - 1];
          } else {
            assert r[i] == rest[i - 1] && r[j] == rest[j - 1];
          }
        }
      }
    }
  }

  /** Filtering by a predicate and by its negation splits the sequence. */
  lemma {:induction false} FilterComplement<T>(s: seq<T>, p: T -> bool, q: T -> bool)
    requires forall i :: 0 <= i < |s| ==> q(s[i]) == !p(s[i])
    ensures |Filter(s, p)| + |Filter(s, q)| == |s|
    decreases |s|
  {
    if s != [] {
      FilterComplement(s[1..], p, q);
    }
  }

  /** Appending the same element to both sides keeps a subsequence, and so
      does appending to the longer side only. */
  lemma {:induction false} SubseqSnoc<T>(a: seq<T>, b: seq<T>, x: T)
    requires IsSubseq(a, b)
    ensures IsSubseq(a, b + [x]) && IsSubseq(a + [x], b + [x])
    decreases |b|
  {
    if b == [] {
      assert a == [];
      assert ([x] + [])[1..] == [];
    } else if a == [] {
      assert (b + [x])[1..] == b[1..] + [x];
      if b[0] != x {
        SubseqSnoc([], b[1..], x);
        assert [] + [x] == [x];
      }
    } else {
      assert (b + [x])[1..] == b[1..] + [x];
      assert (a + [x])[1..] == a[1..] + [x];
      if a[0] == b[0] {
        SubseqSnoc(a[1..], b[1..], x);
      } else {
        SubseqSnoc(a, b[1..], x);
      }
    }
  }

  /** `Array.from(new Set(s))`: each element once, at its first occurrence. */
  function Dedupe<T(==)>(s: seq<T>): (r: seq<T>)
    ensures NoDup(r)
    ensures IsSubseq(r, s)
    ensures |r| <= |s|
    ensures forall i :: 0 <= i < |r| ==> r[i] in s
    ensures forall i :: 0 <= i < |s| ==> s[i] in r
    decreases |s|
  {
    if s == [] then []
    else
      var d := Dedupe(s[..|s| - 1]);
      SubseqSnoc(d, s[..|s| - 1], s[|s| - 1]);
      assert s[..|s| - 1] + [s[|s| - 1]] == s;
      if s[|s| - 1] in d then d else d + [s[|s| - 1]]
  }

  /** `Array.prototype.find`, returning the index of the first match. */
  function FindIndex<T>(s: seq<T>, p: T -> bool): (r: Option<nat>)
    ensures r.Some? ==> r.value < |s| && p(s[r.value]) && forall j :: 0 <= j < r.value ==> !p(s[j])
    ensures r.None? <==> forall j :: 0 <= j < |s| ==> !p(s[j])
    decreases |s|
  {
    if s == [] then None
    else if p(s[0]) then Some(0)
    else match FindIndex(s[1..], p)
      case None => None
      case Some(i) => Some(i + 1)
  }

  /** The equality test `x => x !== v`. */
  function Differs<T(==)>(v: T): T -> bool {
    x => x != v
  }

  /** The selection toggle shared by both marketing pages: remove `id` if it is
      selected, otherwise append it. */
  function Toggle<T(==)>(sel: seq<T>, id: T): (r: seq<T>)
    ensures id in r <==> id !in sel
    ensures forall i :: 0 <= i < |sel| && sel[i] != id ==> sel[i] in r
    ensures forall i :: 0 <= i < |r| && r[i] != id ==> r[i] in sel
    ensures id !in sel ==> r == sel + [id]
    ensures id in sel ==> IsSubseq(r, sel)
  {
    if id in sel then
      FilterIsSubseq(sel, Differs(id));
      Filter(sel, Differs(id))
    else sel + [id]
  }

  lemma ToggleNoDup<T>(sel: seq<T>, id: T)
    requires NoDup(sel)
    ensures NoDup(Toggle(sel, id))
  {
    if id in sel {
      FilterNoDup(sel, Differs(id));
    }
  }

  /** Selecting an unselected item and then deselecting it restores the selection. */
  lemma ToggleTwice<T>(sel: seq<T>, id: T)
    requires id !in sel
    ensures Toggle(Toggle(sel, id), id) == sel
  {
    assert Toggle(sel, id) == sel + [id];
    FilterAppend(sel, [id], Differs(id));
    assert Filter([id], Differs(id)) == [];
    FilterKeepsAll(sel, Differs(id));
  }

  function Reverse<T>(s: seq<T>): (r: seq<T>)
    ensures |r| == |s|
    decreases |s|
  {
    if s == [] then [] else Reverse(s[1..]) + [s[0]]
  }

  lemma {:induction false} ReverseAt<T>(s: seq<T>, k: nat)
    requires k < |s|
    ensures Reverse(s)[k] == s[|s| - 1 - k]
    decreases |s|
  {
    if k < |s| - 1 {
      ReverseAt(s[1..], k);
    }
  }

  /** `s.slice(-n)` for n > 0: the last `n` elements, or all of `s` when shorter. */
  function LastN<T>(s: seq<T>, n: nat): (r: seq<T>)
    requires n > 0
    ensures |r| == if |s| < n then |s| else n
    ensures forall i :: 0 <= i < |r| ==> r[i] == s[|s| - |r| + i]
  {
    if |s| < n then s else s[|s| - n..]
  }

  /** Reversing a suffix of `s` lists it newest first: position `k` holds the
      `k`-th element from the end of `s`. */
  lemma ReverseSuffixAt<T>(s: seq<T>, last: seq<T>, k: nat)
    requires |last| <= |s| && k < |last|
    requires forall i :: 0 <= i < |last| ==> last[i] == s[|s| - |last| + i]
    ensures Reverse(last)[k] == s[|s| - 1 - k]
  {
    ReverseAt(last, k);
    var j := |last| - 1 - k;
    assert last[j] == s[|s| - |last| + j];
  }

  /** `s.slice(0, n)`: the first `n` elements, or all of `s` when shorter. */
  function FirstN<T>(s: seq<T>, n: nat): (r: seq<T>)
    ensures |r| == if |s| < n then |s| else n
    ensures forall i :: 0 <= i < |r| ==> r[i] == s[i]
  {
    if |s| < n then s else s[..n]
  }
}
