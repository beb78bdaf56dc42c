/**
 * List comprehensions and the string accumulation `text += block(x)` over a
 * list, with the facts about where each element's block lands.
 */
module Lists {
  import opened Wrappers
  import opened Text

  /** `[x for x in xs if p(x)]` */
  function Filter<T>(xs: seq<T>, p: T -> bool): (r: seq<T>)
    ensures |r| <= |xs|
    ensures forall k :: 0 <= k < |r| ==> p(r[k])
    ensures forall k :: 0 <= k < |r| ==> r[k] in xs
    ensures forall k :: 0 <= k < |xs| && p(xs[k]) ==> xs[k] in r
  {
    if xs == [] then []
    else (if p(xs[0]) then [xs[0]] else []) + Filter(xs[1..], p)
  }

  /** Filtering a list none of whose elements pass leaves nothing. */
  lemma {:induction false} FilterNone<T>(xs: seq<T>, p: T -> bool)
    requires forall k :: 0 <= k < |xs| ==> !p(xs[k])
    ensures Filter(xs, p) == []
  {
    if xs != [] {
      FilterNone(xs[1..], p);
    }
  }

  lemma {:induction false} FilterAppend<T>(xs: seq<T>, ys: seq<T>, p: T -> bool)
    ensures Filter(xs + ys, p) == Filter(xs, p) + Filter(ys, p)
  {
    if xs == [] {
      assert xs + ys == ys;
    } else {
      assert (xs + ys)[0] == xs[0];
      assert (xs + ys)[1..] == xs[1..] + ys;
      FilterAppend(xs[1..], ys, p);
    }
  }

  /** One more iteration of `for x in xs: if p(x): out.append(x)`. */
  lemma FilterStep<T>(xs: seq<T>, p: T -> bool, i: nat)
    requires i < |xs|
    ensures Filter(xs[..i + 1], p) == Filter(xs[..i], p) + (if p(xs[i]) then [xs[i]] else [])
  {
    assert xs[..i + 1] == xs[..i] + [xs[i]];
    FilterAppend(xs[..i], [xs[i]], p);
    assert [xs[i]][1..] == [];
  }

  /** `[f(x) for x in xs]` built by appending. */
  lemma MapStep<A, B>(xs: seq<A>, f: A -> B, i: nat)
    requires i < |xs|
    ensures MapSeq(xs[..i + 1], f) == MapSeq(xs[..i], f) + [f(xs[i])]
  {
    assert MapSeq(xs[..i + 1], f) == MapSeq(xs[..i], f) + [f(xs[i])];
  }

  /** An index at which `x` occurs. */
  lemma IndexOf<T>(xs: seq<T>, x: T) returns (i: nat)
    requires x in xs
    ensures i < |xs| && xs[i] == x
  {
    i :| 0 <= i < |xs| && xs[i] == x;
  }

  /** `[f(x) for x in xs]` */
  function MapSeq<A, B>(xs: seq<A>, f: A -> B): (r: seq<B>)
    ensures |r| == |xs|
    ensures forall k :: 0 <= k < |xs| ==> r[k] == f(xs[k])
  {
    seq(|xs|, k requires 0 <= k < |xs| => f(xs[k]))
  }

  /** The text built by `for x in xs: text += f(x)`, starting from "". */
  function Concat<T>(xs: seq<T>, f: T -> string): string {
    if xs == [] then "" else Concat(xs[..|xs| - 1], f) + f(xs[|xs| - 1])
  }

  /** One more iteration appends one more block. */
  lemma ConcatStep<T>(xs: seq<T>, f: T -> string, i: nat)
    requires i < |xs|
    ensures Concat(xs[..i + 1], f) == Concat(xs[..i], f) + f(xs[i])
  {
    assert xs[..i + 1][..i] == xs[..i];
  }

  lemma {:induction false} ConcatAppend<T>(xs: seq<T>, ys: seq<T>, f: T -> string)
    ensures Concat(xs + ys, f) == Concat(xs, f) + Concat(ys, f)
  {
    if ys != [] {
      var init := ys[..|ys| - 1];
      assert (xs + ys)[..|xs + ys| - 1] == xs + init;
      assert (xs + ys)[|xs + ys| - 1] == ys[|ys| - 1];
      ConcatAppend(xs, init, f);
      assert Concat(xs + ys, f) == Concat(xs + init, f) + f(ys[|ys| - 1]);
    } else {
      assert xs + ys == xs;
    }
  }

  /** Where the block of `xs[k]` starts in `Concat(xs, f)`. */
  function Offset<T>(xs: seq<T>, f: T -> string, k: nat): nat
    requires k <= |xs|
  {
    |Concat(xs[..k], f)|
  }

  /** The block of `xs[k]` sits at `Offset(xs, f, k)`. */
  lemma ConcatAt<T>(xs: seq<T>, f: T -> string, k: nat)
    requires k < |xs|
    ensures Offset(xs, f, k) + |f(xs[k])| <= |Concat(xs, f)|
    ensures IsPrefix(f(xs[k]), Concat(xs, f)[Offset(xs, f, k)..])
  {
    assert xs == xs[..k] + ([xs[k]] + xs[k + 1..]);
    ConcatAppend(xs[..k], [xs[k]] + xs[k + 1..], f);
    ConcatAppend([xs[k]], xs[k + 1..], f);
    assert Concat([xs[k]], f) == f(xs[k]) by {
      assert [xs[k]][..0] == [];
    }
    var c := Concat(xs, f);
    assert c == Concat(xs[..k], f) + f(xs[k]) + Concat(xs[k + 1..], f);
    assert c[Offset(xs, f, k)..][..|f(xs[k])|] == f(xs[k]);
  }

  /** Blocks come in list order: a later element's block starts after an earlier one's ends. */
  lemma {:induction false} OffsetsIncrease<T>(xs: seq<T>, f: T -> string, i: nat, j: nat)
    requires i < j <= |xs|
    ensures Offset(xs, f, i) + |f(xs[i])| <= Offset(xs, f, j)
  {
    if j == i + 1 {
      ConcatStep(xs, f, i);
    } else {
      OffsetsIncrease(xs, f, i, j - 1);
      ConcatStep(xs, f, j - 1);
    }
  }

  /** A string found at offset `o` of `body` is found at `|pre| + o` once `body` is embedded. */
  lemma PrefixInside(pre: string, body: string, post: string, p: string, o: nat)
    requires o + |p| <= |body| && IsPrefix(p, body[o..])
    ensures |pre| + o + |p| <= |pre + body + post|
    ensures IsPrefix(p, (pre + body + post)[|pre| + o..])
  {
    var all := pre + body + post;
    assert all[|pre| + o..][..|p|] == body[o..][..|p|];
  }

  /** Contained-in is transitive. */
  lemma ContainsTrans(a: string, b: string, c: string)
    requires Contains(a, b) && Contains(b, c)
    ensures Contains(a, c)
  {
    var i :| 0 <= i <= |a| && IsPrefix(b, a[i..]);
    var j :| 0 <= j <= |b| && IsPrefix(c, b[j..]);
    forall k | 0 <= k < |c| ensures a[i + j + k] == c[k] {
      assert c[k] == b[j..][..|c|][k] == b[j + k];
      assert b[j + k] == a[i..][..|b|][j + k] == a[i + j + k];
    }
    assert a[i + j..][..|c|] == c;
  }

  /** Both halves of a concatenation are contained in it. */
  lemma ContainsHalves(a: string, b: string)
    ensures Contains(a + b, a) && Contains(a + b, b)
  {
    assert (a + b)[..|a|] == a;
    assert IsPrefix(a, (a + b)[0..]);
    assert (a + b)[|a|..] == b;
    assert IsPrefix(b, (a + b)[|a|..]);
  }

  /** Each of the last four parts of a five-part text is contained in it. */
  lemma PartsShown(a: string, b: string, c: string, d: string, e: string)
    ensures Contains(a + b + c + d + e, b)
    ensures Contains(a + b + c + d + e, c)
    ensures Contains(a + b + c + d + e, d)
    ensures Contains(a + b + c + d + e, e)
  {
    ContainsInfix(a, b, c + d + e);
    assert a + b + c + d + e == a + b + (c + d + e);
    ContainsInfix(a + b, c, d + e);
    assert a + b + c + d + e == a + b + c + (d + e);
    ContainsInfix(a + b + c, d, e);
    ContainsInfix(a + b + c + d, e, "");
    assert a + b + c + d + e == a + b + c + d + e + "";
  }

  /** A string starting at some position of `a` is contained in `a`. */
  lemma PrefixAtContains(a: string, p: string, i: nat)
    requires i <= |a| && IsPrefix(p, a[i..])
    ensures Contains(a, p)
  {
  }

  /** Each part of a join is contained in the joined text. */
  lemma {:induction false} JoinContains(parts: seq<string>, sep: string, k: nat)
    requires k < |parts|
    ensures Contains(Join(parts, sep), parts[k])
  {
    if |parts| == 1 {
      ContainsInfix("", parts[0], "");
      assert "" + parts[0] + "" == parts[0];
    } else if k == 0 {
      ContainsInfix("", parts[0], sep + Join(parts[1..], sep));
      assert "" + parts[0] + (sep + Join(parts[1..], sep)) == Join(parts, sep);
    } else {
      JoinContains(parts[1..], sep, k - 1);
      ContainsInfix(parts[0] + sep, Join(parts[1..], sep), "");
      assert parts[0] + sep + Join(parts[1..], sep) + "" == Join(parts, sep);
      ContainsTrans(Join(parts, sep), Join(parts[1..], sep), parts[k]);
    }
  }

  /** The value of a present result, as a list of zero or one element. */
  function Present<B>(o: Option<B>): seq<B> {
    match o
    case Some(y) => [y]
    case None => []
  }

  /** `for x in xs: y = f(x); if y is not None: out.append(y)`, starting from []. */
  function Collect<A, B>(xs: seq<A>, f: A -> Option<B>): (r: seq<B>)
    ensures |r| <= |xs|
  {
    if xs == [] then [] else Collect(xs[..|xs| - 1], f) + Present(f(xs[|xs| - 1]))
  }

  /** One more iteration appends the present result, if any. */
  lemma CollectStep<A, B>(xs: seq<A>, f: A -> Option<B>, i: nat)
    requires i < |xs|
    ensures Collect(xs[..i + 1], f) == Collect(xs[..i], f) + Present(f(xs[i]))
  {
    assert xs[..i + 1][..i] == xs[..i];
  }

  /** How many results are collected before element `k`: where its own result lands. */
  function CollectedBefore<A, B>(xs: seq<A>, f: A -> Option<B>, k: nat): nat
    requires k <= |xs|
  {
    |Collect(xs[..k], f)|
  }

  /** A present result sits at the place counted before it. */
  lemma {:induction false} CollectAt<A, B>(xs: seq<A>, f: A -> Option<B>, k: nat)
    requires k < |xs| && f(xs[k]).Some?
    ensures CollectedBefore(xs, f, k) < |Collect(xs, f)|
    ensures Collect(xs, f)[CollectedBefore(xs, f, k)] == f(xs[k]).value
  {
    var init := xs[..|xs| - 1];
    if k == |xs| - 1 {
      assert init == xs[..k];
    } else {
      assert init[k] == xs[k];
      assert init[..k] == xs[..k];
      CollectAt(init, f, k);
    }
  }

  /** Results are collected in the order of their elements. */
  lemma {:induction false} CollectInOrder<A, B>(xs: seq<A>, f: A -> Option<B>, j: nat, k: nat)
    requires j < k <= |xs| && f(xs[j]).Some?
    ensures CollectedBefore(xs, f, j) < CollectedBefore(xs, f, k)
  {
    CollectStep(xs, f, j);
    if k > j + 1 {
      CollectInOrder(xs, f, j, k - 1);
      CollectStep(xs, f, k - 1);
    }
  }

  /** Every collected result is the result of some element. */
  lemma {:induction false} CollectFrom<A, B>(xs: seq<A>, f: A -> Option<B>, i: nat)
    requires i < |Collect(xs, f)|
    ensures exists k :: 0 <= k < |xs| && f(xs[k]) == Some(Collect(xs, f)[i])
  {
    var n := |xs| - 1;
    var init := xs[..n];
    if i < |Collect(init, f)| {
      CollectFrom(init, f, i);
      var k :| 0 <= k < |init| && f(init[k]) == Some(Collect(init, f)[i]);
      assert xs[k] == init[k];
    } else {
      assert f(xs[n]) == Some(Collect(xs, f)[i]);
    }
  }

  /** Nothing is collected when no element has a result. */
  lemma {:induction false} CollectNothing<A, B>(xs: seq<A>, f: A -> Option<B>)
    requires forall k :: 0 <= k < |xs| ==> f(xs[k]).None?
    ensures Collect(xs, f) == []
  {
    if xs != [] {
      CollectNothing(xs[..|xs| - 1], f);
    }
  }
}
