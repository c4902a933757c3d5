/**
  The string and list primitives the filter state is built from: JavaScript's
  `String.prototype.split(",")`, `Array.prototype.join(",")` and the
  `filter((t) => t !== tag)` that removes one tag from a list.
  A selected-tag list is held as one comma-joined string.
 */
module CommaLists {

  const COMMA: char := ','

  /** True when `s` holds no separator, i.e. it is a single list element. */
  predicate NoComma(s: string) {
    COMMA !in s
  }

  /** True when no element of `xs` holds a separator. */
  predicate AllNoComma(xs: seq<string>) {
    forall i :: 0 <= i < |xs| ==> NoComma(xs[i])
  }

  /**
    JavaScript `s.split(",")`: the pieces of `s` between separators. Like the
    built-in it never returns an empty list: `"".split(",")` is `[""]` and
    `",".split(",")` is `["", ""]`.
   */
  function Split(s: string): (r: seq<string>)
    ensures |r| >= 1
    ensures AllNoComma(r)
  {
    if |s| == 0 then [""]
    else if s[0] == COMMA then [""] + Split(s[1..])
    else
      var rest := Split(s[1..]);
      [[s[0]] + rest[0]] + rest[1..]
  }

  /**
    JavaScript `xs.join(",")`: the elements with one separator between
    neighbours; the empty list joins to the empty string.
   */
  function Join(xs: seq<string>): (r: string)
    ensures r == "" <==> xs == [] || xs == [""]
  {
    if |xs| == 0 then ""
    else if |xs| == 1 then xs[0]
    else xs[0] + [COMMA] + Join(xs[1..])
  }

  /** `a` keeps some elements of `b`, in their original relative order. */
  predicate IsSubsequence(a: seq<string>, b: seq<string>)
    decreases |b|
  {
    if a == [] then true
    else if b == [] then false
    else if a[0] == b[0] then IsSubsequence(a[1..], b[1..])
    else IsSubsequence(a, b[1..])
  }

  /**
    JavaScript `xs.filter((t) => t !== tag)`: every occurrence of `tag` is
    dropped, every other element is kept, each as often as before and in its
    original relative order.
   */
  function RemoveAll(xs: seq<string>, tag: string): (r: seq<string>)
    ensures tag !in r
    ensures forall x :: x != tag ==> multiset(r)[x] == multiset(xs)[x]
    ensures IsSubsequence(r, xs)
    ensures AllNoComma(xs) ==> AllNoComma(r)
  {
    if |xs| == 0 then []
    else
      assert xs == [xs[0]] + xs[1..];
      if xs[0] == tag then RemoveAll(xs[1..], tag)
      else [xs[0]] + RemoveAll(xs[1..], tag)
  }

  /** Prepending a character to the first element prepends it to the joined string. */
  lemma {:induction false} JoinPrependFirst(c: char, xs: seq<string>)
    requires |xs| >= 1
    ensures Join([[c] + xs[0]] + xs[1..]) == [c] + Join(xs)
  {
    assert ([[c] + xs[0]] + xs[1..])[1..] == xs[1..];
  }

  /** Joining the pieces of a split gives back the original string. */
  lemma {:induction false} JoinSplit(s: string)
    ensures Join(Split(s)) == s
    decreases |s|
  {
    if |s| == 0 {
    } else if s[0] == COMMA {
      var rest := Split(s[1..]);
      JoinSplit(s[1..]);
      assert ([""] + rest)[1..] == rest;
      calc {
        Join(Split(s));
        Join([""] + rest);
        "" + [COMMA] + Join(rest);
        [COMMA] + s[1..];
        s;
      }
    } else {
      var rest := Split(s[1..]);
      JoinSplit(s[1..]);
      JoinPrependFirst(s[0], rest);
      assert s == [s[0]] + s[1..];
    }
  }

  /** A string without separators splits into itself alone. */
  lemma {:induction false} SplitNoComma(s: string)
    requires NoComma(s)
    ensures Split(s) == [s]
    decreases |s|
  {
    if |s| > 0 {
      SplitNoComma(s[1..]);
      assert s == [s[0]] + s[1..];
    }
  }

  /** Splitting `a + "," + b` where `a` has no separator yields `a` then the pieces of `b`. */
  lemma {:induction false} SplitAfterFirst(a: string, b: string)
    requires NoComma(a)
    ensures Split(a + [COMMA] + b) == [a] + Split(b)
    decreases |a|
  {
    var s := a + [COMMA] + b;
    if |a| == 0 {
      assert s == [COMMA] + b;
      assert s[1..] == b;
    } else {
      assert s[1..] == a[1..] + [COMMA] + b;
      SplitAfterFirst(a[1..], b);
      assert a == [a[0]] + a[1..];
    }
  }

  /**
    Splitting a joined non-empty list whose elements hold no separator gives
    the list back: together with JoinSplit, strings and such lists are in
    one-to-one correspondence.
   */
  lemma {:induction false} SplitJoin(xs: seq<string>)
    requires |xs| >= 1 && AllNoComma(xs)
    ensures Split(Join(xs)) == xs
    decreases |xs|
  {
    if |xs| == 1 {
      SplitNoComma(xs[0]);
    } else {
      assert AllNoComma(xs[1..]) by {
        forall i | 0 <= i < |xs[1..]| ensures NoComma(xs[1..][i]) {
          assert xs[1..][i] == xs[i + 1];
        }
      }
      SplitJoin(xs[1..]);
      assert NoComma(xs[0]);
      SplitAfterFirst(xs[0], Join(xs[1..]));
      assert xs == [xs[0]] + xs[1..];
    }
  }

  /** Joining a non-empty list with one more element puts a separator and that element at the end. */
  lemma {:induction false} JoinAppend(xs: seq<string>, x: string)
    requires |xs| >= 1
    ensures Join(xs + [x]) == Join(xs) + [COMMA] + x
    decreases |xs|
  {
    var ys := xs + [x];
    assert ys[1..] == xs[1..] + [x];
    if |xs| > 1 {
      JoinAppend(xs[1..], x);
    }
  }

  /**
    Splitting the join of a comma-free list with one more string appended
    gives the list followed by the pieces of that string.
   */
  lemma {:induction false} SplitJoinAppend(xs: seq<string>, x: string)
    requires AllNoComma(xs)
    ensures Split(Join(xs + [x])) == xs + Split(x)
    decreases |xs|
  {
    if |xs| == 0 {
      assert xs + [x] == [x];
    } else {
      var tail := xs[1..];
      assert AllNoComma(tail) by {
        forall i | 0 <= i < |tail| ensures NoComma(tail[i]) {
          assert tail[i] == xs[i + 1];
        }
      }
      SplitJoinAppend(tail, x);
      assert (xs + [x])[1..] == tail + [x];
      assert Join(xs + [x]) == xs[0] + [COMMA] + Join(tail + [x]);
      assert NoComma(xs[0]);
      SplitAfterFirst(xs[0], Join(tail + [x]));
      assert xs == [xs[0]] + tail;
    }
  }

  /** Removing an element that does not occur changes nothing. */
  lemma {:induction false} RemoveAllAbsent(xs: seq<string>, tag: string)
    requires tag !in xs
    ensures RemoveAll(xs, tag) == xs
    decreases |xs|
  {
    if |xs| > 0 {
      assert tag !in xs[1..] by {
        forall i | 0 <= i < |xs[1..]| ensures xs[1..][i] != tag {
          assert xs[1..][i] == xs[i + 1];
        }
      }
      RemoveAllAbsent(xs[1..], tag);
      assert xs == [xs[0]] + xs[1..];
    }
  }

  /** Removing every occurrence from a concatenation removes it from each part. */
  lemma {:induction false} RemoveAllConcat(xs: seq<string>, ys: seq<string>, tag: string)
    ensures RemoveAll(xs + ys, tag) == RemoveAll(xs, tag) + RemoveAll(ys, tag)
    decreases |xs|
  {
    if |xs| == 0 {
      assert xs + ys == ys;
    } else {
      assert (xs + ys)[0] == xs[0];
      assert (xs + ys)[1..] == xs[1..] + ys;
      RemoveAllConcat(xs[1..], ys, tag);
    }
  }
}
