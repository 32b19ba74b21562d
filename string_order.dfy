/** The order in which Python's built-in `sorted` arranges `str` values:
    lexicographic comparison of code points, where a proper prefix comes
    first. correct_dicomtags.py applies its tags in this order. */
module StringOrder {

  /** Python's `x < y` on two strings: the first differing code point
      decides, and a proper prefix sorts before the longer string. */
  predicate StrLess(x: string, y: string)
    ensures |x| < |y| && x == y[..|x|] ==> StrLess(x, y)
    decreases |x|
  {
    if |x| == 0 then |y| > 0
    else if |y| == 0 then false
    else if x[0] != y[0] then x[0] < y[0]
    else StrLess(x[1..], y[1..])
  }

  lemma {:induction false} StrLessIrreflexive(x: string)
    ensures !StrLess(x, x)
    decreases |x|
  {
    if |x| > 0 {
      StrLessIrreflexive(x[1..]);
    }
  }

  lemma {:induction false} StrLessTransitive(x: string, y: string, z: string)
    requires StrLess(x, y) && StrLess(y, z)
    ensures StrLess(x, z)
    decreases |x|
  {
    if |x| > 0 && x[0] == y[0] && y[0] == z[0] {
      StrLessTransitive(x[1..], y[1..], z[1..]);
    }
  }

  /** Any two different strings are ordered one way or the other. */
  lemma {:induction false} StrLessTotal(x: string, y: string)
    requires x != y
    ensures StrLess(x, y) || StrLess(y, x)
    decreases |x|
  {
    if |x| > 0 && |y| > 0 && x[0] == y[0] {
      assert x == [x[0]] + x[1..] && y == [y[0]] + y[1..];
      StrLessTotal(x[1..], y[1..]);
    }
  }

  /** Each element is strictly smaller than every later one: sorted, no repeats. */
  predicate StrictlySorted(s: seq<string>)
  {
    forall i, j :: 0 <= i < j < |s| ==> StrLess(s[i], s[j])
  }

  /** The least element of a non-empty set of strings. */
  method MinKey(keys: set<string>) returns (m: string)
    requires keys != {}
    ensures m in keys
    ensures forall k :: k in keys && k != m ==> StrLess(m, k)
  {
    m :| m in keys;
    var todo := keys - {m};
    while todo != {}
      invariant todo <= keys && m in keys && m !in todo
      invariant forall k :: k in keys - todo && k != m ==> StrLess(m, k)
      decreases todo
    {
      var k :| k in todo;
      if StrLess(k, m) {
        forall j | j in keys - todo && j != k
          ensures StrLess(k, j)
        {
          if j != m {
            StrLessTransitive(k, m, j);
          }
        }
        m := k;
      } else {
        StrLessTotal(k, m);
      }
      todo := todo - {k};
    }
  }

  /** Python's `sorted(keys)` for a set of strings: every key exactly once,
      in ascending order. */
  method SortedKeys(keys: set<string>) returns (order: seq<string>)
    ensures StrictlySorted(order)
    ensures forall k :: k in keys <==> k in order
    ensures |order| == |keys|
  {
    order := [];
    var rest := keys;
    while rest != {}
      invariant rest <= keys
      invariant forall k :: k in keys <==> k in order || k in rest
      invariant forall k :: k in order ==> k !in rest
      invariant |order| + |rest| == |keys|
      invariant StrictlySorted(order)
      invariant forall i, k :: 0 <= i < |order| && k in rest ==> StrLess(order[i], k)
      decreases rest
    {
      var m := MinKey(rest);
      order := order + [m];
      rest := rest - {m};
    }
  }
}
