/** String helpers shared by the generators: joining, suffix and substring
    tests, character search, and the lexicographic order by which `std::set<std::string>`
    and `std::map<std::string, ...>` iterate their keys. */
module Strings {
  import opened Wrappers

  /** Every label followed by `sep`: the way the tree renderers accumulate a
      prefix, `JoinSuffix(["a", "b"], "/") == "a/b/"`. */
  function JoinSuffix(labels: seq<string>, sep: string): string
  {
    if labels == [] then "" else labels[0] + sep + JoinSuffix(labels[1..], sep)
  }

  /** `s` ends with `suffix`. */
  predicate EndsWith(s: string, suffix: string) {
    |suffix| <= |s| && s[|s| - |suffix|..] == suffix
  }

  lemma AppendAssociative(a: string, b: string, c: string)
    ensures a + b + c == a + (b + c)
  {
  }

  lemma AppendEmpty(a: string)
    ensures a + "" == a
  {
  }

  /** A text built as head, middle, tail starts with the head and ends with
      the tail. */
  lemma Framed(head: string, middle: string, tail: string)
    ensures head <= head + middle + tail
    ensures EndsWith(head + middle + tail, tail)
  {
    var s := head + middle + tail;
    assert s[|s| - |tail|..] == tail;
    assert s[..|head|] == head;
  }

  /** The same for a text whose tail is appended in two pieces. */
  lemma FramedBy(head: string, middle: string, tail1: string, tail2: string)
    ensures head <= head + middle + tail1 + tail2
    ensures EndsWith(head + middle + tail1 + tail2, tail1 + tail2)
  {
    assert head + middle + tail1 + tail2 == head + middle + (tail1 + tail2);
    Framed(head, middle, tail1 + tail2);
  }

  /** The index of the first `c` in `s`, if any (`s.find(c)`). */
  function IndexOf(s: string, c: char): (r: Option<nat>)
    ensures r.None? <==> c !in s
    ensures r.Some? ==> r.value < |s| && s[r.value] == c && c !in s[..r.value]
  {
    if s == [] then None
    else if s[0] == c then Some(0)
    else
      var k := IndexOf(s[1..], c);
      if k.None? then None else Some(k.value + 1)
  }

  /** The index of the last `c` in `s`, if any (`s.find_last_of(c)`). */
  function LastIndexOf(s: string, c: char): (r: Option<nat>)
    ensures r.None? <==> c !in s
    ensures r.Some? ==> r.value < |s| && s[r.value] == c && c !in s[r.value + 1..]
  {
    if s == [] then None
    else if s[|s| - 1] == c then Some(|s| - 1)
    else LastIndexOf(s[..|s| - 1], c)
  }

  /** `sub` occurs somewhere in `s` (`s.find(sub) != npos`). */
  predicate Contains(s: string, sub: string)
    decreases |s|
  {
    if sub <= s then true else if s == [] then false else Contains(s[1..], sub)
  }

  lemma {:induction false} ContainsAt(s: string, sub: string, i: nat)
    requires i + |sub| <= |s| && s[i..i + |sub|] == sub
    ensures Contains(s, sub)
    decreases i
  {
    if i == 0 {
      assert sub <= s;
    } else {
      assert s[1..][i - 1..i - 1 + |sub|] == s[i..i + |sub|];
      ContainsAt(s[1..], sub, i - 1);
    }
  }

  // ---------------------------------------------------------------------------
  // The lexicographic order of std::string (operator<): a proper prefix is
  // smaller, otherwise the first differing character decides.

  predicate LexLess(a: string, b: string)
    decreases |a|
  {
    if |a| == 0 then |b| > 0
    else if |b| == 0 then false
    else if a[0] != b[0] then a[0] < b[0]
    else LexLess(a[1..], b[1..])
  }

  lemma {:induction false} LexLessIrreflexive(a: string)
    ensures !LexLess(a, a)
    decreases |a|
  {
    if |a| > 0 {
      LexLessIrreflexive(a[1..]);
    }
  }

  lemma {:induction false} LexLessTransitive(a: string, b: string, c: string)
    requires LexLess(a, b) && LexLess(b, c)
    ensures LexLess(a, c)
    decreases |a|
  {
    if |a| > 0 && a[0] == b[0] && b[0] == c[0] {
      LexLessTransitive(a[1..], b[1..], c[1..]);
    }
  }

  lemma {:induction false} LexLessTotal(a: string, b: string)
    requires a != b
    ensures LexLess(a, b) || LexLess(b, a)
    decreases |a|
  {
    if |a| > 0 && |b| > 0 && a[0] == b[0] {
      assert a == [a[0]] + a[1..] && b == [b[0]] + b[1..];
      LexLessTotal(a[1..], b[1..]);
    }
  }

  lemma LexLessAsymmetric(a: string, b: string)
    requires LexLess(a, b)
    ensures !LexLess(b, a)
  {
    if LexLess(b, a) {
      LexLessTransitive(a, b, a);
      LexLessIrreflexive(a);
    }
  }

  /** The order in which a std::set<std::string> hands out its elements. */
  ghost predicate StrictlySorted(r: seq<string>) {
    forall i, j :: 0 <= i < j < |r| ==> LexLess(r[i], r[j])
  }

  /** `m` is the smallest element of `s`. */
  ghost predicate IsLeast(m: string, s: set<string>) {
    m in s && forall x :: x in s && x != m ==> LexLess(m, x)
  }

  lemma LeastIsUnique(m: string, n: string, s: set<string>)
    requires IsLeast(m, s) && IsLeast(n, s)
    ensures m == n
  {
    if m != n {
      LexLessAsymmetric(m, n);
    }
  }

  lemma {:induction false} LeastExists(s: set<string>)
    requires s != {}
    ensures exists m :: IsLeast(m, s)
    decreases |s|
  {
    var x :| x in s;
    var rest := s - {x};
    if rest == {} {
      assert s == {x};
      assert IsLeast(x, s);
    } else {
      LeastExists(rest);
      var m :| IsLeast(m, rest);
      if LexLess(x, m) {
        forall y | y in s && y != x ensures LexLess(x, y) {
          if y != m {
            LexLessTransitive(x, m, y);
          }
        }
        assert IsLeast(x, s);
      } else {
        LexLessTotal(x, m);
        assert IsLeast(m, s);
      }
    }
  }

  /** The elements of `s` in the order a std::set (or the keys of a std::map)
      iterates them. */
  ghost function Ordered(s: set<string>): (r: seq<string>)
    ensures |r| == |s|
    ensures forall x :: x in r <==> x in s
    ensures StrictlySorted(r)
    decreases |s|
  {
    if s == {} then []
    else
      LeastExists(s);
      var m :| IsLeast(m, s);
      var rest := Ordered(s - {m});
      assert forall j :: 0 <= j < |rest| ==> rest[j] in rest;
      [m] + rest
  }

  lemma OrderedFirst(s: set<string>, m: string)
    requires IsLeast(m, s)
    ensures Ordered(s) == [m] + Ordered(s - {m})
  {
    var r := Ordered(s);
    forall x | x in s && x != r[0] ensures LexLess(r[0], x) {
      var j :| 0 <= j < |r| && r[j] == x;
    }
    LeastIsUnique(r[0], m, s);
  }

  /** Finds the smallest element of a non-empty set by a linear scan. */
  method Least(s: set<string>) returns (m: string)
    requires s != {}
    ensures IsLeast(m, s)
  {
    m :| m in s;
    var rest := s - {m};
    while rest != {}
      invariant rest <= s && m in s && m !in rest
      invariant forall y :: y in s - rest && y != m ==> LexLess(m, y)
      decreases |rest|
    {
      var x :| x in rest;
      if LexLess(x, m) {
        forall y | y in s - rest && y != x ensures LexLess(x, y) {
          if y != m {
            LexLessTransitive(x, m, y);
          }
        }
        m := x;
      } else {
        LexLessTotal(x, m);
      }
      rest := rest - {x};
    }
  }
}
