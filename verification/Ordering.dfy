/** The order in which `std::map` visits its string keys. */
module Ordering {

  /** Lexicographic order on strings, a proper prefix coming first. */
  predicate LessEq(a: string, b: string) {
    a == [] || (b != [] && (a[0] < b[0] || (a[0] == b[0] && LessEq(a[1..], b[1..]))))
  }

  lemma {:induction false} Total(a: string, b: string)
    ensures LessEq(a, b) || LessEq(b, a)
  {
    if a != [] && b != [] && a[0] == b[0] {
      Total(a[1..], b[1..]);
    }
  }

  lemma {:induction false} AntiSymmetric(a: string, b: string)
    requires LessEq(a, b) && LessEq(b, a)
    ensures a == b
  {
    if a != [] {
      AntiSymmetric(a[1..], b[1..]);
      assert a == [a[0]] + a[1..] && b == [b[0]] + b[1..];
    }
  }

  lemma {:induction false} Transitive(a: string, b: string, c: string)
    requires LessEq(a, b) && LessEq(b, c)
    ensures LessEq(a, c)
  {
    if a != [] && a[0] == b[0] == c[0] {
      Transitive(a[1..], b[1..], c[1..]);
    }
  }

  /** The usual definition: `a` is a proper prefix of `b`, or smaller at the first place where they differ. */
  ghost predicate Before(a: string, b: string) {
    || (|a| < |b| && b[..|a|] == a)
    || exists i :: 0 <= i < |a| && i < |b| && a[..i] == b[..i] && a[i] < b[i]
  }

  lemma {:induction false} BeforeTail(a: string, b: string)
    requires a != [] && b != [] && a[0] == b[0]
    ensures Before(a, b) <==> Before(a[1..], b[1..])
  {
    assert a == [a[0]] + a[1..] && b == [b[0]] + b[1..];
    if |a| < |b| && b[..|a|] == a {
      assert b[1..][..|a| - 1] == b[..|a|][1..];
    }
    if |a| < |b| && b[1..][..|a| - 1] == a[1..] {
      assert b[..|a|] == [b[0]] + b[1..][..|a| - 1];
    }
    if i :| 0 <= i < |a| && i < |b| && a[..i] == b[..i] && a[i] < b[i] {
      assert a[1..][..i - 1] == a[..i][1..] && b[1..][..i - 1] == b[..i][1..];
      assert a[1..][i - 1] < b[1..][i - 1];
    }
    if i :| 0 <= i < |a| - 1 && i < |b| - 1 && a[1..][..i] == b[1..][..i] && a[1..][i] < b[1..][i] {
      assert a[..i + 1] == [a[0]] + a[1..][..i] && b[..i + 1] == [b[0]] + b[1..][..i];
      assert a[i + 1] < b[i + 1];
    }
  }

  /** `LessEq` is the lexicographic order. */
  lemma {:induction false} LexicographicIff(a: string, b: string)
    ensures LessEq(a, b) <==> a == b || Before(a, b)
  {
    if a != [] && b != [] {
      if a[0] == b[0] {
        LexicographicIff(a[1..], b[1..]);
        BeforeTail(a, b);
        assert a == [a[0]] + a[1..] && b == [b[0]] + b[1..];
      } else if a[0] < b[0] {
        assert a[..0] == b[..0];
      } else {
        FirstIsGreater(a, b);
      }
    }
  }

  lemma FirstIsGreater(a: string, b: string)
    requires a != [] && b != [] && a[0] > b[0]
    ensures !Before(a, b)
  {
    if |a| < |b| {
      assert b[..|a|][0] == b[0];
    }
    forall i | 0 < i < |a| && i < |b| ensures a[..i] != b[..i] {
      assert a[..i][0] == a[0] && b[..i][0] == b[0];
    }
  }

  /** The first place where two strings differ decides. */
  lemma FirstDifferenceDecides(a: string, b: string, i: nat)
    requires i < |a| && i < |b| && a[..i] == b[..i] && a[i] < b[i]
    ensures LessEq(a, b) && !LessEq(b, a)
  {
    LexicographicIff(a, b);
    assert a != b;
    if LessEq(b, a) {
      AntiSymmetric(a, b);
    }
  }

  predicate IsLeast(k: string, keys: set<string>) {
    k in keys && forall k' | k' in keys :: LessEq(k, k')
  }

  lemma {:induction false} FindLeast(keys: set<string>) returns (least: string)
    requires keys != {}
    ensures IsLeast(least, keys)
    decreases |keys|
  {
    var k :| k in keys;
    var others := keys - {k};
    Total(k, k);
    least := k;
    if others != {} {
      var m := FindLeast(others);
      Total(k, m);
      least := if LessEq(k, m) then k else m;
      forall k' | k' in others ensures LessEq(least, k') {
        if least == k {
          Transitive(k, m, k');
        }
      }
    }
    assert forall k' | k' in keys :: k' == k || k' in others;
  }

  lemma LeastExists(keys: set<string>)
    requires keys != {}
    ensures exists k :: IsLeast(k, keys)
  {
    var k := FindLeast(keys);
  }

  lemma LeastUnique(a: string, b: string, keys: set<string>)
    requires IsLeast(a, keys) && IsLeast(b, keys)
    ensures a == b
  {
    AntiSymmetric(a, b);
  }

  ghost predicate StrictlySorted(ks: seq<string>) {
    forall i, j | 0 <= i < j < |ks| :: LessEq(ks[i], ks[j]) && ks[i] != ks[j]
  }

  /** The keys in the order of iteration. */
  ghost function SortedKeys(keys: set<string>): (ks: seq<string>)
    ensures |ks| == |keys| && forall k :: k in ks <==> k in keys
    ensures StrictlySorted(ks)
    decreases |keys|
  {
    if keys == {} then []
    else
      var k := LeastOf(keys);
      var rest := SortedKeys(keys - {k});
      LeastFirst(k, rest, keys);
      [k] + rest
  }

  lemma LeastFirst(k: string, rest: seq<string>, keys: set<string>)
    requires IsLeast(k, keys) && StrictlySorted(rest) && forall x :: x in rest <==> x in keys - {k}
    ensures StrictlySorted([k] + rest) && forall x :: x in [k] + rest <==> x in keys
  {
    assert forall j | 0 <= j < |rest| :: rest[j] in rest;
  }

  lemma SortedNone()
    ensures SortedKeys({}) == []
  {
  }

  ghost function LeastOf(keys: set<string>): (k: string)
    requires keys != {}
    ensures IsLeast(k, keys)
  {
    LeastExists(keys);
    var k :| IsLeast(k, keys);
    k
  }

  /** Taking the least key away leaves the rest of the iteration. */
  lemma TakeLeast(k: string, keys: set<string>)
    requires IsLeast(k, keys)
    ensures SortedKeys(keys) == [k] + SortedKeys(keys - {k})
  {
    LeastUnique(k, LeastOf(keys), keys);
  }

  /** A strictly sorted list is the iteration order of its own elements. */
  lemma {:induction false} SortedIsUnique(ks: seq<string>, keys: set<string>)
    requires StrictlySorted(ks) && forall k :: k in ks <==> k in keys
    ensures ks == SortedKeys(keys)
    decreases |ks|
  {
    if ks == [] {
      assert keys == {};
    } else {
      forall k | k in keys ensures LessEq(ks[0], k) {
        var i :| 0 <= i < |ks| && ks[i] == k;
        Total(k, k);
      }
      assert ks[0] in keys;
      TakeLeast(ks[0], keys);
      forall k ensures k in ks[1..] <==> k in keys - {ks[0]} {
        if k in ks && k != ks[0] {
          var i :| 0 <= i < |ks| && ks[i] == k;
          assert k == ks[1..][i - 1];
        }
      }
      SortedIsUnique(ks[1..], keys - {ks[0]});
    }
  }
}
