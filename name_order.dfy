/** The order in which the notes list is displayed: JavaScript's relational
    operators on strings, which compare character by character and put a
    proper prefix first. */
module NameOrder {

  /** `a` sorts no later than `b` (JavaScript's `a <= b` on strings). */
  predicate NameLe(a: string, b: string)
    decreases |a|
  {
    |a| == 0 || (|b| > 0 && (a[0] < b[0] || (a[0] == b[0] && NameLe(a[1..], b[1..]))))
  }

  /** The first position where `a` and `b` differ is `k`, and there `a` is smaller. */
  predicate SmallerAt(a: string, b: string, k: nat)
  {
    k < |a| && k < |b| && a[..k] == b[..k] && a[k] < b[k]
  }

  /** Independent characterisation of the order: `a` is a prefix of `b`, or the
      two first differ at a position where `a` has the smaller character. */
  lemma {:induction false} NameLeIff(a: string, b: string)
    ensures NameLe(a, b) <==> (a <= b || exists k: nat :: SmallerAt(a, b, k))
    decreases |a|
  {
    if |a| == 0 {
    } else if |b| == 0 {
      assert forall k: nat :: !SmallerAt(a, b, k);
    } else if a[0] < b[0] {
      assert a[..0] == b[..0];
      assert SmallerAt(a, b, 0);
    } else if a[0] == b[0] {
      NameLeIff(a[1..], b[1..]);
      assert a <= b <==> a[1..] <= b[1..] by {
        if a[1..] <= b[1..] {
          assert a == [a[0]] + a[1..];
          assert b[..|a|] == [b[0]] + b[1..][..|a| - 1];
        }
      }
      if k': nat :| SmallerAt(a[1..], b[1..], k') {
        assert a[..k' + 1] == [a[0]] + a[1..][..k'];
        assert b[..k' + 1] == [b[0]] + b[1..][..k'];
        assert SmallerAt(a, b, k' + 1);
      }
      if k: nat :| SmallerAt(a, b, k) {
        assert k != 0;
        assert a[..k][1..] == a[1..][..k - 1];
        assert b[..k][1..] == b[1..][..k - 1];
        assert SmallerAt(a[1..], b[1..], k - 1);
      }
    } else {
      assert forall k: nat :: !SmallerAt(a, b, k);
    }
  }

  lemma {:induction false} NameLeReflexive(a: string)
    ensures NameLe(a, a)
    decreases |a|
  {
    if |a| > 0 {
      NameLeReflexive(a[1..]);
    }
  }

  lemma {:induction false} NameLeTotal(a: string, b: string)
    ensures NameLe(a, b) || NameLe(b, a)
    decreases |a|
  {
    if |a| > 0 && |b| > 0 && a[0] == b[0] {
      NameLeTotal(a[1..], b[1..]);
    }
  }

  lemma {:induction false} NameLeTransitive(a: string, b: string, c: string)
    requires NameLe(a, b) && NameLe(b, c)
    ensures NameLe(a, c)
    decreases |a|
  {
    if |a| > 0 && a[0] == b[0] && b[0] == c[0] {
      NameLeTransitive(a[1..], b[1..], c[1..]);
    }
  }

  lemma {:induction false} NameLeAntisymmetric(a: string, b: string)
    requires NameLe(a, b) && NameLe(b, a)
    ensures a == b
    decreases |a|
  {
    if |a| > 0 {
      NameLeAntisymmetric(a[1..], b[1..]);
      assert a == [a[0]] + a[1..];
      assert b == [b[0]] + b[1..];
    }
  }
}
