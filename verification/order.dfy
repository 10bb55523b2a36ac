/** The ordering JavaScript's `<` puts on strings: lexicographic by character. */
module Order {
  import opened Text

  predicate Lt(a: string, b: string)
    decreases |a|
  {
    if |a| == 0 then |b| > 0
    else if |b| == 0 then false
    else if a[0] != b[0] then a[0] < b[0]
    else Lt(a[1..], b[1..])
  }

  predicate Le(a: string, b: string) {
    a == b || Lt(a, b)
  }

  lemma {:induction false} LtIrreflexive(a: string)
    ensures !Lt(a, a)
    decreases |a|
  {
    if |a| > 0 {
      LtIrreflexive(a[1..]);
    }
  }

  lemma {:induction false} LtAsymmetric(a: string, b: string)
    requires Lt(a, b)
    ensures !Lt(b, a)
    decreases |a|
  {
    if |a| > 0 && a[0] == b[0] {
      LtAsymmetric(a[1..], b[1..]);
    }
  }

  lemma {:induction false} LtTransitive(a: string, b: string, c: string)
    requires Lt(a, b) && Lt(b, c)
    ensures Lt(a, c)
    decreases |a|
  {
    if |a| > 0 && a[0] == b[0] && b[0] == c[0] {
      LtTransitive(a[1..], b[1..], c[1..]);
    }
  }

  /** Any two different strings are ordered one way or the other. */
  lemma {:induction false} LtConnected(a: string, b: string)
    requires a != b
    ensures Lt(a, b) || Lt(b, a)
    decreases |a|
  {
    if |a| > 0 && |b| > 0 && a[0] == b[0] {
      assert a == [a[0]] + a[1..] && b == [b[0]] + b[1..];
      LtConnected(a[1..], b[1..]);
    }
  }

  lemma LeTransitive(a: string, b: string, c: string)
    requires Le(a, b) && Le(b, c)
    ensures Le(a, c)
  {
    if a != b && b != c {
      LtTransitive(a, b, c);
    }
  }

  lemma LeTotal(a: string, b: string)
    ensures Le(a, b) || Le(b, a)
  {
    if a != b {
      LtConnected(a, b);
    }
  }

  /** `Le` and `Lt` in opposite directions exclude each other. */
  lemma LeNotLt(a: string, b: string)
    requires Le(a, b)
    ensures !Lt(b, a)
  {
    if a == b {
      LtIrreflexive(a);
    } else {
      LtAsymmetric(a, b);
    }
  }

  /** A string sorts strictly before every string it is a proper prefix of. */
  lemma {:induction false} ProperPrefixIsLess(a: string, b: string)
    requires IsProperPrefix(a, b)
    ensures Lt(a, b)
    decreases |a|
  {
    if |a| > 0 {
      assert a[0] == b[0];
      assert a[1..] == b[1..][..|a| - 1];
      ProperPrefixIsLess(a[1..], b[1..]);
    }
  }
}
