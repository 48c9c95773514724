/** Texts put together from fields with a separator. */
module Fields {
  predicate Without(sep: char, s: string) {
    sep !in s
  }

  /** Separators of the whole lie in the first part or between the two. */
  lemma LastSeparator(sep: char, a: string, p: string)
    requires Without(sep, p)
    ensures var s := a + [sep] + p; s[|a|] == sep && forall n :: |a| < n < |s| ==> s[n] != sep
  {
    var s := a + [sep] + p;
    forall n | |a| < n < |s| ensures s[n] != sep { assert s[n] == p[n - |a| - 1]; }
  }

  /** The part after the last separator is determined when it has none itself. */
  lemma LastField(sep: char, a: string, p: string, b: string, q: string)
    requires a + [sep] + p == b + [sep] + q && Without(sep, p) && Without(sep, q)
    ensures a == b && p == q
  {
    var s := a + [sep] + p;
    LastSeparator(sep, a, p);
    LastSeparator(sep, b, q);
    assert a == s[..|a|] && b == s[..|b|];
    assert p == s[|a| + 1..] && q == s[|b| + 1..];
  }

  /** The part before the first separator is determined when it has none itself. */
  lemma FirstField(sep: char, p: string, a: string, q: string, b: string)
    requires p + [sep] + a == q + [sep] + b && Without(sep, p) && Without(sep, q)
    ensures p == q && a == b
  {
    var s := p + [sep] + a;
    assert s[|p|] == sep && s[|q|] == sep;
    assert forall n :: 0 <= n < |p| ==> s[n] == p[n];
    assert forall n :: 0 <= n < |q| ==> s[n] == q[n];
    assert p == s[..|p|] && q == s[..|q|];
    assert a == s[|p| + 1..] && b == s[|q| + 1..];
  }
}
