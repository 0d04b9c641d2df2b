/** The order the sorts use: strings compare character by character, as
    JavaScript's `<` does on strings, and sort keys (a scalar or nothing)
    order an absent value lowest, numbers before strings. */
module Order {
  import opened Values

  /** `a` sorts at or before `b`: `a` is a prefix of `b`, or at the first
      position where they differ `a` has the smaller character. */
  predicate StrLe(a: string, b: string)
    decreases |a|
  {
    |a| == 0 || (|b| > 0 && (a[0] < b[0] || (a[0] == b[0] && StrLe(a[1..], b[1..]))))
  }

  predicate StrLt(a: string, b: string) {
    StrLe(a, b) && a != b
  }

  lemma {:induction false} StrLeReflexive(a: string)
    ensures StrLe(a, a)
    decreases |a|
  {
    if |a| > 0 {
      StrLeReflexive(a[1..]);
    }
  }

  lemma {:induction false} StrLeTotal(a: string, b: string)
    ensures StrLe(a, b) || StrLe(b, a)
    decreases |a|
  {
    if |a| > 0 && |b| > 0 && a[0] == b[0] {
      StrLeTotal(a[1..], b[1..]);
    }
  }

  lemma {:induction false} StrLeAntisymmetric(a: string, b: string)
    requires StrLe(a, b) && StrLe(b, a)
    ensures a == b
    decreases |a|
  {
    if |a| > 0 {
      StrLeAntisymmetric(a[1..], b[1..]);
      assert a == [a[0]] + a[1..];
      assert b == [b[0]] + b[1..];
    }
  }

  lemma {:induction false} StrLeTransitive(a: string, b: string, c: string)
    requires StrLe(a, b) && StrLe(b, c)
    ensures StrLe(a, c)
    decreases |a|
  {
    if |a| > 0 && a[0] == b[0] && b[0] == c[0] {
      StrLeTransitive(a[1..], b[1..], c[1..]);
    }
  }

  /** The key order: absent lowest, then numbers by value, then strings. */
  predicate KeyLe(a: Option<Scalar>, b: Option<Scalar>) {
    match (a, b)
    case (None, _) => true
    case (Some(_), None) => false
    case (Some(Num(x)), Some(Num(y))) => x <= y
    case (Some(Num(_)), Some(Text(_))) => true
    case (Some(Text(_)), Some(Num(_))) => false
    case (Some(Text(x)), Some(Text(y))) => StrLe(x, y)
  }

  /** Key `a` may stand before key `b` in a sort in the given direction. */
  predicate Precedes(a: Option<Scalar>, b: Option<Scalar>, descending: bool) {
    if descending then KeyLe(b, a) else KeyLe(a, b)
  }

  lemma PrecedesReflexive(a: Option<Scalar>, descending: bool)
    ensures Precedes(a, a, descending)
  {
    if a.Some? && a.value.Text? {
      StrLeReflexive(a.value.s);
    }
  }

  lemma PrecedesTotal(a: Option<Scalar>, b: Option<Scalar>, descending: bool)
    ensures Precedes(a, b, descending) || Precedes(b, a, descending)
  {
    if a.Some? && b.Some? && a.value.Text? && b.value.Text? {
      StrLeTotal(a.value.s, b.value.s);
    }
  }

  lemma PrecedesTransitive(a: Option<Scalar>, b: Option<Scalar>, c: Option<Scalar>, descending: bool)
    requires Precedes(a, b, descending) && Precedes(b, c, descending)
    ensures Precedes(a, c, descending)
  {
    if a.Some? && b.Some? && c.Some? && a.value.Text? && b.value.Text? && c.value.Text? {
      if descending {
        StrLeTransitive(c.value.s, b.value.s, a.value.s);
      } else {
        StrLeTransitive(a.value.s, b.value.s, c.value.s);
      }
    }
  }

  lemma PrecedesAntisymmetric(a: Option<Scalar>, b: Option<Scalar>, descending: bool)
    requires Precedes(a, b, descending) && Precedes(b, a, descending)
    ensures a == b
  {
    if a.Some? && b.Some? && a.value.Text? && b.value.Text? {
      StrLeAntisymmetric(a.value.s, b.value.s);
    }
  }
}
