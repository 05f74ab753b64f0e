/** String order, prefixes and splitting, as Python and SQL use them on keys. */
module Text {
  /** Lexicographic order. */
  predicate StringLE(a: string, b: string) {
    a == [] || (b != [] && (a[0] < b[0] || (a[0] == b[0] && StringLE(a[1..], b[1..]))))
  }

  lemma {:induction false} StringLETotal(a: string, b: string)
    ensures StringLE(a, b) || StringLE(b, a)
  {
    if a != [] && b != [] && a[0] == b[0] {
      StringLETotal(a[1..], b[1..]);
    }
  }

  lemma {:induction false} StringLETransitive(a: string, b: string, c: string)
    requires StringLE(a, b) && StringLE(b, c)
    ensures StringLE(a, c)
  {
    if a != [] && a[0] == b[0] && b[0] == c[0] {
      StringLETransitive(a[1..], b[1..], c[1..]);
    }
  }

  lemma {:induction false} StringLEAntisymmetric(a: string, b: string)
    requires StringLE(a, b) && StringLE(b, a)
    ensures a == b
  {
    if a != [] && b != [] {
      StringLEAntisymmetric(a[1..], b[1..]);
      assert a == [a[0]] + a[1..] && b == [b[0]] + b[1..];
    }
  }

  /** The least string of a nonempty set: the first of `sorted(keys)`. */
  ghost function Least(keys: set<string>): (r: string)
    requires keys != {}
    ensures r in keys && forall k | k in keys :: StringLE(r, k)
  {
    var x :| x in keys;
    if keys == {x} then
      StringLETotal(x, x);
      x
    else
      var rest := Least(keys - {x});
      StringLETotal(x, x);
      StringLETotal(x, rest);
      assert forall k | k in keys :: k == x || k in keys - {x};
      if StringLE(x, rest) then
        assert forall k | k in keys - {x} :: StringLE(rest, k);
        BelowAll(x, rest, keys - {x});
        x
      else rest
  }

  lemma BelowAll(x: string, y: string, keys: set<string>)
    requires StringLE(x, y) && forall k | k in keys :: StringLE(y, k)
    ensures forall k | k in keys :: StringLE(x, k)
  {
    forall k | k in keys ensures StringLE(x, k) {
      StringLETransitive(x, y, k);
    }
  }

  predicate StartsWith(s: string, prefix: string) {
    prefix <= s
  }

  /** `s.partition(sep)`: the text before the first separator and the text after it. */
  function Partition(s: string, sep: char): (r: (string, string)) {
    if s == [] then ("", "")
    else if s[0] == sep then ("", s[1..])
    else
      var (before, after) := Partition(s[1..], sep);
      ([s[0]] + before, after)
  }

  /** Splitting at the first separator undoes joining a separator-free text to anything. */
  lemma {:induction false} PartitionJoined(before: string, after: string, sep: char)
    requires sep !in before
    ensures Partition(before + [sep] + after, sep) == (before, after)
  {
    var s := before + [sep] + after;
    if before == [] {
      assert s[1..] == after;
    } else {
      assert s[1..] == before[1..] + [sep] + after;
      assert s[0] == before[0] && before == [before[0]] + before[1..];
      PartitionJoined(before[1..], after, sep);
    }
  }
}
