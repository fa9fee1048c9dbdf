/**
 * PHP's `explode` with a one-character separator, as used on the request
 * path (on '/') and on its second segment (on ':').
 */
module Explode {

  /**
   * explode(sep, s): the pieces of `s` between occurrences of `sep`.
   * There is always at least one piece (the empty string gives [""]),
   * no piece contains the separator, and gluing the pieces back together
   * with the separator gives `s` again.
   */
  function Split(s: string, sep: char): (r: seq<string>)
    ensures |r| >= 1
    ensures forall i :: 0 <= i < |r| ==> sep !in r[i]
    ensures Join(r, sep) == s
    decreases |s|
  {
    if s == [] then [""]
    else
      var rest := Split(s[1..], sep);
      if s[0] == sep then
        [""] + rest
      else
        assert Join([[s[0]] + rest[0]] + rest[1..], sep) == [s[0]] + Join(rest, sep) by {
          JoinConsFirst(s[0], rest, sep);
        }
        [[s[0]] + rest[0]] + rest[1..]
  }

  /** implode(sep, parts): the pieces glued together with the separator between them. */
  function Join(parts: seq<string>, sep: char): (r: string)
    decreases |parts|
  {
    if |parts| == 0 then ""
    else if |parts| == 1 then parts[0]
    else parts[0] + [sep] + Join(parts[1..], sep)
  }

  /** Prepending a character to the first piece prepends it to the joined text. */
  lemma JoinConsFirst(c: char, parts: seq<string>, sep: char)
    requires |parts| >= 1
    ensures Join([[c] + parts[0]] + parts[1..], sep) == [c] + Join(parts, sep)
  {
    var q := [[c] + parts[0]] + parts[1..];
    assert q[1..] == parts[1..];
  }

  /** Index of the first occurrence of `c` in `s`, or |s| when there is none. */
  function IndexOf(s: string, c: char): (k: nat)
    ensures k <= |s|
    ensures forall i :: 0 <= i < k ==> s[i] != c
    ensures k < |s| ==> s[k] == c
    decreases |s|
  {
    if s == [] then 0
    else if s[0] == c then 0
    else 1 + IndexOf(s[1..], c)
  }

  /** The first occurrence in `a + b` is just past `a` when `a` lacks `c` and `b` starts with it. */
  lemma {:induction false} IndexOfConcat(a: string, b: string, c: char)
    requires c !in a
    requires b == [] || b[0] == c
    ensures IndexOf(a + b, c) == |a|
    decreases |a|
  {
    if a != [] {
      assert (a + b)[1..] == a[1..] + b;
      IndexOfConcat(a[1..], b, c);
    } else {
      assert a + b == b;
    }
  }

  /** Text without the separator is a single piece. */
  lemma {:induction false} SplitNoSeparator(s: string, sep: char)
    requires sep !in s
    ensures Split(s, sep) == [s]
    decreases |s|
  {
    if s != [] {
      SplitNoSeparator(s[1..], sep);
      assert [s[0]] + s[1..] == s;
    }
  }

  /** Splitting at one occurrence of the separator splits each side independently. */
  lemma {:induction false} SplitConcat(a: string, b: string, sep: char)
    ensures Split(a + [sep] + b, sep) == Split(a, sep) + Split(b, sep)
    decreases |a|
  {
    var s := a + [sep] + b;
    if a == [] {
      assert s[0] == sep && s[1..] == b;
    } else {
      var t := a[1..] + [sep] + b;
      assert s[0] == a[0] && s[1..] == t;
      SplitConcat(a[1..], b, sep);
      var ra := Split(a[1..], sep);
      var rb := Split(b, sep);
      if a[0] == sep {
        assert Split(s, sep) == [""] + (ra + rb);
        assert Split(a, sep) == [""] + ra;
      } else {
        assert Split(s, sep) == [[a[0]] + (ra + rb)[0]] + (ra + rb)[1..];
        assert Split(a, sep) == [[a[0]] + ra[0]] + ra[1..];
        assert (ra + rb)[0] == ra[0];
        assert (ra + rb)[1..] == ra[1..] + rb;
      }
    }
  }

  /**
   * explode splits at the first separator: the first piece is the text
   * before it, and the remaining pieces are those of the text after it.
   */
  lemma SplitAtFirst(s: string, sep: char)
    ensures var k := IndexOf(s, sep);
      Split(s, sep) == if k == |s| then [s] else [s[..k]] + Split(s[k + 1..], sep)
  {
    var k := IndexOf(s, sep);
    if k == |s| {
      SplitNoSeparator(s, sep);
    } else {
      assert s == s[..k] + [sep] + s[k + 1..];
      SplitConcat(s[..k], s[k + 1..], sep);
      SplitNoSeparator(s[..k], sep);
    }
  }

  /**
   * The round trip the other way: pieces that are free of the separator
   * come back unchanged from exploding their implosion.
   */
  lemma {:induction false} SplitJoin(parts: seq<string>, sep: char)
    requires |parts| >= 1
    requires forall i :: 0 <= i < |parts| ==> sep !in parts[i]
    ensures Split(Join(parts, sep), sep) == parts
    decreases |parts|
  {
    if |parts| == 1 {
      SplitNoSeparator(parts[0], sep);
    } else {
      SplitJoin(parts[1..], sep);
      SplitConcat(parts[0], Join(parts[1..], sep), sep);
      SplitNoSeparator(parts[0], sep);
    }
  }
}
