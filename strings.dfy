/** The Python string operations the actions rely on: `in` on strings,
    `startswith`, `endswith`, `lower`, `", ".join` and the `repr` of a
    list of table or column names that error messages embed. */
module Strings {

  /** `p` occurs in `s` starting at index `i`. */
  ghost predicate OccursAt(s: string, p: string, i: int) {
    0 <= i && i + |p| <= |s| && s[i..i + |p|] == p
  }

  /** Python's `p in s` for strings: `p` is a contiguous block of `s`. */
  function Contains(s: string, p: string): (r: bool)
    ensures r <==> exists i :: OccursAt(s, p, i)
    decreases |s|
  {
    if |s| < |p| then
      assert forall i :: !OccursAt(s, p, i);
      false
    else if s[..|p|] == p then
      assert OccursAt(s, p, 0);
      true
    else
      var r := Contains(s[1..], p);
      assert forall i :: OccursAt(s[1..], p, i) ==> OccursAt(s, p, i + 1) by {
        forall i | OccursAt(s[1..], p, i) ensures OccursAt(s, p, i + 1) {
          assert s[1..][i..i + |p|] == s[i + 1..i + 1 + |p|];
        }
      }
      assert forall i :: OccursAt(s, p, i) ==> OccursAt(s[1..], p, i - 1) by {
        forall i | OccursAt(s, p, i) ensures OccursAt(s[1..], p, i - 1) {
          assert i != 0;
          assert s[1..][i - 1..i - 1 + |p|] == s[i..i + |p|];
        }
      }
      r
  }

  /** Python's `s.startswith(p)`. */
  predicate StartsWith(s: string, p: string) {
    |p| <= |s| && s[..|p|] == p
  }

  /** Python's `s.endswith(p)`. */
  predicate EndsWith(s: string, p: string) {
    |p| <= |s| && s[|s| - |p|..] == p
  }

  /** `str.lower` on one character, restricted to ASCII letters. */
  function LowerChar(c: char): char {
    if 'A' <= c <= 'Z' then (c as int + 32) as char else c
  }

  /** `str.lower`, restricted to ASCII letters: same length, each character folded. */
  function Lower(s: string): (r: string)
    ensures |r| == |s|
    ensures forall i :: 0 <= i < |s| ==> r[i] == LowerChar(s[i])
  {
    seq(|s|, i requires 0 <= i < |s| => LowerChar(s[i]))
  }

  /** Python's `sep.join(xs)`. */
  function Join(sep: string, xs: seq<string>): string
    decreases |xs|
  {
    if |xs| == 0 then ""
    else if |xs| == 1 then xs[0]
    else xs[0] + sep + Join(sep, xs[1..])
  }

  /** Joining at most two items lists just those items. */
  lemma JoinUpToTwo(sep: string, xs: seq<string>)
    requires |xs| <= 2
    ensures |xs| == 0 ==> Join(sep, xs) == ""
    ensures |xs| == 1 ==> Join(sep, xs) == xs[0]
    ensures |xs| == 2 ==> Join(sep, xs) == xs[0] + sep + xs[1]
  {
    if |xs| == 2 {
      assert xs[1..] == [xs[1]];
    }
  }

  /** A name that `repr` writes between single quotes without escaping:
      printable ASCII with no quote and no backslash. */
  predicate PlainName(x: string) {
    forall i :: 0 <= i < |x| ==> ' ' <= x[i] <= '~' && x[i] != '\'' && x[i] != '\\'
  }

  /** `repr` of a plain name: the name between single quotes. */
  function Quote(x: string): string {
    "'" + x + "'"
  }

  /** The items of `xs` quoted and joined by ", ": the inside of a list's `repr`. */
  function QuotedItems(xs: seq<string>): (r: string)
    ensures xs == [] <==> r == ""
    ensures xs != [] ==> r[0] == '\''
    decreases |xs|
  {
    if |xs| == 0 then ""
    else if |xs| == 1 then Quote(xs[0])
    else Quote(xs[0]) + ", " + QuotedItems(xs[1..])
  }

  /** `repr(xs)` of a Python list of plain names, e.g. `['chat', 'user']`. */
  function ListRepr(xs: seq<string>): (r: string)
    ensures |r| >= 2 && r[0] == '[' && r[|r| - 1] == ']'
  {
    "[" + QuotedItems(xs) + "]"
  }

  /** Where the characters of a quoted name sit in a string it starts. */
  lemma QuoteAt(x: string, a: string)
    ensures (Quote(x) + a)[0] == '\'' && (Quote(x) + a)[|x| + 1] == '\''
    ensures forall k :: 1 <= k <= |x| ==> (Quote(x) + a)[k] == x[k - 1]
  {
  }

  /** Two quoted plain names that start a string are the same name, and
      whatever follows them is the same too. */
  lemma QuotePrefix(x: string, a: string, y: string, b: string)
    requires PlainName(x) && PlainName(y)
    requires Quote(x) + a == Quote(y) + b
    ensures x == y && a == b
  {
    var s := Quote(x) + a;
    QuoteAt(x, a);
    QuoteAt(y, b);
    assert x == s[1..|x| + 1] == y;
    assert a == s[|x| + 2..] == b;
  }

  /** `QuotedItems` of a nonempty list: its first item quoted, then the rest. */
  lemma QuotedItemsCons(xs: seq<string>)
    requires xs != []
    ensures QuotedItems(xs) == Quote(xs[0]) + (if |xs| == 1 then "" else ", " + QuotedItems(xs[1..]))
  {
  }

  /** Different lists of plain names have different `QuotedItems`. */
  lemma {:induction false} QuotedItemsInjective(xs: seq<string>, ys: seq<string>)
    requires forall x :: x in xs ==> PlainName(x)
    requires forall y :: y in ys ==> PlainName(y)
    requires QuotedItems(xs) == QuotedItems(ys)
    ensures xs == ys
    decreases |xs|
  {
    if xs != [] && ys != [] {
      var ra := if |xs| == 1 then "" else ", " + QuotedItems(xs[1..]);
      var rb := if |ys| == 1 then "" else ", " + QuotedItems(ys[1..]);
      QuotedItemsCons(xs);
      QuotedItemsCons(ys);
      QuotePrefix(xs[0], ra, ys[0], rb);
      if |xs| > 1 && |ys| > 1 {
        var xt, yt := xs[1..], ys[1..];
        assert QuotedItems(xt) == ra[2..] == rb[2..] == QuotedItems(yt);
        assert forall x :: x in xt ==> x in xs;
        assert forall y :: y in yt ==> y in ys;
        QuotedItemsInjective(xt, yt);
        assert xs == [xs[0]] + xt;
        assert ys == [ys[0]] + yt;
      }
    }
  }

  /** The list a message embeds can be read back from it: `repr` is
      one-to-one on lists of plain names. */
  lemma ListReprInjective(xs: seq<string>, ys: seq<string>)
    requires forall x :: x in xs ==> PlainName(x)
    requires forall y :: y in ys ==> PlainName(y)
    requires ListRepr(xs) == ListRepr(ys)
    ensures xs == ys
  {
    var s := ListRepr(xs);
    assert QuotedItems(xs) == s[1..|s| - 1] == QuotedItems(ys);
    QuotedItemsInjective(xs, ys);
  }
}
