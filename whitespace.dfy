/** The substitution `re.sub('\s+', ' ', text)` that the schema action applies
    to a table's CREATE statement: every maximal run of whitespace becomes a
    single space. */
module Whitespace {

  /** The characters `\s` matches in ASCII text: space, tab, line feed,
      carriage return, form feed and vertical tab. */
  predicate IsSpace(c: char) {
    c == ' ' || c == '\t' || c == '\n' || c == '\r' || c == '\U{0C}' || c == '\U{0B}'
  }

  /** `s` without its leading run of whitespace. */
  function SkipSpaces(s: string): (r: string)
    ensures |r| <= |s|
    ensures r == [] || !IsSpace(r[0])
    decreases |s|
  {
    if s != [] && IsSpace(s[0]) then SkipSpaces(s[1..]) else s
  }

  /** What `SkipSpaces` drops is exactly the whitespace that starts `s`. */
  lemma {:induction false} SkipSpacesDropsLeadingRun(s: string)
    ensures |SkipSpaces(s)| <= |s|
    ensures SkipSpaces(s) == s[|s| - |SkipSpaces(s)|..]
    ensures forall i :: 0 <= i < |s| - |SkipSpaces(s)| ==> IsSpace(s[i])
    decreases |s|
  {
    if s != [] && IsSpace(s[0]) {
      SkipSpacesDropsLeadingRun(s[1..]);
      assert s[1..][|s| - 1 - |SkipSpaces(s)|..] == s[|s| - |SkipSpaces(s)|..];
    }
  }

  /** The result of `re.sub('\s+', ' ', s)`, scanning left to right: a
      whitespace character and the run after it are replaced by one space. */
  function Collapse(s: string): (r: string)
    ensures r == [] <==> s == []
    ensures s != [] ==> (IsSpace(r[0]) <==> IsSpace(s[0]))
    decreases |s|
  {
    if s == [] then []
    else if IsSpace(s[0]) then [' '] + Collapse(SkipSpaces(s[1..]))
    else [s[0]] + Collapse(s[1..])
  }

  /** A text in which the only whitespace is ' ' and no two whitespace
      characters are adjacent: what the substitution produces. */
  predicate Collapsed(s: string) {
    && (forall i :: 0 <= i < |s| && IsSpace(s[i]) ==> s[i] == ' ')
    && (forall i :: 0 <= i < |s| - 1 ==> !(IsSpace(s[i]) && IsSpace(s[i + 1])))
  }

  /** The characters of `s` that are not whitespace, in order. */
  function NonSpace(s: string): string
    decreases |s|
  {
    if s == [] then []
    else if IsSpace(s[0]) then NonSpace(s[1..])
    else [s[0]] + NonSpace(s[1..])
  }

  /** Whitespace never adds visible text. */
  lemma {:induction false} NonSpaceSkip(s: string)
    ensures NonSpace(SkipSpaces(s)) == NonSpace(s)
    decreases |s|
  {
    if s != [] && IsSpace(s[0]) {
      NonSpaceSkip(s[1..]);
    }
  }

  /** The substitution leaves no whitespace but single spaces. */
  lemma {:induction false} CollapseIsCollapsed(s: string)
    ensures Collapsed(Collapse(s))
    decreases |s|
  {
    if s == [] {
    } else if IsSpace(s[0]) {
      var t := SkipSpaces(s[1..]);
      CollapseIsCollapsed(t);
      var r := Collapse(t);
      assert Collapse(s) == " " + r;
      assert r == [] || !IsSpace(r[0]);
    } else {
      CollapseIsCollapsed(s[1..]);
      assert Collapse(s) == [s[0]] + Collapse(s[1..]);
    }
  }

  /** The substitution keeps every non-whitespace character, in order. */
  lemma {:induction false} CollapseKeepsText(s: string)
    ensures NonSpace(Collapse(s)) == NonSpace(s)
    decreases |s|
  {
    if s == [] {
    } else if IsSpace(s[0]) {
      var t := SkipSpaces(s[1..]);
      CollapseKeepsText(t);
      NonSpaceSkip(s[1..]);
      assert ([' '] + Collapse(t))[1..] == Collapse(t);
    } else {
      CollapseKeepsText(s[1..]);
      assert ([s[0]] + Collapse(s[1..]))[1..] == Collapse(s[1..]);
    }
  }

  /** A text that is already collapsed is left as it is. */
  lemma {:induction false} CollapseFixesCollapsed(s: string)
    requires Collapsed(s)
    ensures Collapse(s) == s
    decreases |s|
  {
    if s != [] {
      assert Collapsed(s[1..]);
      CollapseFixesCollapsed(s[1..]);
      if IsSpace(s[0]) {
        assert SkipSpaces(s[1..]) == s[1..];
      }
      assert s == [s[0]] + s[1..];
    }
  }

  /** Applying the substitution twice is the same as applying it once. */
  lemma CollapseIdempotent(s: string)
    ensures Collapse(Collapse(s)) == Collapse(s)
  {
    CollapseIsCollapsed(s);
    CollapseFixesCollapsed(Collapse(s));
  }

  /** A run made only of whitespace becomes exactly one space. */
  lemma CollapseBlank(s: string)
    requires s != [] && forall i :: 0 <= i < |s| ==> IsSpace(s[i])
    ensures Collapse(s) == " "
  {
    assert SkipSpaces(s[1..]) == [];
  }

  /** Skipping whitespace stops at the first non-whitespace character. */
  lemma {:induction false} SkipSpacesBefore(a: string, c: char, b: string)
    requires !IsSpace(c)
    ensures SkipSpaces(a + [c] + b) == SkipSpaces(a) + [c] + b
    decreases |a|
  {
    if a == [] {
      assert a + [c] + b == [c] + b;
    } else if IsSpace(a[0]) {
      assert (a + [c] + b)[1..] == a[1..] + [c] + b;
      SkipSpacesBefore(a[1..], c, b);
    }
  }

  /** Text on either side of a non-whitespace character is collapsed
      independently: together with `CollapseBlank` this pins the substitution
      down to "each maximal whitespace run becomes one space". */
  lemma {:induction false} CollapseSplit(a: string, c: char, b: string)
    requires !IsSpace(c)
    ensures Collapse(a + [c] + b) == Collapse(a) + [c] + Collapse(b)
    decreases |a|
  {
    var s := a + [c] + b;
    if a == [] {
      assert Collapse(s) == Collapse(a) + [c] + Collapse(b) by {
        assert s == [c] + b;
        assert s[1..] == b;
      }
    } else if IsSpace(a[0]) {
      var t := SkipSpaces(a[1..]);
      CollapseSplit(t, c, b);
      assert Collapse(s) == [' '] + Collapse(t + [c] + b) by {
        assert s[0] == a[0] && s[1..] == a[1..] + [c] + b;
        SkipSpacesBefore(a[1..], c, b);
      }
      var x, y := Collapse(t), Collapse(b);
      assert [' '] + (x + [c] + y) == ([' '] + x) + [c] + y;
    } else {
      CollapseSplit(a[1..], c, b);
      assert Collapse(s) == [a[0]] + Collapse(a[1..] + [c] + b) by {
        assert s[0] == a[0] && s[1..] == a[1..] + [c] + b;
      }
      var x, y := Collapse(a[1..]), Collapse(b);
      assert [a[0]] + (x + [c] + y) == ([a[0]] + x) + [c] + y;
    }
  }
}
