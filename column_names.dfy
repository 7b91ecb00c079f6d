/**
 * The column-name clean-up that the ETL control view applies to an uploaded CSV
 * before handing it to the staging loader: a chain of single-character replaces
 * followed by Python's `str.strip()`, then a filter that keeps only the columns the
 * staging table has.
 */
module ColumnNames {

  /** Python's `str.isspace()` characters, the ones `str.strip()` removes. */
  predicate IsSpace(c: char) {
    var n := c as int;
    (9 <= n <= 13) || (28 <= n <= 32) || n == 0x85 || n == 0xA0 || n == 0x1680
    || (0x2000 <= n <= 0x200A) || n == 0x2028 || n == 0x2029 || n == 0x202F
    || n == 0x205F || n == 0x3000
  }

  /** `s.replace(c, rep)` for a one-character pattern `c`. */
  function ReplaceChar(s: string, c: char, rep: string): (r: string)
    ensures c !in rep ==> c !in r
    ensures forall x :: x in r ==> x in s || x in rep
    ensures c !in s ==> r == s
  {
    if s == [] then []
    else (if s[0] == c then rep else [s[0]]) + ReplaceChar(s[1..], c, rep)
  }

  function TrimStart(s: string): (r: string)
    ensures r == [] || !IsSpace(r[0])
    ensures |r| <= |s| && r == s[|s| - |r|..]
    decreases |s|
  {
    if s != [] && IsSpace(s[0]) then TrimStart(s[1..]) else s
  }

  function TrimEnd(s: string): (r: string)
    ensures r == [] || !IsSpace(r[|r| - 1])
    ensures |r| <= |s| && r == s[..|r|]
    decreases |s|
  {
    if s != [] && IsSpace(s[|s| - 1]) then TrimEnd(s[..|s| - 1]) else s
  }

  /** Python's `str.strip()` with no argument. */
  function Strip(s: string): string {
    TrimEnd(TrimStart(s))
  }

  /** The three replaces of the chain, in the order the view applies them. */
  function Replacements(name: string): string {
    ReplaceChar(ReplaceChar(ReplaceChar(name, '>', "_2_5O"), '<', "_2_5U"), '.', "_")
  }

  /** One column name after `.str.replace('>', '_2_5O').str.replace('<', '_2_5U')
      .str.replace('.', '_').str.strip()`. */
  function Normalize(name: string): string {
    Strip(Replacements(name))
  }

  /** The chain applied to every column label, as pandas' `.str` accessor does. */
  function NormalizeAll(names: seq<string>): (r: seq<string>)
    ensures |r| == |names|
    ensures forall i :: 0 <= i < |names| ==> r[i] == Normalize(names[i])
  {
    seq(|names|, i requires 0 <= i < |names| => Normalize(names[i]))
  }

  /** The rewrite of one character when all three replaces are applied at once. */
  function RewriteChar(c: char): string {
    if c == '>' then "_2_5O" else if c == '<' then "_2_5U" else if c == '.' then "_" else [c]
  }

  /** A single left-to-right pass that rewrites every character by `RewriteChar`. */
  function RewriteOnce(s: string): string {
    if s == [] then [] else RewriteChar(s[0]) + RewriteOnce(s[1..])
  }

  lemma {:induction false} ReplaceCharAppend(a: string, b: string, c: char, rep: string)
    ensures ReplaceChar(a + b, c, rep) == ReplaceChar(a, c, rep) + ReplaceChar(b, c, rep)
  {
    if a == [] {
      assert a + b == b;
    } else {
      var head := if a[0] == c then rep else [a[0]];
      assert (a + b)[0] == a[0] && (a + b)[1..] == a[1..] + b;
      assert ReplaceChar(a + b, c, rep) == head + ReplaceChar(a[1..] + b, c, rep);
      ReplaceCharAppend(a[1..], b, c, rep);
      assert head + (ReplaceChar(a[1..], c, rep) + ReplaceChar(b, c, rep))
          == (head + ReplaceChar(a[1..], c, rep)) + ReplaceChar(b, c, rep);
    }
  }

  lemma ReplacementsAppend(a: string, b: string)
    ensures Replacements(a + b) == Replacements(a) + Replacements(b)
  {
    ReplaceCharAppend(a, b, '>', "_2_5O");
    var a1, b1 := ReplaceChar(a, '>', "_2_5O"), ReplaceChar(b, '>', "_2_5O");
    ReplaceCharAppend(a1, b1, '<', "_2_5U");
    ReplaceCharAppend(ReplaceChar(a1, '<', "_2_5U"), ReplaceChar(b1, '<', "_2_5U"), '.', "_");
  }

  /** On one character the chain does what `RewriteChar` says. */
  lemma ReplacementsOfChar(c: char)
    ensures Replacements([c]) == RewriteChar(c)
  {
    assert [c][1..] == [];
    if c == '>' {
      assert ReplaceChar([c], '>', "_2_5O") == "_2_5O";
      assert '<' !in "_2_5O" && '.' !in "_2_5O";
    } else if c == '<' {
      assert ReplaceChar([c], '>', "_2_5O") == [c];
      assert ReplaceChar([c], '<', "_2_5U") == "_2_5U";
      assert '.' !in "_2_5U";
    } else {
      assert ReplaceChar([c], '>', "_2_5O") == [c];
      assert ReplaceChar([c], '<', "_2_5U") == [c];
      assert ReplaceChar([c], '.', "_") == if c == '.' then "_" else [c];
    }
  }

  /**
   * The three replaces, done one after the other, equal the single pass: the text
   * that '>' and '<' turn into holds no '<' or '.', so the later replaces never alter
   * it, and the order of the chain makes no difference to the result.
   */
  lemma {:induction false} ChainIsSinglePass(s: string)
    ensures Replacements(s) == RewriteOnce(s)
  {
    if s != [] {
      assert s == [s[0]] + s[1..];
      ReplacementsAppend([s[0]], s[1..]);
      ReplacementsOfChar(s[0]);
      ChainIsSinglePass(s[1..]);
    }
  }

  lemma {:induction false} TrimStartIdle(s: string)
    requires s == [] || !IsSpace(s[0])
    ensures TrimStart(s) == s
  {
  }

  lemma {:induction false} TrimEndIdle(s: string)
    requires s == [] || !IsSpace(s[|s| - 1])
    ensures TrimEnd(s) == s
  {
  }

  /** Stripping a string that has no outer whitespace leaves it as it is. */
  lemma StripIdle(s: string)
    requires s == [] || (!IsSpace(s[0]) && !IsSpace(s[|s| - 1]))
    ensures Strip(s) == s
  {
    TrimStartIdle(s);
    TrimEndIdle(s);
  }

  /**
   * After normalisation no column name contains '>', '<' or '.', and none has
   * leading or trailing whitespace.
   */
  lemma NormalizedShape(name: string)
    ensures '>' !in Normalize(name) && '<' !in Normalize(name) && '.' !in Normalize(name)
    ensures var r := Normalize(name); r == [] || (!IsSpace(r[0]) && !IsSpace(r[|r| - 1]))
  {
    ReplacementsClean(name);
    StripShape(Replacements(name));
  }

  /** The three replaces leave no '>', '<' or '.'. */
  lemma ReplacementsClean(name: string)
    ensures '>' !in Replacements(name) && '<' !in Replacements(name) && '.' !in Replacements(name)
  {
    var r1 := ReplaceChar(name, '>', "_2_5O");
    var r2 := ReplaceChar(r1, '<', "_2_5U");
    assert '>' !in r1;
    assert '>' !in r2 && '<' !in r2;
  }

  /** `strip()` only removes characters, and leaves no outer whitespace. */
  lemma StripShape(s: string)
    ensures forall x :: x in Strip(s) ==> x in s
    ensures var r := Strip(s); r == [] || (!IsSpace(r[0]) && !IsSpace(r[|r| - 1]))
  {
    var t := TrimStart(s);
    SliceKeeps(s, |s| - |t|, |s|);
    SliceKeeps(t, 0, |TrimEnd(t)|);
    TrimEndKeepsFirst(t);
  }

  /** Trimming the end of a string that does not start with whitespace keeps its first character. */
  lemma TrimEndKeepsFirst(t: string)
    requires t == [] || !IsSpace(t[0])
    ensures TrimEnd(t) == [] || !IsSpace(TrimEnd(t)[0])
  {
    var r := TrimEnd(t);
    if r != [] {
      assert r[0] == t[..|r|][0] == t[0];
    }
  }

  /** A slice holds only characters of the whole string. */
  lemma SliceKeeps(s: string, lo: nat, hi: nat)
    requires lo <= hi <= |s|
    ensures forall x :: x in s[lo..hi] ==> x in s
  {
    forall x | x in s[lo..hi] ensures x in s {
      var i :| 0 <= i < hi - lo && s[lo..hi][i] == x;
      assert s[lo + i] == x;
    }
  }

  /** Applying the rename chain twice gives the same names as applying it once. */
  lemma NormalizeIdempotent(name: string)
    ensures Normalize(Normalize(name)) == Normalize(name)
  {
    var r := Normalize(name);
    NormalizedShape(name);
    StripIdle(r);
  }

  /**
   * The filter `[col for col in df.columns if col in valid_cols]`, returned as the
   * positions it keeps so that a row's cells can be selected alongside its names.
   */
  function KeptPositions(names: seq<string>, valid: set<string>): (r: seq<nat>)
    ensures forall k :: 0 <= k < |r| ==> r[k] < |names| && names[r[k]] in valid
    ensures forall k, l :: 0 <= k < l < |r| ==> r[k] < r[l]
    ensures forall i :: 0 <= i < |names| && names[i] in valid ==> i in r
  {
    if names == [] then []
    else
      var rest := KeptPositions(names[..|names| - 1], valid);
      if names[|names| - 1] in valid then rest + [|names| - 1] else rest
  }

  function Select<T>(xs: seq<T>, positions: seq<nat>): (r: seq<T>)
    requires forall k :: 0 <= k < |positions| ==> positions[k] < |xs|
    ensures |r| == |positions|
    ensures forall k :: 0 <= k < |r| ==> r[k] == xs[positions[k]]
  {
    seq(|positions|, k requires 0 <= k < |positions| => xs[positions[k]])
  }

  /** The column names that survive the filter, in their original relative order. */
  function KeepStagingColumns(names: seq<string>, valid: set<string>): seq<string> {
    Select(names, KeptPositions(names, valid))
  }

  /** The filter keeps exactly the names that are staging columns. */
  lemma KeptAreExactlyValid(names: seq<string>, valid: set<string>)
    ensures forall x :: x in KeepStagingColumns(names, valid) <==> x in names && x in valid
  {
    var p := KeptPositions(names, valid);
    var r := KeepStagingColumns(names, valid);
    forall x ensures x in r <==> x in names && x in valid {
      if x in r {
        var k :| 0 <= k < |r| && r[k] == x;
        assert names[p[k]] == x;
      }
      if x in names && x in valid {
        var i :| 0 <= i < |names| && names[i] == x;
        var k :| 0 <= k < |p| && p[k] == i;
        assert r[k] == x;
      }
    }
  }
}
