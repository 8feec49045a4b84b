/**
 * The JavaScript string operations the application relies on, on `seq<char>`:
 * `startsWith`, `split` with a one-character separator, `indexOf`,
 * `replace` with a string pattern, and `toLowerCase` on ASCII letters.
 */
module Text {
  import opened Wrappers

  /** `s.startsWith(p)`. */
  predicate StartsWith(s: string, p: string)
  {
    |p| <= |s| && s[..|p|] == p
  }

  /** `p` occurs in `s` at index `j`. */
  predicate OccursAt(s: string, p: string, j: nat)
  {
    j + |p| <= |s| && s[j..j + |p|] == p
  }

  /** `s.split(c)`: the maximal runs of `s` between occurrences of `c`; `"".split(c)` is `[""]`. */
  function Split(s: string, c: char): (fields: seq<string>)
    ensures |fields| >= 1
    ensures forall i :: 0 <= i < |fields| ==> c !in fields[i]
    decreases |s|
  {
    if |s| == 0 then [""]
    else
      var rest := Split(s[1..], c);
      if s[0] == c then [""] + rest
      else [[s[0]] + rest[0]] + rest[1..]
  }

  /** `fields.join(c)`, the inverse of `Split`. */
  function Join(fields: seq<string>, c: char): string
    requires |fields| >= 1
    decreases |fields|
  {
    if |fields| == 1 then fields[0] else fields[0] + [c] + Join(fields[1..], c)
  }

  /** Joining the fields of a split gives back the string. */
  lemma {:induction false} JoinSplit(s: string, c: char)
    ensures Join(Split(s, c), c) == s
    decreases |s|
  {
    if |s| > 0 {
      JoinSplit(s[1..], c);
      var rest := Split(s[1..], c);
      if s[0] == c {
        assert s == [c] + s[1..];
      } else {
        var fields := [[s[0]] + rest[0]] + rest[1..];
        assert fields[1..] == rest[1..];
        if |rest| == 1 {
          assert s == [s[0]] + s[1..];
        } else {
          assert Join(rest, c) == rest[0] + [c] + Join(rest[1..], c);
          assert s == [s[0]] + s[1..];
        }
      }
    }
  }

  /** Splitting a join of separator-free fields gives back the fields. */
  lemma {:induction false} SplitJoin(fields: seq<string>, c: char)
    requires |fields| >= 1
    requires forall i :: 0 <= i < |fields| ==> c !in fields[i]
    ensures Split(Join(fields, c), c) == fields
    decreases |fields|
  {
    if |fields| == 1 {
      SplitWithoutSeparator(fields[0], c);
    } else {
      SplitJoin(fields[1..], c);
      SplitAtFirst(fields[0], Join(fields[1..], c), c);
      assert [fields[0]] + fields[1..] == fields;
    }
  }

  /** A string without the separator is a single field. */
  lemma {:induction false} SplitWithoutSeparator(s: string, c: char)
    requires c !in s
    ensures Split(s, c) == [s]
    decreases |s|
  {
    if |s| > 0 {
      assert c !in s[1..];
      SplitWithoutSeparator(s[1..], c);
      assert [s[0]] + s[1..] == s;
    }
  }

  /** The first separator ends the first field: `(a + c + b).split(c)` is `[a]` followed by `b.split(c)`. */
  lemma {:induction false} SplitAtFirst(a: string, b: string, c: char)
    requires c !in a
    ensures Split(a + [c] + b, c) == [a] + Split(b, c)
    decreases |a|
  {
    var s := a + [c] + b;
    if |a| == 0 {
      assert s == [c] + b;
      assert s[1..] == b;
    } else {
      assert s[1..] == a[1..] + [c] + b;
      assert c !in a[1..];
      SplitAtFirst(a[1..], b, c);
      assert [a[0]] + a[1..] == a;
    }
  }

  /** The last field of `s.split(c)`, i.e. `s.split(c).pop()`. */
  function LastField(s: string, c: char): string
  {
    var fields := Split(s, c);
    fields[|fields| - 1]
  }

  /**
   * The last field is the text after the last separator: a suffix of `s` without `c`
   * that is either all of `s` or preceded in `s` by `c`.
   */
  lemma {:induction false} LastFieldIsAfterLastSeparator(s: string, c: char)
    ensures var last := LastField(s, c);
      && c !in last
      && |last| <= |s|
      && s[|s| - |last|..] == last
      && (|last| < |s| ==> s[|s| - |last| - 1] == c)
      && (|last| == |s| <==> |Split(s, c)| == 1)
    decreases |s|
  {
    if |s| > 0 {
      LastFieldIsAfterLastSeparator(s[1..], c);
      var rest := Split(s[1..], c);
      var last' := rest[|rest| - 1];
      if s[0] != c && |rest| == 1 {
        JoinSplit(s[1..], c);
        assert [s[0]] + s[1..] == s;
      } else {
        assert LastField(s, c) == last';
      }
    }
  }

  /** Without a separator the last field is the whole string. */
  lemma LastFieldWithoutSeparator(s: string, c: char)
    requires c !in s
    ensures LastField(s, c) == s
  {
    SplitWithoutSeparator(s, c);
  }

  /** Whatever precedes it, the text after a final separator is the last field. */
  lemma {:induction false} LastFieldAfterSeparator(a: string, b: string, c: char)
    requires c !in b
    ensures LastField(a + [c] + b, c) == b
  {
    var s := a + [c] + b;
    LastFieldIsAfterLastSeparator(s, c);
    JoinSplit(s, c);
    assert s[|a|] == c;
    assert |Split(s, c)| != 1;
    assert s[|s| - |b|..] == b;
  }

  /** `s.indexOf(p)`: the first index where `p` occurs, if any. */
  function IndexOf(s: string, p: string): (r: Option<nat>)
    ensures r.Some? ==> OccursAt(s, p, r.value)
    ensures r.Some? ==> forall j :: 0 <= j < r.value ==> !OccursAt(s, p, j)
    ensures r.None? ==> forall j: nat :: !OccursAt(s, p, j)
    decreases |s|
  {
    if |s| < |p| then None
    else if s[..|p|] == p then Some(0)
    else
      assert !OccursAt(s, p, 0) by { assert s[0..|p|] == s[..|p|]; }
      ShiftOccurrence(s, p);
      match IndexOf(s[1..], p)
      case None => None
      case Some(i) => Some(i + 1)
  }

  /** An occurrence at `j` in `s`, past the first index, is an occurrence at `j - 1` in `s[1..]`. */
  lemma ShiftOccurrence(s: string, p: string)
    requires |s| > 0
    ensures forall j: nat :: j >= 1 ==> (OccursAt(s, p, j) <==> OccursAt(s[1..], p, j - 1))
  {
    forall j: nat | j >= 1
      ensures OccursAt(s, p, j) <==> OccursAt(s[1..], p, j - 1)
    {
      if j + |p| <= |s| {
        assert s[1..][j - 1..j - 1 + |p|] == s[j..j + |p|];
      }
    }
  }

  /** `s.replace(p, rep)` with a string pattern: only the first occurrence is replaced. */
  function ReplaceFirst(s: string, p: string, rep: string): (r: string)
    ensures StartsWith(s, p) ==> r == rep + s[|p|..]
    ensures (forall j: nat :: !OccursAt(s, p, j)) ==> r == s
  {
    match IndexOf(s, p)
    case None => s
    case Some(i) => s[..i] + rep + s[i + |p|..]
  }

  /** `toLowerCase` on one character, for the ASCII letters. */
  function LowerChar(ch: char): (r: char)
  {
    if 'A' <= ch <= 'Z' then (ch as int - 'A' as int + 'a' as int) as char else ch
  }

  /** `s.toLowerCase()` for ASCII text: each upper-case letter becomes its lower-case letter. */
  function ToLower(s: string): (r: string)
    ensures |r| == |s|
    ensures forall i :: 0 <= i < |s| ==> r[i] == LowerChar(s[i])
    ensures forall i :: 0 <= i < |r| ==> !('A' <= r[i] <= 'Z')
  {
    seq(|s|, i requires 0 <= i < |s| => LowerChar(s[i]))
  }
}
