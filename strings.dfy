/** The few Python `str` operations the storage and configuration code relies on,
    each with the semantics CPython gives it for the arguments used there. */
module PyStrings {

  /** `s.startswith(p)` */
  predicate StartsWith(s: string, p: string) {
    |p| <= |s| && s[..|p|] == p
  }

  /** `p in s` for a non-empty pattern: some window of `s` equals `p`. */
  predicate Occurs(s: string, p: string) {
    exists i :: 0 <= i <= |s| - |p| && StartsWith(s[i..], p)
  }

  /** `s.split(sep)` for a one-character separator: the pieces between separators,
      always at least one (the empty string splits into `[""]`). */
  function Split(s: string, sep: char): (parts: seq<string>)
    ensures |parts| >= 1
    ensures forall i :: 0 <= i < |parts| ==> sep !in parts[i]
    ensures sep !in s ==> parts == [s]
    ensures sep in s ==> |parts| > 1
  {
    if |s| == 0 then [""]
    else
      var rest := Split(s[1..], sep);
      if s[0] == sep then [""] + rest
      else
        assert s == [s[0]] + s[1..];
        [[s[0]] + rest[0]] + rest[1..]
  }

  /** `sep.join(parts)` */
  function Join(parts: seq<string>, sep: char): string
    requires |parts| >= 1
  {
    if |parts| == 1 then parts[0] else parts[0] + [sep] + Join(parts[1..], sep)
  }

  /** `xs[-1]` */
  function Last(xs: seq<string>): string
    requires |xs| >= 1
  {
    xs[|xs| - 1]
  }

  /** `s.replace(p, r)` for a non-empty pattern: every occurrence of `p`, found left to
      right without overlap, is replaced by `r`. */
  function Replace(s: string, p: string, r: string): string
    requires |p| > 0
    decreases |s|
  {
    if |s| < |p| then s
    else if StartsWith(s, p) then r + Replace(s[|p|..], p, r)
    else [s[0]] + Replace(s[1..], p, r)
  }

  /** Splitting and joining again gives the string back, so `Split` loses nothing. */
  lemma {:induction false} JoinSplit(s: string, sep: char)
    ensures Join(Split(s, sep), sep) == s
  {
    if |s| > 0 {
      JoinSplit(s[1..], sep);
      var rest := Split(s[1..], sep);
      if s[0] != sep {
        if |rest| == 1 {
          assert Join(Split(s, sep), sep) == [s[0]] + rest[0];
        } else {
          var tail := [[s[0]] + rest[0]] + rest[1..];
          assert tail[1..] == rest[1..];
          assert Join(tail, sep) == [s[0]] + rest[0] + [sep] + Join(rest[1..], sep);
        }
      } else {
        assert ([""] + rest)[1..] == rest;
      }
    }
  }

  /** `h` is the text of `s` before its first `sep`: a prefix free of `sep`, which is
      either all of `s` or followed by `sep`. */
  predicate BeforeFirst(s: string, sep: char, h: string) {
    |h| <= |s| && h == s[..|h|] && sep !in h && (|h| < |s| ==> s[|h|] == sep)
  }

  /** The first piece of a split is the text before the first separator. */
  lemma {:induction false} SplitFirst(s: string, sep: char)
    ensures BeforeFirst(s, sep, Split(s, sep)[0])
  {
    if |s| > 0 && s[0] != sep {
      SplitFirst(s[1..], sep);
    }
  }

  /** `t` is the text of `s` after its last `sep`: a suffix free of `sep`, which is
      either all of `s` or preceded by `sep`. */
  predicate AfterLast(s: string, sep: char, t: string) {
    |t| <= |s| && t == s[|s| - |t|..] && sep !in t && (|t| < |s| ==> s[|s| - |t| - 1] == sep)
  }

  /** The last piece of a split is the text after the last separator. */
  lemma {:induction false} SplitLast(s: string, sep: char)
    ensures AfterLast(s, sep, Last(Split(s, sep)))
  {
    if |s| > 0 {
      var rest := Split(s[1..], sep);
      var t0 := Last(rest);
      SplitLast(s[1..], sep);
      if s[0] == sep {
        assert Last(Split(s, sep)) == t0;
        SplitLastStep(s, sep, t0);
      } else if |rest| == 1 {
        assert rest == [s[1..]];
        assert s == [s[0]] + s[1..];
        assert Last(Split(s, sep)) == s;
      } else {
        assert Last(Split(s, sep)) == t0;
        assert sep in s[1..];
        SplitLastStep(s, sep, t0);
      }
    }
  }

  /** What is after the last separator of `s[1..]` is after the last separator of `s`,
      unless it is all of `s[1..]` and `s[0]` is not a separator. */
  lemma SplitLastStep(s: string, sep: char, t: string)
    requires |s| > 0 && AfterLast(s[1..], sep, t)
    requires |t| < |s| - 1 || s[0] == sep
    ensures AfterLast(s, sep, t)
  {
    assert s[1..][|s| - 1 - |t|..] == s[|s| - |t|..];
    if |t| < |s| - 1 {
      assert s[|s| - |t| - 1] == s[1..][|s| - 1 - |t| - 1];
    }
  }

  /** There is only one text before the first separator. */
  lemma BeforeFirstUnique(s: string, sep: char, h: string, g: string)
    requires BeforeFirst(s, sep, h) && BeforeFirst(s, sep, g)
    ensures h == g
  {
  }

  /** There is only one text after the last separator. */
  lemma AfterLastUnique(s: string, sep: char, t: string, u: string)
    requires AfterLast(s, sep, t) && AfterLast(s, sep, u)
    ensures t == u
  {
  }

  /** Appending text free of the separator extends the text after the last one. */
  lemma AfterLastAppend(s: string, sep: char, t: string, x: string)
    requires AfterLast(s, sep, t) && sep !in x
    ensures AfterLast(s + x, sep, t + x)
  {
    assert (s + x)[|s + x| - |t + x|..] == s[|s| - |t|..] + x;
    if |t| < |s| {
      assert (s + x)[|s + x| - |t + x| - 1] == s[|s| - |t| - 1];
    }
  }

  /** `Replace` leaves a string with no occurrence of the pattern as it is. */
  lemma {:induction false} ReplaceAbsent(s: string, p: string, r: string)
    requires |p| > 0 && !Occurs(s, p)
    ensures Replace(s, p, r) == s
  {
    if |s| >= |p| {
      assert !StartsWith(s[0..], p);
      assert s[0..] == s;
      assert !Occurs(s[1..], p) by {
        forall i | 0 <= i <= |s[1..]| - |p|
          ensures !StartsWith(s[1..][i..], p)
        {
          assert s[1..][i..] == s[i + 1..];
        }
      }
      ReplaceAbsent(s[1..], p, r);
    }
  }
}
