/**
 * The parts of Python's `str` that the modelled code relies on, restricted to
 * ASCII: `islower`, `isalnum`, `isupper`, `upper`, `startswith`, `endswith`,
 * `in`, `replace`, `split`, `join`, `split(sep)[-1]` and `os.path.dirname`.
 * Characters outside ASCII are treated as uncased and not alphanumeric.
 */
module Text {

  predicate IsUpperChar(c: char) { 'A' <= c <= 'Z' }
  predicate IsLowerChar(c: char) { 'a' <= c <= 'z' }
  predicate IsDigitChar(c: char) { '0' <= c <= '9' }
  predicate IsAlnumChar(c: char) { IsUpperChar(c) || IsLowerChar(c) || IsDigitChar(c) }

  /** `str.islower()`: at least one cased character and no upper-case one. */
  predicate IsLower(s: string) {
    (exists i :: 0 <= i < |s| && IsLowerChar(s[i])) &&
    (forall i :: 0 <= i < |s| ==> !IsUpperChar(s[i]))
  }

  /** `str.isalnum()`: non-empty and every character a letter or a digit. */
  predicate IsAlnum(s: string) {
    |s| > 0 && forall i :: 0 <= i < |s| ==> IsAlnumChar(s[i])
  }

  function UpperChar(c: char): char {
    if IsLowerChar(c) then (c as int - 32) as char else c
  }

  /** `str.upper()`. */
  function Upper(s: string): (r: string)
    ensures |r| == |s|
    ensures forall i :: 0 <= i < |r| ==> !IsLowerChar(r[i])
    ensures forall i :: 0 <= i < |r| ==> (IsLowerChar(s[i]) || r[i] == s[i])
    ensures forall i :: 0 <= i < |r| ==> r[i] == UpperChar(s[i])
  {
    seq(|s|, i requires 0 <= i < |s| => UpperChar(s[i]))
  }

  predicate StartsWith(s: string, prefix: string) {
    |prefix| <= |s| && s[..|prefix|] == prefix
  }

  predicate EndsWith(s: string, suffix: string) {
    |suffix| <= |s| && s[|s| - |suffix|..] == suffix
  }

  /** Python's `pattern in s`. */
  predicate Contains(s: string, pattern: string)
    decreases |s|
  {
    StartsWith(s, pattern) || (|s| > 0 && Contains(s[1..], pattern))
  }

  /** `s.replace(pattern, repl)`: a single left-to-right pass over non-overlapping occurrences. */
  function Replace(s: string, pattern: string, repl: string): string
    decreases |s|
  {
    if pattern == [] then InsertEverywhere(s, repl)
    else if |s| < |pattern| then s
    else if s[..|pattern|] == pattern then repl + Replace(s[|pattern|..], pattern, repl)
    else [s[0]] + Replace(s[1..], pattern, repl)
  }

  /** `s.replace("", repl)` puts `repl` before every character and at the end. */
  function InsertEverywhere(s: string, repl: string): string {
    if s == [] then repl else repl + [s[0]] + InsertEverywhere(s[1..], repl)
  }

  lemma {:induction false} ReplaceAbsent(s: string, pattern: string, repl: string)
    requires pattern != [] && !Contains(s, pattern)
    ensures Replace(s, pattern, repl) == s
    decreases |s|
  {
    if |s| >= |pattern| {
      ReplaceAbsent(s[1..], pattern, repl);
      assert [s[0]] + s[1..] == s;
    }
  }

  /** Replacing a character that does not occur changes nothing. */
  lemma {:induction false} ReplaceCharAbsent(s: string, c: char, repl: string)
    requires c !in s
    ensures Replace(s, [c], repl) == s
    decreases |s|
  {
    if |s| >= 1 {
      assert s[0] in s;
      assert s[..1] == [s[0]];
      ReplaceCharAbsent(s[1..], c, repl);
      assert [s[0]] + s[1..] == s;
    }
  }

  /** Replacing a character: the text before its first occurrence is kept and
      that occurrence becomes `repl`. */
  lemma {:induction false} ReplaceCharAt(a: string, c: char, b: string, repl: string)
    requires c !in a
    ensures Replace(a + [c] + b, [c], repl) == a + repl + Replace(b, [c], repl)
    decreases |a|
  {
    var s := a + [c] + b;
    if a == [] {
      assert s[..1] == [c] && s[1..] == b;
    } else {
      var tail := a[1..];
      assert a[0] != c by { assert a[0] in a; }
      assert c !in tail by { assert forall x :: x in tail ==> x in a; }
      assert s[..1] == [a[0]] && s[1..] == tail + [c] + b;
      ReplaceCharAt(tail, c, b, repl);
      assert Replace(s, [c], repl) == [a[0]] + (tail + repl + Replace(b, [c], repl));
      assert [a[0]] + tail == a;
    }
  }

  lemma UpperAppend(a: string, b: string)
    ensures Upper(a + b) == Upper(a) + Upper(b)
  {
  }

  /** Replacing a single character by a string without it leaves no occurrence of it. */
  lemma {:induction false} ReplaceCharGone(s: string, c: char, repl: string)
    requires c !in repl
    ensures c !in Replace(s, [c], repl)
    decreases |s|
  {
    if |s| >= 1 {
      ReplaceCharGone(s[1..], c, repl);
      if s[..1] != [c] {
        assert s[0] != c;
      }
    }
  }

  /** Replacing one character by one character keeps the length and changes
      exactly the positions holding that character. */
  lemma {:induction false} ReplaceCharPointwise(s: string, c: char, d: char)
    ensures |Replace(s, [c], [d])| == |s|
    ensures forall i :: 0 <= i < |s| ==> Replace(s, [c], [d])[i] == if s[i] == c then d else s[i]
    decreases |s|
  {
    if |s| >= 1 {
      ReplaceCharPointwise(s[1..], c, d);
      var rest := Replace(s[1..], [c], [d]);
      var head := if s[0] == c then d else s[0];
      assert Replace(s, [c], [d]) == [head] + rest by {
        assert s[..1] == [s[0]];
      }
      forall i | 0 <= i < |s|
        ensures ([head] + rest)[i] == if s[i] == c then d else s[i]
      {
        if i > 0 {
          assert s[1..][i - 1] == s[i];
        }
      }
    }
  }

  /** A character found neither in the text nor in the replacement is not in
      the result. */
  lemma {:induction false} ReplaceKeepsOut(s: string, pattern: string, repl: string, c: char)
    requires pattern != [] && c !in s && c !in repl
    ensures c !in Replace(s, pattern, repl)
    decreases |s|
  {
    if |s| >= |pattern| {
      assert forall x :: x in s[1..] ==> x in s;
      assert forall x :: x in s[|pattern|..] ==> x in s;
      ReplaceKeepsOut(s[1..], pattern, repl, c);
      ReplaceKeepsOut(s[|pattern|..], pattern, repl, c);
      assert s[0] in s;
    }
  }

  /** Text without ".git" followed by ".git" loses exactly that trailing
      ".git": no occurrence can straddle the boundary, since ".git" has no
      proper prefix that is also a suffix. */
  lemma {:induction false} ReplaceTrailingGit(a: string)
    requires !Contains(a, ".git")
    ensures Replace(a + ".git", ".git", "") == a
    decreases |a|
  {
    var s := a + ".git";
    if a == [] {
      assert s == ".git" + "";
      ReplaceMatch(".git", "", "");
    } else {
      assert !StartsWith(a, ".git");
      assert s[..4] != ".git" by {
        if |a| >= 4 {
          assert s[..4] == a[..4];
        } else {
          assert s[|a|] == '.';
          assert ".git"[|a|] != '.';
        }
      }
      assert s[1..] == a[1..] + ".git";
      ReplaceTrailingGit(a[1..]);
      assert [a[0]] + a[1..] == a;
    }
  }

  /** An occurrence anywhere in the text makes `pattern in s` hold. */
  lemma {:induction false} ContainsAt(s: string, pattern: string, i: nat)
    requires i + |pattern| <= |s| && s[i..i + |pattern|] == pattern
    ensures Contains(s, pattern)
    decreases i
  {
    if i > 0 {
      assert s[1..][i - 1..i - 1 + |pattern|] == s[i..i + |pattern|];
      ContainsAt(s[1..], pattern, i - 1);
    }
  }

  /** Replacing a leading occurrence that does not come back in the rest removes
      exactly that occurrence. */
  lemma ReplaceLeading(pattern: string, rest: string)
    requires pattern != [] && !Contains(rest, pattern)
    ensures Replace(pattern + rest, pattern, "") == rest
  {
    ReplaceMatch(pattern, rest, "");
    ReplaceAbsent(rest, pattern, "");
  }

  /** A leading occurrence is replaced and the scan goes on after it. */
  lemma ReplaceMatch(pattern: string, rest: string, repl: string)
    requires pattern != []
    ensures Replace(pattern + rest, pattern, repl) == repl + Replace(rest, pattern, repl)
  {
    var s := pattern + rest;
    assert s[..|pattern|] == pattern;
    assert s[|pattern|..] == rest;
  }

  /** Leading text without the pattern's first character is kept as it is. */
  lemma {:induction false} ReplaceSkip(a: string, rest: string, pattern: string, repl: string)
    requires pattern != [] && pattern[0] !in a
    ensures Replace(a + rest, pattern, repl) == a + Replace(rest, pattern, repl)
    decreases |a|
  {
    if a != [] {
      var s := a + rest;
      assert s[1..] == a[1..] + rest;
      ReplaceSkip(a[1..], rest, pattern, repl);
      if |s| < |pattern| {
        assert Replace(s, pattern, repl) == s;
        assert Replace(rest, pattern, repl) == rest;
      } else {
        assert s[..|pattern|][0] == a[0] != pattern[0];
        assert Replace(s, pattern, repl) == [a[0]] + Replace(s[1..], pattern, repl);
      }
      assert [a[0]] + (a[1..] + Replace(rest, pattern, repl)) == a + Replace(rest, pattern, repl);
    } else {
      assert a + rest == rest;
    }
  }

  /** `str(n)` for an integer. */
  function Decimal(n: int): (r: string)
    ensures r != []
    ensures n >= 0 ==> forall i :: 0 <= i < |r| ==> IsDigitChar(r[i])
    decreases if n < 0 then 1 - n else n
  {
    if n < 0 then "-" + Decimal(-n)
    else if n < 10 then [(48 + n) as char]
    else Decimal(n / 10) + [(48 + n % 10) as char]
  }

  /** `s.split(sep)[-1]`: the text after the last `sep`, or all of `s`. */
  function LastSegment(s: string, sep: char): (r: string)
    ensures |r| <= |s|
  {
    if s == [] then []
    else if s[|s| - 1] == sep then []
    else LastSegment(s[..|s| - 1], sep) + [s[|s| - 1]]
  }

  /** The last segment is the longest suffix without `sep`: it holds no
      `sep`, ends `s`, is all of `s` when `s` has no `sep`, and otherwise
      follows a `sep`. */
  lemma {:induction false} LastSegmentSuffix(s: string, sep: char)
    ensures var r := LastSegment(s, sep);
      sep !in r && EndsWith(s, r) && (sep !in s ==> r == s) &&
      (|r| < |s| ==> s[|s| - |r| - 1] == sep)
    decreases |s|
  {
    if s == [] {
    } else if s[|s| - 1] == sep {
      assert LastSegment(s, sep) == [];
      assert s[|s|..] == [];
    } else {
      var front := s[..|s| - 1];
      var last := s[|s| - 1];
      var rf := LastSegment(front, sep);
      LastSegmentSuffix(front, sep);
      assert LastSegment(s, sep) == rf + [last];
      assert s == front + [last];
      assert s[|s| - |rf| - 1..] == front[|front| - |rf|..] + [last];
      if |rf| < |front| {
        assert s[|s| - |rf| - 2] == front[|front| - |rf| - 1];
      }
      if sep !in s {
        assert sep !in front by {
          assert forall c :: c in front ==> c in s;
        }
        assert rf + [last] == s;
      }
    }
  }

  /** `s.split(sep)` for a one-character separator. */
  function Split(s: string, sep: char): (parts: seq<string>)
    ensures |parts| >= 1
    ensures forall i :: 0 <= i < |parts| ==> sep !in parts[i]
    decreases |s|
  {
    if s == [] then [""]
    else
      var rest := Split(s[1..], sep);
      if s[0] == sep then [""] + rest
      else [[s[0]] + rest[0]] + rest[1..]
  }

  /** `sep.join(parts)`. */
  function Join(parts: seq<string>, sep: string): string
    decreases |parts|
  {
    if parts == [] then ""
    else if |parts| == 1 then parts[0]
    else parts[0] + sep + Join(parts[1..], sep)
  }

  /** Splitting and joining again with the same separator gives back the text. */
  lemma {:induction false} SplitJoin(s: string, sep: char)
    ensures Join(Split(s, sep), [sep]) == s
    decreases |s|
  {
    if s != [] {
      var rest := Split(s[1..], sep);
      SplitJoin(s[1..], sep);
      if s[0] == sep {
        assert Split(s, sep) == [""] + rest;
        assert Join([""] + rest, [sep]) == "" + [sep] + Join(rest, [sep]);
        assert [s[0]] + s[1..] == s;
      } else {
        assert Split(s, sep) == [[s[0]] + rest[0]] + rest[1..];
        if |rest| == 1 {
          assert Join(rest, [sep]) == rest[0];
        } else {
          assert Join(rest, [sep]) == rest[0] + [sep] + Join(rest[1..], [sep]);
        }
        assert [s[0]] + s[1..] == s;
      }
    }
  }

  predicate AllChar(s: string, c: char) {
    forall i :: 0 <= i < |s| ==> s[i] == c
  }

  function RStrip(s: string, c: char): (r: string)
    ensures StartsWith(s, r)
  {
    if s == [] || s[|s| - 1] != c then s else RStrip(s[..|s| - 1], c)
  }

  /** `os.path.dirname` on POSIX: the text before the last '/', with trailing '/'s
      removed unless it consists of '/'s only. */
  function DirName(p: string): (r: string)
    ensures StartsWith(p, r)
  {
    var head := p[..|p| - |LastSegment(p, '/')|];
    if head != [] && !AllChar(head, '/') then RStrip(head, '/') else head
  }
}
