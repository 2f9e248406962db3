/**
 * The string operations the front end borrows from JavaScript: white space,
 * `trim`, ASCII case mapping, `split(' ')`, `includes`, `substring` and the
 * unanchored e-mail pattern `\S+@\S+\.\S+`.
 */
module Text {

  /** White space as `\s` and `String.prototype.trim` see it, over ASCII. */
  predicate IsSpace(c: char)
  {
    c == ' ' || c == '\t' || c == '\n' || c == '\r' || c == '\U{000B}' || c == '\U{000C}'
  }

  predicate AllSpace(s: string)
  {
    forall k | 0 <= k < |s| :: IsSpace(s[k])
  }

  /** Drops leading white space: the result starts with a non-space, and is empty only when `s` is all white space. */
  function TrimStart(s: string): (r: string)
    ensures |r| <= |s|
    ensures r == [] <==> AllSpace(s)
    ensures r == [] || !IsSpace(r[0])
    decreases |s|
  {
    if s != [] && IsSpace(s[0]) then
      assert AllSpace(s[1..]) ==> AllSpace(s) by {
        if AllSpace(s[1..]) {
          forall k | 0 <= k < |s| ensures IsSpace(s[k]) {
            if k > 0 { assert s[k] == s[1..][k - 1]; }
          }
        }
      }
      TrimStart(s[1..])
    else s
  }

  /** Drops trailing white space: the result is a prefix of `s` that ends with a non-space, and is empty only when `s` is all white space. */
  function TrimEnd(s: string): (r: string)
    ensures |r| <= |s| && r == s[..|r|]
    ensures r == [] <==> AllSpace(s)
    ensures r == [] || !IsSpace(r[|r| - 1])
    decreases |s|
  {
    if s != [] && IsSpace(s[|s| - 1]) then
      assert AllSpace(s[..|s| - 1]) ==> AllSpace(s) by {
        if AllSpace(s[..|s| - 1]) {
          forall k | 0 <= k < |s| ensures IsSpace(s[k]) {
            if k < |s| - 1 { assert s[k] == s[..|s| - 1][k]; }
          }
        }
      }
      TrimEnd(s[..|s| - 1])
    else s
  }

  /** `s.trim()`: empty exactly when `s` is all white space, and otherwise bounded by non-spaces. */
  function Trim(s: string): (r: string)
    ensures r == [] <==> AllSpace(s)
    ensures r != [] ==> !IsSpace(r[0]) && !IsSpace(r[|r| - 1])
    ensures |r| <= |s|
  {
    TrimEnd(TrimStart(s))
  }

  /** `TrimStart` removes a prefix of white space and keeps the rest. */
  lemma {:induction false} TrimStartDropsSpace(s: string)
    ensures TrimStart(s) == s[|s| - |TrimStart(s)|..]
    ensures AllSpace(s[..|s| - |TrimStart(s)|])
    decreases |s|
  {
    if s != [] && IsSpace(s[0]) {
      var tail := s[1..];
      var removed := |tail| - |TrimStart(tail)|;
      TrimStartDropsSpace(tail);
      assert tail[removed..] == s[1 + removed..];
      forall k | 0 <= k < 1 + removed ensures IsSpace(s[k]) {
        if k > 0 { assert s[k] == tail[..removed][k - 1]; }
      }
    }
  }

  /** `TrimEnd` removes a suffix of white space and keeps the rest. */
  lemma {:induction false} TrimEndDropsSpace(s: string)
    ensures AllSpace(s[|TrimEnd(s)|..])
    decreases |s|
  {
    if s != [] && IsSpace(s[|s| - 1]) {
      var init := s[..|s| - 1];
      var kept := |TrimEnd(init)|;
      TrimEndDropsSpace(init);
      forall k | kept <= k < |s| ensures IsSpace(s[k]) {
        if k < |s| - 1 { assert s[k] == init[kept..][k - kept]; }
      }
    }
  }

  /** `s.trim()` is the infix of `s` left once the white space at both ends is removed. */
  lemma TrimDropsSpace(s: string)
    ensures exists i | 0 <= i <= |s| - |Trim(s)| ::
      && Trim(s) == s[i..i + |Trim(s)|]
      && AllSpace(s[..i])
      && AllSpace(s[i + |Trim(s)|..])
  {
    var t := TrimStart(s);
    var r := TrimEnd(t);
    var i := |s| - |t|;
    TrimStartDropsSpace(s);
    TrimEndDropsSpace(t);
    assert t[|r|..] == s[i + |r|..];
    assert r == s[i..i + |r|];
  }

  function UpperChar(c: char): char
  {
    if 'a' <= c <= 'z' then (c as int - 32) as char else c
  }

  function LowerChar(c: char): char
  {
    if 'A' <= c <= 'Z' then (c as int + 32) as char else c
  }

  /** `s.toUpperCase()` over ASCII letters. */
  function Upper(s: string): string
  {
    seq(|s|, k requires 0 <= k < |s| => UpperChar(s[k]))
  }

  /** `s.toLowerCase()` over ASCII letters. */
  function Lower(s: string): string
  {
    seq(|s|, k requires 0 <= k < |s| => LowerChar(s[k]))
  }

  /** `s.substring(0, n)` for `n >= 0`. */
  function Take(s: string, n: nat): string
  {
    if n <= |s| then s[..n] else s
  }

  /** `hay.includes(needle)`: `needle` occurs in `hay` at some position. */
  predicate Contains(hay: string, needle: string)
  {
    exists i | 0 <= i <= |hay| - |needle| :: needle <= hay[i..]
  }

  lemma ContainsEmpty(hay: string)
    ensures Contains(hay, "")
  {
    assert "" <= hay[0..];
  }

  /**
   * `s.split(' ')`: the pieces between single spaces, in order. There is
   * always at least one piece, no piece holds a space, and there is a single
   * piece, `s` itself, exactly when `s` has no space.
   */
  function Split(s: string): (parts: seq<string>)
    ensures |parts| >= 1
    ensures forall k | 0 <= k < |parts| :: ' ' !in parts[k]
    ensures |parts| == 1 <==> ' ' !in s
    ensures |parts| == 1 ==> parts[0] == s
    decreases |s|
  {
    if s == [] then [""]
    else if s[0] == ' ' then [""] + Split(s[1..])
    else
      var rest := Split(s[1..]);
      [[s[0]] + rest[0]] + rest[1..]
  }

  /** The first piece of `s.split(' ')` is a prefix of `s`, followed by a space when there are several pieces. */
  lemma {:induction false} SplitFirstPiece(s: string)
    ensures |Split(s)[0]| <= |s| && Split(s)[0] == s[..|Split(s)[0]|]
    ensures |Split(s)| > 1 ==> |Split(s)[0]| < |s| && s[|Split(s)[0]|] == ' '
    decreases |s|
  {
    if s != [] && s[0] != ' ' {
      var tail := s[1..];
      var rest := Split(tail);
      SplitFirstPiece(tail);
      assert Split(s) == [[s[0]] + rest[0]] + rest[1..];
      assert s[..1 + |rest[0]|] == [s[0]] + tail[..|rest[0]|];
      if |rest| > 1 {
        assert s[1 + |rest[0]|] == tail[|rest[0]|];
      }
    }
  }

  /** The last element of a non-empty sequence. */
  function Last<T>(xs: seq<T>): T
    requires |xs| >= 1
  {
    xs[|xs| - 1]
  }

  /** The last piece of `s.split(' ')` is a suffix of `s`, preceded by a space when there are several pieces. */
  lemma {:induction false} SplitLastPiece(s: string)
    ensures |Last(Split(s))| <= |s| && Last(Split(s)) == s[|s| - |Last(Split(s))|..]
    ensures |Split(s)| > 1 ==> |Last(Split(s))| < |s| && s[|s| - |Last(Split(s))| - 1] == ' '
    decreases |s|
  {
    if s != [] {
      var tail := s[1..];
      var rest := Split(tail);
      var last := Last(rest);
      SplitLastPiece(tail);
      SuffixOfTail(s, |last|);
      if s[0] == ' ' {
        assert Split(s) == [""] + rest;
        LastOfCons(rest, "");
        if |rest| > 1 {
          assert s[|s| - |last| - 1] == tail[|tail| - |last| - 1];
        } else {
          assert last == tail;
        }
      } else if |rest| == 1 {
        assert Split(s) == [[s[0]] + tail];
        assert s == [s[0]] + tail;
      } else {
        assert Split(s) == [[s[0]] + rest[0]] + rest[1..];
        LastOfCons(rest[1..], [s[0]] + rest[0]);
        assert Last(rest[1..]) == last;
        assert s[|s| - |last| - 1] == tail[|tail| - |last| - 1];
      }
    }
  }

  lemma SuffixOfTail(s: string, n: nat)
    requires n < |s|
    ensures s[1..][|s| - 1 - n..] == s[|s| - n..]
  {
  }

  lemma LastOfCons<T>(xs: seq<T>, x: T)
    requires |xs| >= 1
    ensures Last([x] + xs) == Last(xs)
  {
  }

  /** `parts.join(' ')`. */
  function Join(parts: seq<string>): string
    requires |parts| >= 1
  {
    if |parts| == 1 then parts[0] else parts[0] + " " + Join(parts[1..])
  }

  /** Prefixing the first piece with `c` prefixes the joined string with `c`. */
  lemma JoinPrependChar(c: char, parts: seq<string>)
    requires |parts| >= 1
    ensures Join([[c] + parts[0]] + parts[1..]) == [c] + Join(parts)
  {
    var moved := [[c] + parts[0]] + parts[1..];
    if |parts| > 1 {
      assert moved[1..] == parts[1..];
      var rest := Join(parts[1..]);
      assert Join(moved) == (([c] + parts[0]) + " ") + rest;
      assert Join(parts) == (parts[0] + " ") + rest;
      ConcatAssoc3(c, parts[0], rest);
    }
  }

  lemma ConcatAssoc3(c: char, a: string, b: string)
    ensures (([c] + a) + " ") + b == [c] + ((a + " ") + b)
  {
  }

  /** A leading empty piece becomes a leading space. */
  lemma JoinPrependEmpty(parts: seq<string>)
    requires |parts| >= 1
    ensures Join([""] + parts) == " " + Join(parts)
  {
    assert ([""] + parts)[1..] == parts;
  }

  /** Splitting on spaces and joining with spaces gives back the original string. */
  lemma {:induction false} JoinSplit(s: string)
    ensures Join(Split(s)) == s
    decreases |s|
  {
    if s == [] {
    } else {
      var rest := Split(s[1..]);
      JoinSplit(s[1..]);
      assert s == [s[0]] + s[1..];
      if s[0] == ' ' {
        JoinPrependEmpty(rest);
      } else {
        JoinPrependChar(s[0], rest);
      }
    }
  }

  // ---------------------------------------------------------------------------
  // The e-mail pattern /\S+@\S+\.\S+/ (unanchored, tested with RegExp.test)
  // ---------------------------------------------------------------------------

  /** `s[i..j]` is a non-empty run of non-space characters. */
  ghost predicate NonSpaceRun(s: string, i: int, j: int)
  {
    0 <= i < j <= |s| && forall k | i <= k < j :: !IsSpace(s[k])
  }

  /** The pattern matches `s[i..e]` with its `@` at `a` and its `.` at `b`. */
  ghost predicate PatternMatchAt(s: string, i: int, a: int, b: int, e: int)
  {
    && NonSpaceRun(s, i, a)
    && a < |s| && s[a] == '@'
    && NonSpaceRun(s, a + 1, b)
    && b < |s| && s[b] == '.'
    && NonSpaceRun(s, b + 1, e)
  }

  /** What `RegExp.test` answers for the unanchored pattern: some substring matches. */
  ghost predicate PatternMatches(s: string)
  {
    exists i, a, b, e :: PatternMatchAt(s, i, a, b, e)
  }

  /** Every character strictly between positions `a` and `b` is a non-space. */
  predicate NonSpaceBetween(s: string, a: int, b: int)
    requires 0 <= a <= b <= |s|
  {
    forall k | a < k < b :: !IsSpace(s[k])
  }

  /** An `@` at `a` with a non-space before it, a `.` at `b` with a non-space after it, and at least one non-space between them. */
  predicate EmailShapeAt(s: string, a: int, b: int)
  {
    && 0 < a && a + 1 < b && b + 1 < |s|
    && s[a] == '@' && s[b] == '.'
    && !IsSpace(s[a - 1]) && !IsSpace(s[b + 1])
    && NonSpaceBetween(s, a, b)
  }

  /** The executable test: the shape occurs at some pair of positions. */
  predicate EmailLike(s: string)
  {
    exists a, b | 0 < a < b < |s| :: EmailShapeAt(s, a, b)
  }

  /** The executable test answers exactly what the regular expression matches. */
  lemma EmailLikeIsPattern(s: string)
    ensures EmailLike(s) <==> PatternMatches(s)
  {
    if EmailLike(s) {
      var a, b :| 0 < a < b < |s| && EmailShapeAt(s, a, b);
      assert PatternMatchAt(s, a - 1, a, b, b + 2);
    }
    if PatternMatches(s) {
      var i, a, b, e :| PatternMatchAt(s, i, a, b, e);
      assert !IsSpace(s[a - 1]);
      assert !IsSpace(s[b + 1]);
      assert EmailShapeAt(s, a, b);
    }
  }

  /** A string the pattern accepts is not blank, so trimming it leaves something. */
  lemma EmailLikeNotBlank(s: string)
    requires EmailLike(s)
    ensures Trim(s) != []
  {
    var a, b :| 0 < a < b < |s| && EmailShapeAt(s, a, b);
    assert !IsSpace(s[a]);
  }
}
