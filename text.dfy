/**
 * The Python string operations the request handlers rely on, over `seq<char>`:
 * `str.startswith`, `str.replace(pat, "")`, `str.strip()` and `sep.join(parts)`,
 * together with `str.split`, which is used here only as the inverse of `join`.
 */
module Text {

  /** `s.startswith(prefix)`. */
  predicate StartsWith(s: string, prefix: string) {
    |prefix| <= |s| && s[..|prefix|] == prefix
  }

  /** `pat` occurs in `s` at index `i`. */
  predicate OccursAt(s: string, pat: string, i: int) {
    0 <= i && i + |pat| <= |s| && s[i..i + |pat|] == pat
  }

  /** A piece placed between two others occurs right after the first. */
  lemma OccursBetween(a: string, pat: string, b: string)
    ensures OccursAt(a + pat + b, pat, |a|)
  {
    assert (a + pat + b)[|a|..|a| + |pat|] == pat;
  }

  /** `pat` occurs where it is appended. */
  lemma OccursAtEnd(a: string, pat: string)
    ensures OccursAt(a + pat, pat, |a|)
  {
    assert (a + pat)[|a|..|a| + |pat|] == pat;
  }

  /** The first character of a non-empty piece nested inside a concatenation. */
  lemma FirstOfPiece(a: string, b: string, c: string, d: string, e: string)
    requires c != []
    ensures |a| + |b| < |a + (b + c + d) + e|
    ensures (a + (b + c + d) + e)[|a| + |b|] == c[0]
  {
  }

  /** A piece nested inside a concatenation occurs where the pieces before it end. */
  lemma OccursNested(a: string, b: string, c: string, pat: string, d: string, e: string, f: string)
    ensures OccursAt(a + b + (c + pat + d) + e + f, pat, |a| + |b| + |c|)
  {
    assert a + b + (c + pat + d) + e + f == (a + b + c) + pat + (d + e + f);
    OccursBetween(a + b + c, pat, d + e + f);
  }

  /** `pat in s`. */
  predicate Contains(s: string, pat: string) {
    exists i :: 0 <= i <= |s| - |pat| && OccursAt(s, pat, i)
  }

  /**
   * `s.replace(pat, "")` for a non-empty `pat`: Python scans once from the left and
   * deletes each occurrence it meets, so the text that remains is never scanned again.
   */
  function RemoveAll(s: string, pat: string): (r: string)
    requires pat != []
    ensures |r| <= |s|
    decreases |s|
  {
    if s == [] then []
    else if StartsWith(s, pat) then RemoveAll(s[|pat|..], pat)
    else [s[0]] + RemoveAll(s[1..], pat)
  }

  /** A leading occurrence of `pat` is deleted. */
  lemma RemoveAllLeading(pat: string, s: string)
    requires pat != []
    ensures RemoveAll(pat + s, pat) == RemoveAll(s, pat)
  {
    assert StartsWith(pat + s, pat);
    assert (pat + s)[|pat|..] == s;
  }

  /** Text without any occurrence of `pat` is left exactly as it is. */
  lemma {:induction false} RemoveAllUnchanged(s: string, pat: string)
    requires pat != []
    requires !Contains(s, pat)
    ensures RemoveAll(s, pat) == s
    decreases |s|
  {
    if s != [] {
      assert !OccursAt(s, pat, 0);
      assert !StartsWith(s, pat);
      forall i ensures !OccursAt(s[1..], pat, i) {
        if OccursAt(s[1..], pat, i) {
          assert s[1..][i..i + |pat|] == s[i + 1..i + 1 + |pat|];
          assert OccursAt(s, pat, i + 1);
        }
      }
      RemoveAllUnchanged(s[1..], pat);
      assert s == [s[0]] + s[1..];
    }
  }

  /**
   * The single scan does not remove a marker that is only formed once an inner
   * occurrence has been deleted: for `pat == [a, b, c] + tail`, putting a whole `pat`
   * after its first three characters leaves `pat` behind.
   */
  lemma RemoveAllSinglePass(pat: string, a: char, b: char, c: char, tail: string)
    requires pat == [a, b, c] + tail
    requires b != a && c != a && tail != [] && tail[0] != a
    ensures RemoveAll([a, b, c] + pat + tail, pat) == pat
  {
    var s := [b] + ([c] + (pat + tail));
    SinglePassShape(pat, a, b, c, tail);
    RemoveAllKeepsHead(a, s, pat);
    RemoveAllAroundOne(b, c, pat, tail);
  }

  /** How the text of `RemoveAllSinglePass` decomposes, and why its first character stays. */
  lemma SinglePassShape(pat: string, a: char, b: char, c: char, tail: string)
    requires pat == [a, b, c] + tail
    requires tail != [] && tail[0] != a
    ensures [a, b, c] + pat + tail == [a] + ([b] + ([c] + (pat + tail)))
    ensures !StartsWith([a] + ([b] + ([c] + (pat + tail))), pat)
    ensures [a] + ([b] + ([c] + tail)) == pat
  {
    var t := [a] + ([b] + ([c] + (pat + tail)));
    assert t[3] == a != pat[3];
  }

  /** A first character that does not open an occurrence is kept. */
  lemma RemoveAllKeepsHead(a: char, s: string, pat: string)
    requires pat != [] && !StartsWith([a] + s, pat)
    ensures RemoveAll([a] + s, pat) == [a] + RemoveAll(s, pat)
  {
    assert ([a] + s)[1..] == s;
  }

  /** Two characters that cannot open `pat`, then `pat`, then a short tail: only `pat` goes. */
  lemma RemoveAllAroundOne(c: char, d: char, pat: string, tail: string)
    requires pat != [] && c != pat[0] && d != pat[0] && |tail| < |pat|
    ensures RemoveAll([c] + ([d] + (pat + tail)), pat) == [c] + ([d] + tail)
  {
    RemoveAllPrepend(c, [d] + (pat + tail), pat);
    RemoveAllPrepend(d, pat + tail, pat);
    RemoveAllLeading(pat, tail);
    RemoveAllShort(tail, pat);
  }

  /** Text shorter than the pattern is left as it is. */
  lemma {:induction false} RemoveAllShort(s: string, pat: string)
    requires pat != [] && |s| < |pat|
    ensures RemoveAll(s, pat) == s
  {
    if s != [] {
      RemoveAllShort(s[1..], pat);
      assert s == [s[0]] + s[1..];
    }
  }

  /** A character that cannot open the pattern is kept. */
  lemma RemoveAllPrepend(c: char, s: string, pat: string)
    requires pat != [] && c != pat[0]
    ensures RemoveAll([c] + s, pat) == [c] + RemoveAll(s, pat)
  {
    assert ([c] + s)[1..] == s;
  }

  /** No proper prefix of `pat` is also a suffix of it, so two occurrences never overlap. */
  predicate Borderless(pat: string) {
    forall k :: 1 <= k < |pat| ==> pat[k..] != pat[..|pat| - k]
  }

  /** A pattern whose last character appears nowhere else in it is border-free. */
  lemma BorderlessByLast(pat: string)
    requires pat != []
    requires forall j :: 0 <= j < |pat| - 1 ==> pat[j] != pat[|pat| - 1]
    ensures Borderless(pat)
  {
    forall k | 1 <= k < |pat| ensures pat[k..] != pat[..|pat| - k] {
      assert pat[k..][|pat| - k - 1] == pat[|pat| - 1];
      assert pat[..|pat| - k][|pat| - k - 1] == pat[|pat| - k - 1];
    }
  }

  /** An occurrence in `t` is an occurrence in `a + t`, shifted by `|a|`. */
  lemma OccursShift(a: string, t: string, pat: string, i: int)
    requires OccursAt(t, pat, i)
    ensures OccursAt(a + t, pat, |a| + i)
  {
    assert (a + t)[|a| + i..|a| + i + |pat|] == t[i..i + |pat|];
  }

  /**
   * Text free of a border-free `pat`, then `pat`, then anything: the text before is
   * kept, that occurrence is deleted, and the scan goes on in what follows.
   */
  lemma {:induction false} RemoveAllAfterClean(a: string, pat: string, b: string)
    requires pat != [] && Borderless(pat) && !Contains(a, pat)
    ensures RemoveAll(a + pat + b, pat) == a + RemoveAll(b, pat)
    decreases |a|
  {
    var s := a + pat + b;
    if a == [] {
      assert s == pat + b;
      RemoveAllLeading(pat, b);
    } else {
      assert !StartsWith(s, pat) by {
        if StartsWith(s, pat) {
          if |a| >= |pat| {
            assert a[0..|pat|] == s[..|pat|];
            assert OccursAt(a, pat, 0);
          } else {
            BorderOfOverlap(a, pat, b);
          }
        }
      }
      assert !Contains(a[1..], pat) by {
        assert [a[0]] + a[1..] == a;
        forall i | 0 <= i <= |a[1..]| - |pat| ensures !OccursAt(a[1..], pat, i) {
          if OccursAt(a[1..], pat, i) {
            OccursShift([a[0]], a[1..], pat, i);
          }
        }
      }
      assert s[1..] == a[1..] + pat + b;
      RemoveAllAfterClean(a[1..], pat, b);
      assert [a[0]] + a[1..] == a;
    }
  }

  /** An occurrence at the start that overlaps a later `pat` exhibits a border of it. */
  lemma BorderOfOverlap(a: string, pat: string, b: string)
    requires 0 < |a| < |pat| && StartsWith(a + pat + b, pat)
    ensures pat[|a|..] == pat[..|pat| - |a|]
  {
    var s := a + pat + b;
    assert s[|a|..|pat|] == pat[|a|..];
    assert s[|a|..|pat|] == pat[..|pat| - |a|];
  }

  /**
   * Pieces free of a border-free `pat`, joined with `pat`: the scan deletes every
   * separator and nothing else.
   */
  lemma {:induction false} RemoveAllJoined(parts: seq<string>, pat: string)
    requires pat != [] && Borderless(pat) && parts != []
    requires forall k :: 0 <= k < |parts| ==> !Contains(parts[k], pat)
    ensures RemoveAll(Join(parts, pat), pat) == Join(parts, [])
    decreases |parts|
  {
    if |parts| == 1 {
      RemoveAllUnchanged(parts[0], pat);
    } else {
      RemoveAllAfterClean(parts[0], pat, Join(parts[1..], pat));
      RemoveAllJoined(parts[1..], pat);
      assert parts[0] + [] == parts[0];
    }
  }

  /** The characters Python's `str.isspace()` accepts, which `str.strip()` removes. */
  predicate IsSpace(c: char) {
    || '\t' <= c <= '\r'
    || '\U{001C}' <= c <= ' '
    || c == '\U{0085}' || c == '\U{00A0}' || c == '\U{1680}'
    || '\U{2000}' <= c <= '\U{200A}'
    || c == '\U{2028}' || c == '\U{2029}' || c == '\U{202F}' || c == '\U{205F}' || c == '\U{3000}'
  }

  /** Every character of `s` from index `lo` up to `hi` is whitespace. */
  predicate SpaceBetween(s: string, lo: int, hi: int)
    requires 0 <= lo && hi <= |s|
  {
    forall i :: lo <= i < hi ==> IsSpace(s[i])
  }

  /** `s.lstrip()`: the longest whitespace prefix is dropped. */
  function TrimStart(s: string): (r: string)
    ensures |r| <= |s| && r == s[|s| - |r|..]
    ensures SpaceBetween(s, 0, |s| - |r|)
    ensures r == [] || !IsSpace(r[0])
  {
    if s != [] && IsSpace(s[0]) then
      var r := TrimStart(s[1..]);
      assert s[1..][|s| - 1 - |r|..] == s[|s| - |r|..];
      r
    else s
  }

  /** `s.rstrip()`: the longest whitespace suffix is dropped. */
  function TrimEnd(s: string): (r: string)
    ensures |r| <= |s| && r == s[..|r|]
    ensures SpaceBetween(s, |r|, |s|)
    ensures r == [] || !IsSpace(r[|r| - 1])
  {
    if s != [] && IsSpace(s[|s| - 1]) then
      var r := TrimEnd(s[..|s| - 1]);
      assert s[..|s| - 1][..|r|] == s[..|r|];
      r
    else s
  }

  /** Text whose k-th character differs from `p`'s does not start with `p`. */
  lemma DiffersAt(a: string, p: string, rest: string, k: int)
    requires 0 <= k < |a| && k < |p| && a[k] != p[k]
    ensures !StartsWith(a + rest, p)
  {
  }

  /** `s.strip()`. */
  function Strip(s: string): (r: string)
  {
    TrimEnd(TrimStart(s))
  }

  /** `r` sits at index `i` of `s` with only whitespace before and after it. */
  predicate FramedAt(s: string, r: string, i: int)
  {
    0 <= i <= |s| - |r| && s[i..i + |r|] == r && SpaceBetween(s, 0, i) && SpaceBetween(s, i + |r|, |s|)
  }

  /**
   * What `strip()` promises: the result is a contiguous piece of `s` with only
   * whitespace around it, and it neither begins nor ends with whitespace.
   */
  lemma StripFrames(s: string)
    ensures exists i :: FramedAt(s, Strip(s), i)
    ensures Strip(s) == [] || (!IsSpace(Strip(s)[0]) && !IsSpace(Strip(s)[|Strip(s)| - 1]))
  {
    var t := TrimStart(s);
    var r := TrimEnd(t);
    var i := |s| - |t|;
    assert s[i..i + |r|] == r by {
      assert t == s[i..];
      assert r == t[..|r|];
    }
    assert SpaceBetween(s, i + |r|, |s|) by {
      forall j | i + |r| <= j < |s| ensures IsSpace(s[j]) {
        assert s[j] == t[j - i];
      }
    }
    assert r != [] ==> r[0] == t[0];
    assert r == Strip(s);
    assert FramedAt(s, r, i);
  }

  /** Stripping twice is stripping once. */
  lemma StripIdempotent(s: string)
    ensures Strip(Strip(s)) == Strip(s)
  {
    StripFrames(s);
    StripKeeps(Strip(s));
  }

  /** Text with no whitespace at either edge is its own strip. */
  lemma StripKeeps(s: string)
    requires s == [] || (!IsSpace(s[0]) && !IsSpace(s[|s| - 1]))
    ensures Strip(s) == s
  {
    if s != [] {
      assert TrimStart(s) == s;
      assert TrimEnd(s) == s;
    }
  }

  /** `sep.join(parts)`. */
  function Join(parts: seq<string>, sep: string): (r: string)
  {
    if parts == [] then []
    else if |parts| == 1 then parts[0]
    else parts[0] + sep + Join(parts[1..], sep)
  }

  /** `s.split(sep)` for a one-character separator. */
  function Split(s: string, sep: char): (r: seq<string>)
    ensures |r| >= 1
  {
    if s == [] then [[]]
    else
      var rest := Split(s[1..], sep);
      if s[0] == sep then [[]] + rest else [[s[0]] + rest[0]] + rest[1..]
  }

  /** A piece without the separator splits into itself. */
  lemma {:induction false} SplitPlain(p: string, sep: char)
    requires sep !in p
    ensures Split(p, sep) == [p]
  {
    if p != [] {
      SplitPlain(p[1..], sep);
      assert [p[0]] + p[1..] == p;
    }
  }

  /** The first separator ends the first piece. */
  lemma {:induction false} SplitAtSeparator(p: string, sep: char, t: string)
    requires sep !in p
    ensures Split(p + [sep] + t, sep) == [p] + Split(t, sep)
  {
    if p == [] {
      assert p + [sep] + t == [sep] + t;
      assert ([sep] + t)[1..] == t;
    } else {
      SplitAtSeparator(p[1..], sep, t);
      assert (p + [sep] + t)[1..] == p[1..] + [sep] + t;
      assert [p[0]] + p[1..] == p;
    }
  }

  /**
   * Joining with a one-character separator loses nothing: splitting the joined text
   * gives back the same pieces in the same order, provided no piece contains the
   * separator.
   */
  lemma {:induction false} SplitJoin(parts: seq<string>, sep: char)
    requires parts != []
    requires forall k :: 0 <= k < |parts| ==> sep !in parts[k]
    ensures Split(Join(parts, [sep]), sep) == parts
  {
    if |parts| == 1 {
      SplitPlain(parts[0], sep);
    } else {
      SplitJoin(parts[1..], sep);
      SplitAtSeparator(parts[0], sep, Join(parts[1..], [sep]));
      assert [parts[0]] + parts[1..] == parts;
    }
  }

  /** Length of a join: the pieces plus one separator between each neighbouring pair. */
  lemma {:induction false} JoinLength(parts: seq<string>, sep: string)
    requires parts != []
    ensures |Join(parts, sep)| == SumLengths(parts) + (|parts| - 1) * |sep|
  {
    if |parts| > 1 {
      JoinLength(parts[1..], sep);
    }
  }

  /**
   * Where each piece sits in a join: the `k`-th piece starts after the `k` pieces
   * before it and one separator after each of them.
   */
  lemma {:induction false} JoinHolds(parts: seq<string>, sep: string, k: int)
    requires 0 <= k < |parts|
    ensures OccursAt(Join(parts, sep), parts[k], SumLengths(parts[..k]) + k * |sep|)
    decreases k
  {
    if k == 0 {
      assert parts[..0] == [];
      if |parts| == 1 {
        assert parts[0][0..|parts[0]|] == parts[0];
      } else {
        OccursBetween([], parts[0], sep + Join(parts[1..], sep));
        assert [] + parts[0] + (sep + Join(parts[1..], sep)) == parts[0] + sep + Join(parts[1..], sep);
      }
    } else {
      JoinHolds(parts[1..], sep, k - 1);
      var i := SumLengths(parts[1..][..k - 1]) + (k - 1) * |sep|;
      OccursShift(parts[0] + sep, Join(parts[1..], sep), parts[k], i);
      assert parts[..k][1..] == parts[1..][..k - 1];
      assert SumLengths(parts[..k]) == |parts[0]| + SumLengths(parts[1..][..k - 1]);
      assert (k - 1) * |sep| + |sep| == k * |sep|;
    }
  }

  /** Total length of the pieces. */
  function SumLengths(parts: seq<string>): nat
  {
    if parts == [] then 0 else |parts[0]| + SumLengths(parts[1..])
  }
}
