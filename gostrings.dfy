/** The parts of Go's `strings` package that the crawler uses, written out
    on `seq<char>`, with the facts about them that the rest of the model needs. */
module GoStrings {

  /** strings.Join with a one-character separator. */
  function Join(parts: seq<string>, sep: char): string
  {
    if |parts| == 0 then ""
    else if |parts| == 1 then parts[0]
    else parts[0] + [sep] + Join(parts[1..], sep)
  }

  /** strings.Split with a one-character separator: the pieces between the
      separators, so there is always at least one piece and no piece holds
      the separator. */
  function Split(s: string, sep: char): (parts: seq<string>)
    ensures |parts| >= 1
    ensures forall i :: 0 <= i < |parts| ==> sep !in parts[i]
    decreases |s|
  {
    if |s| == 0 then [""]
    else
      var rest := Split(s[1..], sep);
      if s[0] == sep then [""] + rest else [[s[0]] + rest[0]] + rest[1..]
  }

  /** Joining the pieces of a split with its separator gives the input. */
  lemma {:induction false} SplitJoin(s: string, sep: char)
    ensures Join(Split(s, sep), sep) == s
    decreases |s|
  {
    if |s| > 0 {
      var rest := Split(s[1..], sep);
      SplitJoin(s[1..], sep);
      SplitUnfold(s, sep);
      var parts := Split(s, sep);
      if s[0] == sep {
        assert parts[1..] == rest;
        assert Join(parts, sep) == [sep] + Join(rest, sep);
      } else {
        if |rest| > 1 {
          assert parts[1..] == rest[1..];
        }
        assert Join(parts, sep) == [s[0]] + Join(rest, sep);
      }
      assert s == [s[0]] + s[1..];
    }
  }

  /** Splitting a join of separator-free pieces gives the pieces back. */
  lemma JoinSplit(parts: seq<string>, sep: char)
    requires |parts| >= 1
    requires forall i :: 0 <= i < |parts| ==> sep !in parts[i]
    ensures Split(Join(parts, sep), sep) == parts
  {
    SplitUnique(Join(parts, sep), sep, parts);
  }

  /** The pieces that Split returns are the only sep-free pieces that join
      back to the input. */
  lemma {:induction false} SplitUnique(s: string, sep: char, parts: seq<string>)
    requires |parts| >= 1
    requires forall i :: 0 <= i < |parts| ==> sep !in parts[i]
    requires Join(parts, sep) == s
    ensures parts == Split(s, sep)
    decreases |s|, |parts[0]|
  {
    if |parts| == 1 {
      assert s == parts[0];
      SplitOfSepFree(s, sep);
    } else if parts[0] == [] {
      assert s == [sep] + Join(parts[1..], sep);
      assert s[1..] == Join(parts[1..], sep);
      SplitUnique(s[1..], sep, parts[1..]);
      assert parts == [""] + parts[1..];
    } else {
      var head := parts[0];
      assert s == head + [sep] + Join(parts[1..], sep);
      assert s[0] == head[0];
      var parts' := [head[1..]] + parts[1..];
      assert parts'[1..] == parts[1..];
      assert Join(parts', sep) == s[1..];
      forall i | 0 <= i < |parts'| ensures sep !in parts'[i] {
        if i == 0 {
          assert forall c :: c in head[1..] ==> c in head;
        } else {
          assert parts'[i] == parts[i];
        }
      }
      SplitUnique(s[1..], sep, parts');
      assert [s[0]] + head[1..] == head;
      assert parts == [[s[0]] + parts'[0]] + parts'[1..];
    }
  }

  /** A string without the separator splits into itself alone. */
  lemma {:induction false} SplitOfSepFree(s: string, sep: char)
    requires sep !in s
    ensures Split(s, sep) == [s]
    decreases |s|
  {
    if |s| > 0 {
      assert sep !in s[1..] by {
        assert forall c :: c in s[1..] ==> c in s;
      }
      SplitOfSepFree(s[1..], sep);
      assert [s[0]] + s[1..] == s;
    }
  }

  /** The last piece of Split is the text after the last separator: a
      separator-free suffix that is either the whole input or follows a
      separator. */
  lemma {:induction false} SplitLast(s: string, sep: char)
    ensures IsLastSegment(Split(s, sep)[|Split(s, sep)| - 1], s, sep)
    decreases |s|
  {
    if |s| == 0 {
      assert Split(s, sep) == [""];
    } else {
      var rest := Split(s[1..], sep);
      SplitLast(s[1..], sep);
      SplitJoin(s[1..], sep);
      SplitUnfold(s, sep);
      SplitLastStep(s, sep, rest, Split(s, sep));
    }
  }

  /** Split of a non-empty string, in terms of the split of its tail. */
  lemma SplitUnfold(s: string, sep: char)
    requires |s| > 0
    ensures Split(s, sep) == if s[0] == sep then [""] + Split(s[1..], sep)
      else [[s[0]] + Split(s[1..], sep)[0]] + Split(s[1..], sep)[1..]
  {
  }

  /** One step of SplitLast, on the pieces of `s[1..]` and of `s` as plain
      values. */
  lemma SplitLastStep(s: string, sep: char, rest: seq<string>, parts: seq<string>)
    requires |s| > 0 && |rest| >= 1
    requires Join(rest, sep) == s[1..]
    requires IsLastSegment(rest[|rest| - 1], s[1..], sep)
    requires parts == if s[0] == sep then [""] + rest else [[s[0]] + rest[0]] + rest[1..]
    ensures IsLastSegment(parts[|parts| - 1], s, sep)
  {
    var last := rest[|rest| - 1];
    if s[0] == sep {
      assert parts[|parts| - 1] == last;
      LastSegmentCons(last, s, sep);
    } else if |rest| == 1 {
      assert s[1..] == rest[0];
      LastSegmentCons(last, s, sep);
      assert [s[0]] + last == parts[|parts| - 1];
    } else {
      assert parts[|parts| - 1] == last;
      JoinLastShorter(rest, sep);
      LastSegmentCons(last, s, sep);
    }
  }

  /** With at least two pieces, the last piece is shorter than the join. */
  lemma {:induction false} JoinLastShorter(parts: seq<string>, sep: char)
    requires |parts| >= 2
    ensures |parts[|parts| - 1]| < |Join(parts, sep)|
    decreases |parts|
  {
    if |parts| > 2 {
      JoinLastShorter(parts[1..], sep);
    }
  }

  /** Putting a character in front keeps a last segment that is shorter
      than the rest of the string; when the segment is the whole rest it
      either stays the last segment (the character is the separator) or
      grows by the character. */
  lemma LastSegmentCons(t: string, s: string, sep: char)
    requires |s| > 0 && IsLastSegment(t, s[1..], sep)
    ensures |t| < |s| - 1 || s[0] == sep ==> IsLastSegment(t, s, sep)
    ensures |t| == |s| - 1 && s[0] != sep ==> IsLastSegment([s[0]] + t, s, sep)
  {
    assert s[|s| - |t|..] == s[1..][|s| - 1 - |t|..];
    if |t| < |s| - 1 {
      assert s[|s| - |t| - 1] == s[1..][|s| - 1 - |t| - 1];
    }
    if |t| == |s| - 1 && s[0] != sep {
      assert t == s[1..];
      assert [s[0]] + t == s;
    }
  }

  /** `t` is the text of `s` after its last `sep` (all of `s` if none). */
  ghost predicate IsLastSegment(t: string, s: string, sep: char)
  {
    && |t| <= |s|
    && s[|s| - |t|..] == t
    && sep !in t
    && (|t| < |s| ==> s[|s| - |t| - 1] == sep)
  }

  /** strings.HasPrefix. */
  predicate HasPrefix(s: string, prefix: string)
  {
    |prefix| <= |s| && s[..|prefix|] == prefix
  }

  /** strings.HasSuffix. */
  predicate HasSuffix(s: string, suffix: string)
  {
    |suffix| <= |s| && s[|s| - |suffix|..] == suffix
  }

  /** strings.ReplaceAll with a one-character old and new string. */
  function ReplaceChar(s: string, old_: char, new_: char): (r: string)
    ensures |r| == |s|
    ensures forall i :: 0 <= i < |r| ==> r[i] == (if s[i] == old_ then new_ else s[i])
    ensures old_ != new_ ==> old_ !in r
  {
    seq(|s|, i requires 0 <= i < |s| => if s[i] == old_ then new_ else s[i])
  }

  /** unicode.IsSpace, which strings.TrimSpace uses: the Latin-1 spaces and
      the other code points with Unicode's White_Space property. */
  predicate IsSpace(c: char)
  {
    || c == ' ' || c == '\t' || c == '\n' || c == '\U{000B}' || c == '\U{000C}' || c == '\r'
    || c == '\U{0085}' || c == '\U{00A0}' || c == '\U{1680}'
    || ('\U{2000}' <= c <= '\U{200A}')
    || c == '\U{2028}' || c == '\U{2029}' || c == '\U{202F}' || c == '\U{205F}' || c == '\U{3000}'
  }

  /** The index of the first non-space at or after `i`, or |s| if there is
      none. */
  function SkipSpaces(s: string, i: nat): (j: nat)
    requires i <= |s|
    ensures i <= j <= |s|
    ensures forall k :: i <= k < j ==> IsSpace(s[k])
    ensures j == |s| || !IsSpace(s[j])
    decreases |s| - i
  {
    if i < |s| && IsSpace(s[i]) then SkipSpaces(s, i + 1) else i
  }

  /** The index just past the last non-space before `j`, or `lo` if there is
      none from `lo` on. */
  function SkipSpacesBack(s: string, lo: nat, j: nat): (e: nat)
    requires lo <= j <= |s|
    ensures lo <= e <= j
    ensures forall k :: e <= k < j ==> IsSpace(s[k])
    ensures e == lo || !IsSpace(s[e - 1])
    decreases j
  {
    if lo < j && IsSpace(s[j - 1]) then SkipSpacesBack(s, lo, j - 1) else j
  }

  /** strings.TrimSpace: the infix s[i..j] left after dropping white space
      at both ends; what remains starts and ends with a non-space. */
  function TrimSpace(s: string): (r: string)
    ensures var i := SkipSpaces(s, 0);
      var j := SkipSpacesBack(s, i, |s|);
      && r == s[i..j]
      && (forall k :: 0 <= k < i ==> IsSpace(s[k]))
      && (forall k :: j <= k < |s| ==> IsSpace(s[k]))
    ensures r == [] || (!IsSpace(r[0]) && !IsSpace(r[|r| - 1]))
  {
    var i := SkipSpaces(s, 0);
    var j := SkipSpacesBack(s, i, |s|);
    s[i..j]
  }

  /** A string that neither starts nor ends with white space is its own trim. */
  lemma TrimSpaceOfTrimmed(s: string)
    requires s == [] || (!IsSpace(s[0]) && !IsSpace(s[|s| - 1]))
    ensures TrimSpace(s) == s
  {
  }

  /** Trimming twice is trimming once. */
  lemma TrimSpaceIdempotent(s: string)
    ensures TrimSpace(TrimSpace(s)) == TrimSpace(s)
  {
    TrimSpaceOfTrimmed(TrimSpace(s));
  }

  /** A string made only of white space trims to the empty string. */
  lemma TrimSpaceOfBlank(s: string)
    requires forall k :: 0 <= k < |s| ==> IsSpace(s[k])
    ensures TrimSpace(s) == ""
  {
  }

  /** Number of bytes in the UTF-8 encoding of one code point. */
  function RuneLen(c: char): (n: nat)
    ensures 1 <= n <= 4
  {
    if c as int < 0x80 then 1
    else if c as int < 0x800 then 2
    else if c as int < 0x10000 then 3
    else 4
  }

  /** Go's len() of a string: the length of its UTF-8 encoding in bytes. */
  function ByteLen(s: string): (n: nat)
    ensures n >= |s|
    ensures n <= 4 * |s|
    ensures n == 0 <==> s == ""
  {
    if s == "" then 0 else RuneLen(s[0]) + ByteLen(s[1..])
  }

  /** ByteLen counts ASCII text one byte per character. */
  lemma {:induction false} ByteLenOfAscii(s: string)
    requires forall k :: 0 <= k < |s| ==> s[k] as int < 0x80
    ensures ByteLen(s) == |s|
  {
    if s != "" {
      ByteLenOfAscii(s[1..]);
    }
  }
}
