/** The JavaScript string operations the application relies on: `trim`,
    `toLowerCase`, `split`, `join`, `includes`, the `\s+` collapse, string
    comparison with `<` and the decimal rendering of counts. */
module Strings {
  import opened Lists

  /** ECMAScript WhiteSpace and LineTerminator code points: what `trim()`
      removes and what the regular-expression class `\s` matches. */
  predicate IsSpace(c: char)
  {
    var n := c as int;
    (0x09 <= n <= 0x0D) || n == 0x20 || n == 0xA0 || n == 0x1680 || (0x2000 <= n <= 0x200A) ||
    n == 0x2028 || n == 0x2029 || n == 0x202F || n == 0x205F || n == 0x3000 || n == 0xFEFF
  }

  /** `s` without its leading whitespace: a suffix of `s`. */
  function TrimStart(s: string): (r: string)
    ensures |r| <= |s|
  {
    if s != [] && IsSpace(s[0]) then TrimStart(s[1..]) else s
  }

  lemma {:induction false} TrimStartSuffix(s: string)
    ensures TrimStart(s) == s[|s| - |TrimStart(s)|..]
  {
    if s != [] && IsSpace(s[0]) {
      TrimStartSuffix(s[1..]);
      assert s[1..][|s| - 1 - |TrimStart(s)|..] == s[|s| - |TrimStart(s)|..];
    }
  }

  /** What `TrimStart` cuts is whitespace, and what it keeps does not
      start with whitespace. */
  lemma {:induction false} TrimStartShape(s: string)
    ensures var r := TrimStart(s);
      && (forall i :: 0 <= i < |s| - |r| ==> IsSpace(s[i]))
      && (r != [] ==> !IsSpace(r[0]))
  {
    if s != [] && IsSpace(s[0]) {
      var u := s[1..];
      TrimStartShape(u);
      var r := TrimStart(u);
      assert TrimStart(s) == r;
      forall i | 0 <= i < |s| - |r| ensures IsSpace(s[i]) {
        if i > 0 {
          assert s[i] == u[i - 1];
        }
      }
    }
  }

  /** `s` without its trailing whitespace: a prefix of `s`. */
  function TrimEnd(s: string): (r: string)
    ensures |r| <= |s|
  {
    if s != [] && IsSpace(s[|s| - 1]) then TrimEnd(s[..|s| - 1]) else s
  }

  lemma {:induction false} TrimEndPrefix(s: string)
    ensures TrimEnd(s) == s[..|TrimEnd(s)|]
  {
    if s != [] && IsSpace(s[|s| - 1]) {
      TrimEndPrefix(s[..|s| - 1]);
      assert s[..|s| - 1][..|TrimEnd(s)|] == s[..|TrimEnd(s)|];
    }
  }

  /** What `TrimEnd` cuts is whitespace, and what it keeps does not end
      with whitespace. */
  lemma {:induction false} TrimEndShape(s: string)
    ensures var r := TrimEnd(s);
      && (forall i :: |r| <= i < |s| ==> IsSpace(s[i]))
      && (r != [] ==> !IsSpace(r[|r| - 1]))
  {
    if s != [] && IsSpace(s[|s| - 1]) {
      var u := s[..|s| - 1];
      TrimEndShape(u);
      var r := TrimEnd(u);
      assert TrimEnd(s) == r;
      forall i | |r| <= i < |s| ensures IsSpace(s[i]) {
        if i < |s| - 1 {
          assert s[i] == u[i];
        }
      }
    }
  }

  /** `s.trim()`. */
  function Trim(s: string): (r: string)
  {
    TrimEnd(TrimStart(s))
  }

  /** What `trim()` returns is `s` with whitespace cut from both ends only. */
  lemma TrimSpec(s: string)
    ensures var r := Trim(s);
      && (exists i, j :: 0 <= i <= j <= |s| && r == s[i..j]
            && (forall k :: 0 <= k < i ==> IsSpace(s[k]))
            && (forall k :: j <= k < |s| ==> IsSpace(s[k])))
      && (r != [] ==> !IsSpace(r[0]) && !IsSpace(r[|r| - 1]))
  {
    var i, j := TrimCut(s);
    var r := Trim(s);
    if r != [] {
      assert r[0] == s[i] && r[|r| - 1] == s[j - 1];
    }
  }

  /** Where `trim()` cuts `s`: the text kept neither starts nor ends with
      whitespace, and everything cut is whitespace. */
  lemma TrimCut(s: string) returns (i: nat, j: nat)
    ensures i <= j <= |s| && Trim(s) == s[i..j]
    ensures forall k :: 0 <= k < i ==> IsSpace(s[k])
    ensures forall k :: j <= k < |s| ==> IsSpace(s[k])
    ensures i < j ==> !IsSpace(s[i]) && !IsSpace(s[j - 1])
  {
    i := |s| - |TrimStart(s)|;
    j := i + |Trim(s)|;
    TrimSlice(s);
    TrimStartShape(s);
    TrimTrailing(s);
    TrimEnds(s);
  }

  /** The kept text is the slice between the two cuts. */
  lemma TrimSlice(s: string)
    ensures var i := |s| - |TrimStart(s)|;
      i + |Trim(s)| <= |s| && Trim(s) == s[i..i + |Trim(s)|]
  {
    var t := TrimStart(s);
    TrimStartSuffix(s);
    TrimEndPrefix(t);
    SliceOfSuffix(s, |s| - |t|, |TrimEnd(t)|);
  }

  /** Everything after the kept text is whitespace. */
  lemma TrimTrailing(s: string)
    ensures var j := |s| - |TrimStart(s)| + |Trim(s)|;
      forall k :: j <= k < |s| ==> IsSpace(s[k])
  {
    var t := TrimStart(s);
    TrimStartSuffix(s);
    TrimEndShape(t);
    SpacesAfterInSuffix(s, |s| - |t|, t, |TrimEnd(t)|);
  }

  lemma SpacesAfterInSuffix(s: string, i: nat, t: string, n: nat)
    requires i <= |s| && t == s[i..] && n <= |t|
    requires forall k :: n <= k < |t| ==> IsSpace(t[k])
    ensures forall k :: i + n <= k < |s| ==> IsSpace(s[k])
  {
    forall k | i + n <= k < |s| ensures IsSpace(s[k]) {
      assert s[k] == t[k - i];
    }
  }

  /** The kept text neither starts nor ends with whitespace. */
  lemma TrimEnds(s: string)
    ensures var i := |s| - |TrimStart(s)|;
      var j := i + |Trim(s)|;
      i < j ==> !IsSpace(s[i]) && !IsSpace(s[j - 1])
  {
    var t := TrimStart(s);
    var r := Trim(s);
    assert r == TrimEnd(t);
    TrimStartSuffix(s);
    TrimEndPrefix(t);
    TrimStartShape(s);
    TrimEndShape(t);
    EndsInSuffix(s, |s| - |t|, t, r);
  }

  lemma EndsInSuffix(s: string, i: nat, t: string, r: string)
    requires i <= |s| && t == s[i..] && |r| <= |t| && r == t[..|r|]
    requires t != [] ==> !IsSpace(t[0])
    requires r != [] ==> !IsSpace(r[|r| - 1])
    ensures i < i + |r| ==> !IsSpace(s[i]) && !IsSpace(s[i + |r| - 1])
  {
    if r != [] {
      assert s[i] == t[0] && s[i + |r| - 1] == r[|r| - 1];
    }
  }

  /** A prefix of a suffix is a slice. */
  lemma SliceOfSuffix(s: string, i: nat, n: nat)
    requires i + n <= |s|
    ensures s[i..][..n] == s[i..i + n]
  {
  }

  /** A string without leading or trailing whitespace is its own trim. */
  lemma TrimOfTrimmed(s: string)
    requires s != [] ==> !IsSpace(s[0]) && !IsSpace(s[|s| - 1])
    ensures Trim(s) == s
  {
  }

  /** Trimming twice is trimming once. */
  lemma TrimIdempotent(s: string)
    ensures Trim(Trim(s)) == Trim(s)
  {
    TrimSpec(s);
    TrimOfTrimmed(Trim(s));
  }

  /** `toLowerCase()` on one character, for the ASCII and Latin-1 letters. */
  function LowerChar(c: char): (r: char)
    ensures IsSpace(r) <==> IsSpace(c)
  {
    if 'A' <= c <= 'Z' then (c as int + 32) as char
    else if '\U{00C0}' <= c <= '\U{00DE}' && c != '\U{00D7}' then (c as int + 32) as char
    else c
  }

  /** `s.toLowerCase()`. */
  function ToLower(s: string): (r: string)
    ensures |r| == |s|
    ensures forall i :: 0 <= i < |s| ==> r[i] == LowerChar(s[i])
  {
    Map(s, LowerChar)
  }

  lemma ToLowerIdempotent(s: string)
    ensures ToLower(ToLower(s)) == ToLower(s)
  {
  }

  /** Lower-casing and trimming commute, because lower-casing never turns a
      space into a non-space or back. */
  lemma {:induction false} TrimToLowerCommute(s: string)
    ensures Trim(ToLower(s)) == ToLower(Trim(s))
  {
    TrimStartToLower(s);
    TrimEndToLower(TrimStart(s));
  }

  lemma {:induction false} TrimStartToLower(s: string)
    ensures TrimStart(ToLower(s)) == ToLower(TrimStart(s))
  {
    if s != [] && IsSpace(s[0]) {
      assert ToLower(s)[1..] == ToLower(s[1..]);
      TrimStartToLower(s[1..]);
    }
  }

  lemma {:induction false} TrimEndToLower(s: string)
    ensures TrimEnd(ToLower(s)) == ToLower(TrimEnd(s))
  {
    if s != [] && IsSpace(s[|s| - 1]) {
      assert ToLower(s)[..|s| - 1] == ToLower(s[..|s| - 1]);
      TrimEndToLower(s[..|s| - 1]);
    }
  }

  /** `xs.join(sep)`. */
  function Join(xs: seq<string>, sep: string): (r: string)
    ensures xs == [] ==> r == ""
    ensures |xs| == 1 ==> r == xs[0]
  {
    if xs == [] then ""
    else if |xs| == 1 then xs[0]
    else xs[0] + sep + Join(xs[1..], sep)
  }

  /** `s.split(re)` where `re` matches exactly one separator character: the
      pieces between separators, empty pieces included. */
  function Split(s: string, isSep: char -> bool): (r: seq<string>)
    ensures |r| >= 1
    ensures forall k, i :: 0 <= k < |r| && 0 <= i < |r[k]| ==> !isSep(r[k][i])
  {
    if s == [] then [""]
    else
      var rest := Split(s[1..], isSep);
      if isSep(s[0]) then [""] + rest
      else [[s[0]] + rest[0]] + rest[1..]
  }

  /** The pieces of a split, put back together, are exactly the
      non-separator characters of the input, in their order. */
  lemma {:induction false} SplitKeepsText(s: string, isSep: char -> bool)
    ensures Concat(Split(s, isSep)) == Filter(s, c => !isSep(c))
  {
    if s != [] {
      var rest := Split(s[1..], isSep);
      SplitKeepsText(s[1..], isSep);
      if isSep(s[0]) {
        assert ([""] + rest)[1..] == rest;
      } else {
        var r := [[s[0]] + rest[0]] + rest[1..];
        assert r[1..] == rest[1..];
        assert Concat(rest) == rest[0] + Concat(rest[1..]);
      }
    }
  }

  /** Joining the pieces of a split on a one-character separator rebuilds
      the input. */
  lemma {:induction false} JoinSplit(s: string, isSep: char -> bool, sep: char)
    requires forall c :: isSep(c) <==> c == sep
    ensures Join(Split(s, isSep), [sep]) == s
  {
    if s != [] {
      var rest := Split(s[1..], isSep);
      JoinSplit(s[1..], isSep, sep);
      if s[0] == sep {
        assert ([""] + rest)[1..] == rest;
      } else {
        var r := [[s[0]] + rest[0]] + rest[1..];
        assert r[1..] == rest[1..];
        if |rest| == 1 {
        } else {
          assert Join(rest, [sep]) == rest[0] + [sep] + Join(rest[1..], [sep]);
        }
      }
    }
  }

  /** Splitting a join on a separator that no part contains gives back the
      parts. */
  lemma SplitJoin(xs: seq<string>, isSep: char -> bool, sep: char)
    requires forall c :: isSep(c) <==> c == sep
    requires xs != []
    requires forall k :: 0 <= k < |xs| ==> sep !in xs[k]
    ensures Split(Join(xs, [sep]), isSep) == xs
  {
    forall k | 0 <= k < |xs| ensures NoSep(xs[k], isSep) {
      forall i | 0 <= i < |xs[k]| ensures !isSep(xs[k][i]) {
        assert xs[k][i] in xs[k];
      }
    }
    SplitJoinParts(xs, isSep, sep);
  }

  /** The same for a separator class: joining with one of its characters
      parts that hold none of them. */
  lemma {:induction false} SplitJoinParts(xs: seq<string>, isSep: char -> bool, sep: char)
    requires isSep(sep)
    requires xs != []
    requires forall k :: 0 <= k < |xs| ==> NoSep(xs[k], isSep)
    ensures Split(Join(xs, [sep]), isSep) == xs
  {
    if |xs| == 1 {
      SplitNoSep(xs[0], isSep);
    } else {
      var tail := xs[1..];
      forall k | 0 <= k < |tail| ensures NoSep(tail[k], isSep) {
        assert tail[k] == xs[k + 1];
      }
      SplitJoinParts(tail, isSep, sep);
      assert NoSep(xs[0], isSep);
      SplitAppend(xs[0], Join(tail, [sep]), isSep, sep);
      assert Join(xs, [sep]) == xs[0] + [sep] + Join(tail, [sep]);
      assert [xs[0]] + tail == xs;
    }
  }

  lemma {:induction false} SplitNoSep(s: string, isSep: char -> bool)
    requires forall i :: 0 <= i < |s| ==> !isSep(s[i])
    ensures Split(s, isSep) == [s]
  {
    if s != [] {
      SplitNoSep(s[1..], isSep);
      assert [s[0]] + s[1..] == s;
    }
  }

  /** Splitting `a + sep + b`, where `a` holds no separator. */
  lemma {:induction false} SplitAppend(a: string, b: string, isSep: char -> bool, sep: char)
    requires isSep(sep)
    requires forall i :: 0 <= i < |a| ==> !isSep(a[i])
    ensures Split(a + [sep] + b, isSep) == [a] + Split(b, isSep)
  {
    if a == [] {
      assert ([sep] + b)[1..] == b;
    } else {
      assert (a + [sep] + b)[1..] == a[1..] + [sep] + b;
      assert (a + [sep] + b)[0] == a[0];
      SplitAppend(a[1..], b, isSep, sep);
      var rest := Split(a[1..] + [sep] + b, isSep);
      assert rest[0] == a[1..] && rest[1..] == Split(b, isSep);
      assert [a[0]] + a[1..] == a;
    }
  }

  predicate NonEmpty(s: string) { s != "" }

  /** `s.split(re).map((x) => x.trim()).filter(Boolean)`. Splitting on runs of
      separators (`[,;]+`) or on single ones yields the same tokens, since the
      extra empty pieces are dropped by the filter. */
  function Tokens(s: string, isSep: char -> bool): seq<string>
  {
    Filter(Map(Split(s, isSep), Trim), NonEmpty)
  }

  /** A token: non-empty, already trimmed, free of separators. */
  predicate IsToken(t: string, isSep: char -> bool)
  {
    t != "" && Trim(t) == t && forall i :: 0 <= i < |t| ==> !isSep(t[i])
  }

  predicate NoSep(t: string, isSep: char -> bool)
  {
    forall i :: 0 <= i < |t| ==> !isSep(t[i])
  }

  /** A non-empty piece that trimming leaves alone is one of the tokens. */
  lemma CleanPieceIsToken(s: string, isSep: char -> bool, p: string)
    requires p in Split(s, isSep) && p != "" && Trim(p) == p
    ensures p in Tokens(s, isSep)
  {
    MapKeepsMember(Split(s, isSep), Trim, p);
  }

  /** Every token is non-empty, already trimmed and free of separators. */
  lemma TokensShape(s: string, isSep: char -> bool)
    ensures forall t :: t in Tokens(s, isSep) ==> IsToken(t, isSep)
  {
    var pieces := Split(s, isSep);
    assert forall k :: 0 <= k < |pieces| ==> NoSep(pieces[k], isSep);
    TrimmedPiecesShape(pieces, isSep);
  }

  lemma {:induction false} TrimmedPiecesShape(pieces: seq<string>, isSep: char -> bool)
    requires forall k :: 0 <= k < |pieces| ==> NoSep(pieces[k], isSep)
    ensures forall t :: t in Filter(Map(pieces, Trim), NonEmpty) ==> IsToken(t, isSep)
  {
    if pieces != [] {
      TrimmedPiecesShape(pieces[1..], isSep);
      assert Map(pieces, Trim) == [Trim(pieces[0])] + Map(pieces[1..], Trim);
      TrimPieceShape(pieces[0], isSep);
    }
  }

  lemma TrimPieceShape(p: string, isSep: char -> bool)
    requires NoSep(p, isSep)
    ensures Trim(p) != "" ==> IsToken(Trim(p), isSep)
  {
    var u := TrimStart(p);
    var t := TrimEnd(u);
    TrimStartSuffix(p);
    TrimEndPrefix(u);
    TrimIdempotent(p);
    forall i | 0 <= i < |t| ensures !isSep(t[i]) {
      assert t[i] == u[i] == p[|p| - |u| + i];
    }
  }

  /** Tokens come out in the order of the pieces they were cut from. */
  lemma TokensInOrder(s: string, isSep: char -> bool)
    ensures IsSubsequence(Tokens(s, isSep), Map(Split(s, isSep), Trim))
  {
    FilterIsSubsequence(Map(Split(s, isSep), Trim), NonEmpty);
  }

  /** Joining two non-empty lists puts one separator between their joins. */
  lemma {:induction false} JoinAppend(xs: seq<string>, ys: seq<string>, sep: string)
    requires xs != [] && ys != []
    ensures Join(xs + ys, sep) == Join(xs, sep) + sep + Join(ys, sep)
  {
    if |xs| == 1 {
      assert (xs + ys)[1..] == ys;
    } else {
      assert (xs + ys)[1..] == xs[1..] + ys;
      JoinAppend(xs[1..], ys, sep);
    }
  }

  /** Tokens are recovered from their join: splitting, trimming and
      dropping empties undoes joining on a separator. */
  lemma TokensOfJoin(xs: seq<string>, isSep: char -> bool, sep: char)
    requires isSep(sep)
    requires xs != []
    requires forall k :: 0 <= k < |xs| ==> IsToken(xs[k], isSep)
    ensures Tokens(Join(xs, [sep]), isSep) == xs
  {
    TokensHaveNoSep(xs, isSep);
    SplitJoinParts(xs, isSep, sep);
    TokensTrimmed(xs, isSep);
    FilterAll(xs, NonEmpty);
  }

  lemma TokensHaveNoSep(xs: seq<string>, isSep: char -> bool)
    requires forall k :: 0 <= k < |xs| ==> IsToken(xs[k], isSep)
    ensures forall k :: 0 <= k < |xs| ==> NoSep(xs[k], isSep)
  {
  }

  lemma TokensTrimmed(xs: seq<string>, isSep: char -> bool)
    requires forall k :: 0 <= k < |xs| ==> IsToken(xs[k], isSep)
    ensures Map(xs, Trim) == xs
    ensures forall x :: x in xs ==> NonEmpty(x)
  {
    var trimmed := Map(xs, Trim);
    assert forall k :: 0 <= k < |xs| ==> trimmed[k] == xs[k];
  }

  /** `hay.includes(needle)`. */
  predicate Contains(hay: string, needle: string)
  {
    needle <= hay || (hay != [] && Contains(hay[1..], needle))
  }

  lemma {:induction false} ContainsAt(hay: string, needle: string, i: nat)
    requires i + |needle| <= |hay| && hay[i..i + |needle|] == needle
    ensures Contains(hay, needle)
  {
    if i > 0 {
      assert hay[1..][i - 1..i - 1 + |needle|] == needle;
      ContainsAt(hay[1..], needle, i - 1);
    }
  }

  lemma ContainsConcat(a: string, needle: string, b: string)
    ensures Contains(a + needle + b, needle)
  {
    ContainsAt(a + needle + b, needle, |a|);
  }

  lemma ContainsPrefix(a: string, b: string)
    ensures Contains(a + b, a)
  {
    ContainsAt(a + b, a, 0);
  }

  lemma ContainsSuffix(a: string, b: string)
    ensures Contains(a + b, b)
  {
    ContainsAt(a + b, b, |a|);
  }

  /** `needle` occurs in `h` at position `i`. */
  /** `hay` ends with `suffix`. */
  predicate EndsWith(hay: string, suffix: string)
  {
    |suffix| <= |hay| && hay[|hay| - |suffix|..] == suffix
  }

  predicate OccursAt(h: string, needle: string, i: nat)
  {
    i + |needle| <= |h| && h[i..i + |needle|] == needle
  }

  /** A text found in `h` is found in anything built around `h`. */
  lemma ContainsWithin(x: string, h: string, y: string, needle: string)
    requires Contains(h, needle)
    ensures Contains(x + h + y, needle)
  {
    ContainsIndex(h, needle);
    var i: nat :| OccursAt(h, needle, i);
    assert (x + h + y)[|x| + i..|x| + i + |needle|] == h[i..i + |needle|];
    ContainsAt(x + h + y, needle, |x| + i);
  }

  lemma {:induction false} ContainsIndex(h: string, needle: string)
    requires Contains(h, needle)
    ensures exists i: nat :: OccursAt(h, needle, i)
  {
    if needle <= h {
      assert OccursAt(h, needle, 0);
    } else {
      ContainsIndex(h[1..], needle);
      var i: nat :| OccursAt(h[1..], needle, i);
      assert h[1..][i..i + |needle|] == h[i + 1..i + 1 + |needle|];
      assert OccursAt(h, needle, i + 1);
    }
  }

  /** Each part of a concatenation is found in it. */
  lemma {:induction false} ConcatContainsPart(parts: seq<string>, k: nat)
    requires k < |parts|
    ensures Contains(Concat(parts), parts[k])
  {
    if k == 0 {
      ContainsPrefix(parts[0], Concat(parts[1..]));
    } else {
      ConcatContainsPart(parts[1..], k - 1);
      ContainsWithin(parts[0], Concat(parts[1..]), "", parts[k]);
      assert parts[0] + Concat(parts[1..]) + "" == Concat(parts);
    }
  }

  /** A join contains each of its parts. */
  lemma {:induction false} JoinContainsEach(xs: seq<string>, sep: string, k: nat)
    requires k < |xs|
    ensures Contains(Join(xs, sep), xs[k])
    decreases |xs|
  {
    if |xs| == 1 {
      ContainsAt(xs[0], xs[0], 0);
    } else if k == 0 {
      ContainsPrefix(xs[0], sep + Join(xs[1..], sep));
      assert xs[0] + sep + Join(xs[1..], sep) == xs[0] + (sep + Join(xs[1..], sep));
    } else {
      JoinContainsEach(xs[1..], sep, k - 1);
      assert xs[1..][k - 1] == xs[k];
      ContainsWithin(xs[0] + sep, Join(xs[1..], sep), "", xs[k]);
      assert xs[0] + sep + Join(xs[1..], sep) + "" == Join(xs, sep);
    }
  }

  /** JavaScript's `a < b` on strings: lexicographic order. */
  predicate Less(a: string, b: string)
  {
    if a == [] then b != []
    else if b == [] then false
    else if a[0] != b[0] then a[0] < b[0]
    else Less(a[1..], b[1..])
  }

  lemma {:induction false} LessIrreflexive(a: string)
    ensures !Less(a, a)
  {
    if a != [] { LessIrreflexive(a[1..]); }
  }

  lemma {:induction false} LessTransitive(a: string, b: string, c: string)
    requires Less(a, b) && Less(b, c)
    ensures Less(a, c)
  {
    if a != [] && b != [] && c != [] && a[0] == b[0] && b[0] == c[0] {
      LessTransitive(a[1..], b[1..], c[1..]);
    }
  }

  lemma {:induction false} LessTotal(a: string, b: string)
    ensures a == b || Less(a, b) || Less(b, a)
  {
    if a != [] && b != [] && a[0] == b[0] {
      LessTotal(a[1..], b[1..]);
      if a[1..] == b[1..] {
        assert a == [a[0]] + a[1..] && b == [b[0]] + b[1..];
      }
    }
  }

  lemma {:induction false} LessAsymmetric(a: string, b: string)
    requires Less(a, b)
    ensures !Less(b, a)
  {
    if a != [] && b != [] && a[0] == b[0] {
      LessAsymmetric(a[1..], b[1..]);
    }
  }

  /** The decimal digit for `d`. */
  function DigitChar(d: nat): (c: char)
    requires d < 10
    ensures '0' <= c <= '9'
  {
    ['0', '1', '2', '3', '4', '5', '6', '7', '8', '9'][d]
  }

  predicate IsDigit(c: char) { '0' <= c <= '9' }

  /** `String(n)` for a non-negative integer. */
  function NatToString(n: nat): (r: string)
    ensures r != "" && forall i :: 0 <= i < |r| ==> IsDigit(r[i])
  {
    if n < 10 then [DigitChar(n)] else NatToString(n / 10) + [DigitChar(n % 10)]
  }

  /** The value of a string of decimal digits. */
  function ParseNat(s: string): nat
    requires forall i :: 0 <= i < |s| ==> IsDigit(s[i])
  {
    if s == [] then 0
    else
      assert IsDigit(s[|s| - 1]);
      ParseNat(s[..|s| - 1]) * 10 + (s[|s| - 1] as int - '0' as int)
  }

  /** The rendered count reads back as the count. */
  lemma {:induction false} NatToStringRoundTrip(n: nat)
    ensures ParseNat(NatToString(n)) == n
  {
    if n >= 10 {
      var s := NatToString(n);
      assert s[..|s| - 1] == NatToString(n / 10);
      NatToStringRoundTrip(n / 10);
    }
  }

  /** Distinct counts render differently. */
  lemma NatToStringInjective(m: nat, n: nat)
    requires NatToString(m) == NatToString(n)
    ensures m == n
  {
    NatToStringRoundTrip(m);
    NatToStringRoundTrip(n);
  }

  /** `s.replace(/\s+/g, " ")`: each run of whitespace becomes one space. */
  function CollapseSpaces(s: string): (r: string)
    decreases |s|
  {
    if s == [] then []
    else if IsSpace(s[0]) then
      [' '] + CollapseSpaces(TrimStart(s))
    else
      [s[0]] + CollapseSpaces(s[1..])
  }

  /** After the collapse no two whitespace characters are adjacent, every
      whitespace character left is a plain space, and the text starts with
      whitespace exactly when `s` does. */
  lemma {:induction false} CollapseSpacesShape(s: string)
    ensures var r := CollapseSpaces(s);
      && (forall i :: 0 <= i < |r| - 1 ==> !(IsSpace(r[i]) && IsSpace(r[i + 1])))
      && (forall i :: 0 <= i < |r| && IsSpace(r[i]) ==> r[i] == ' ')
      && (r != [] ==> s != [] && (IsSpace(r[0]) <==> IsSpace(s[0])))
    decreases |s|
  {
    if s != [] {
      var t := if IsSpace(s[0]) then TrimStart(s) else s[1..];
      if IsSpace(s[0]) {
        TrimStartShape(s);
      }
      CollapseSpacesShape(t);
      var rest := CollapseSpaces(t);
      var r := CollapseSpaces(s);
      assert r == [if IsSpace(s[0]) then ' ' else s[0]] + rest;
      forall i | 0 <= i < |r| - 1 ensures !(IsSpace(r[i]) && IsSpace(r[i + 1])) {
        if i > 0 {
          assert r[i] == rest[i - 1] && r[i + 1] == rest[i];
        }
      }
      forall i | 0 <= i < |r| && IsSpace(r[i]) ensures r[i] == ' ' {
        if i > 0 {
          assert r[i] == rest[i - 1];
        }
      }
    }
  }

  /** `s.replace(/\s+/g, " ").trim()`: the normalised text of a DOM node. */
  function NormalizeSpace(s: string): (r: string)
  {
    Trim(CollapseSpaces(s))
  }

  /** Normalised text has no whitespace at either end and never two
      whitespace characters in a row. */
  lemma NormalizeSpaceShape(s: string)
    ensures var r := NormalizeSpace(s);
      && (r != [] ==> !IsSpace(r[0]) && !IsSpace(r[|r| - 1]))
      && (forall i :: 0 <= i < |r| - 1 ==> !(IsSpace(r[i]) && IsSpace(r[i + 1])))
  {
    var c := CollapseSpaces(s);
    CollapseSpacesShape(s);
    TrimSpec(c);
    var r := Trim(c);
    var i, j :| 0 <= i <= j <= |c| && r == c[i..j];
    NoSpaceRunSlice(c, i, j);
  }

  /** A slice of a text without whitespace runs has none either. */
  lemma NoSpaceRunSlice(c: string, i: nat, j: nat)
    requires i <= j <= |c|
    requires forall k :: 0 <= k < |c| - 1 ==> !(IsSpace(c[k]) && IsSpace(c[k + 1]))
    ensures var r := c[i..j]; forall k :: 0 <= k < |r| - 1 ==> !(IsSpace(r[k]) && IsSpace(r[k + 1]))
  {
    var r := c[i..j];
    forall k | 0 <= k < |r| - 1 ensures !(IsSpace(r[k]) && IsSpace(r[k + 1])) {
      assert r[k] == c[i + k] && r[k + 1] == c[i + k + 1];
    }
  }
}
