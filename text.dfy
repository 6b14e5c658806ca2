/** String operations of JavaScript and Python that the components rely on,
    written over `seq<char>`. Case mapping covers ASCII letters only. */
module Text {

  /** Whitespace as JavaScript's `String.prototype.trim` strips it
      (WhiteSpace and LineTerminator of ECMAScript). */
  predicate IsJsSpace(c: char)
  {
    c == ' ' || c == '\t' || c == '\n' || c == '\r' || c == '\U{000B}' || c == '\U{000C}'
    || c == '\U{00A0}' || c == '\U{FEFF}' || c == '\U{1680}' || ('\U{2000}' <= c <= '\U{200A}')
    || c == '\U{2028}' || c == '\U{2029}' || c == '\U{202F}' || c == '\U{205F}' || c == '\U{3000}'
  }

  /** The ASCII whitespace that Python's `bytes.fromhex` skips between bytes. */
  predicate IsPyAsciiSpace(c: char)
  {
    c == ' ' || c == '\t' || c == '\n' || c == '\r' || c == '\U{000B}' || c == '\U{000C}'
  }

  /** The characters for which Python's `str.isspace` holds, which `str.strip` removes. */
  predicate IsPySpace(c: char)
  {
    ('\U{0009}' <= c <= '\U{000D}') || ('\U{001C}' <= c <= '\U{001F}') || c == ' '
    || c == '\U{0085}' || c == '\U{00A0}' || c == '\U{1680}' || ('\U{2000}' <= c <= '\U{200A}')
    || c == '\U{2028}' || c == '\U{2029}' || c == '\U{202F}' || c == '\U{205F}' || c == '\U{3000}'
  }

  function LowerChar(c: char): (r: char)
    ensures 'A' <= c <= 'Z' ==> r as int == c as int + 32
    ensures !('A' <= c <= 'Z') ==> r == c
  {
    if 'A' <= c <= 'Z' then (c as int + 32) as char else c
  }

  function UpperChar(c: char): (r: char)
    ensures 'a' <= c <= 'z' ==> r as int == c as int - 32
    ensures !('a' <= c <= 'z') ==> r == c
  {
    if 'a' <= c <= 'z' then (c as int - 32) as char else c
  }

  predicate IsAsciiLetter(c: char)
  {
    'a' <= c <= 'z' || 'A' <= c <= 'Z'
  }

  /** `s.toLowerCase()` / `s.lower()`. */
  function Lower(s: string): (r: string)
    ensures |r| == |s|
    ensures forall i :: 0 <= i < |s| ==> r[i] == LowerChar(s[i])
  {
    seq(|s|, i requires 0 <= i < |s| => LowerChar(s[i]))
  }

  predicate StartsWith(s: string, prefix: string)
  {
    |prefix| <= |s| && s[..|prefix|] == prefix
  }

  predicate EndsWith(s: string, suffix: string)
  {
    |suffix| <= |s| && s[|s| - |suffix|..] == suffix
  }

  /** `s.includes(sub)` / `sub in s`. */
  predicate Contains(s: string, sub: string)
  {
    exists i :: 0 <= i <= |s| && StartsWith(s[i..], sub)
  }

  /** Number of occurrences of the character `c` in `s`. */
  function CountChar(s: string, c: char): (n: nat)
    ensures n <= |s|
    ensures n == 0 <==> c !in s
  {
    if s == [] then 0
    else (if s[0] == c then 1 else 0) + CountChar(s[1..], c)
  }

  /** Whether `c` lies outside the Basic Multilingual Plane, so that UTF-16 writes it as
      a surrogate pair. */
  predicate Astral(c: char)
  {
    c as int > 0xFFFF
  }

  /** JavaScript's `s.length`: the number of UTF-16 code units, two for each character
      outside the Basic Multilingual Plane and one for every other. */
  function Utf16Length(s: string): (n: nat)
    ensures |s| <= n <= 2 * |s|
    ensures n == |s| <==> forall i :: 0 <= i < |s| ==> !Astral(s[i])
    ensures n == 2 * |s| <==> forall i :: 0 <= i < |s| ==> Astral(s[i])
  {
    if s == [] then 0
    else
      var n := (if Astral(s[0]) then 2 else 1) + Utf16Length(s[1..]);
      assert forall i :: 1 <= i < |s| ==> s[i] == s[1..][i - 1];
      n
  }

  /** The code units of two joined strings are those of each. */
  lemma {:induction false} Utf16LengthAppend(a: string, b: string)
    ensures Utf16Length(a + b) == Utf16Length(a) + Utf16Length(b)
  {
    if a == [] {
      assert a + b == b;
    } else {
      assert (a + b)[0] == a[0] && (a + b)[1..] == a[1..] + b;
      Utf16LengthAppend(a[1..], b);
    }
  }

  /** Position of the first `c` in `s`, or `|s|` when there is none. */
  function IndexOf(s: string, c: char): (i: nat)
    ensures i <= |s|
    ensures i < |s| ==> s[i] == c
    ensures c !in s[..i]
  {
    if s == [] then 0
    else if s[0] == c then 0
    else 1 + IndexOf(s[1..], c)
  }

  /** Python's `s.replace(a, b)` with one-character arguments: every occurrence. */
  function ReplaceAll(s: string, a: char, b: char): (r: string)
    ensures |r| == |s|
    ensures forall i :: 0 <= i < |s| ==> r[i] == (if s[i] == a then b else s[i])
  {
    seq(|s|, i requires 0 <= i < |s| => if s[i] == a then b else s[i])
  }

  /** JavaScript's `s.replace(a, b)` with a string pattern: the first occurrence only. */
  function ReplaceFirst(s: string, a: char, b: string): (r: string)
    ensures a !in s ==> r == s
    ensures a in s ==> r == s[..IndexOf(s, a)] + b + s[IndexOf(s, a) + 1..]
  {
    var i := IndexOf(s, a);
    if i == |s| then s else s[..i] + b + s[i + 1..]
  }

  /** `s.split(c)` (Python and JavaScript agree for a one-character separator). */
  function Split(s: string, c: char): (parts: seq<string>)
    ensures |parts| == CountChar(s, c) + 1
    ensures forall k :: 0 <= k < |parts| ==> c !in parts[k]
    decreases |s|
  {
    var i := IndexOf(s, c);
    if i == |s| then [s]
    else
      CountCharSplitAt(s, c, i);
      [s[..i]] + Split(s[i + 1..], c)
  }

  /** `c.join(parts)`. */
  function Join(parts: seq<string>, c: char): (s: string)
    ensures parts == [] ==> s == []
  {
    if parts == [] then []
    else if |parts| == 1 then parts[0]
    else parts[0] + [c] + Join(parts[1..], c)
  }

  /** Leading characters satisfying `space` removed. */
  function TrimStartBy(s: string, space: char -> bool): (r: string)
    ensures |r| <= |s| && r == s[|s| - |r|..]
    ensures r != [] ==> !space(r[0])
    ensures forall i :: 0 <= i < |s| - |r| ==> space(s[i])
  {
    if s != [] && space(s[0]) then TrimStartBy(s[1..], space) else s
  }

  /** Trailing characters satisfying `space` removed. */
  function TrimEndBy(s: string, space: char -> bool): (r: string)
    ensures |r| <= |s| && r == s[..|r|]
    ensures r != [] ==> !space(r[|r| - 1])
    ensures forall i :: |r| <= i < |s| ==> space(s[i])
  {
    if s != [] && space(s[|s| - 1]) then TrimEndBy(s[..|s| - 1], space) else s
  }

  /** JavaScript's `s.trimStart()`, which `parseInt` applies first. */
  function TrimStart(s: string): (r: string)
  {
    TrimStartBy(s, IsJsSpace)
  }

  /** JavaScript's `s.trim()`. */
  function Trim(s: string): (r: string)
  {
    TrimEndBy(TrimStartBy(s, IsJsSpace), IsJsSpace)
  }

  /** Python's `s.strip()`. */
  function PyStrip(s: string): (r: string)
  {
    TrimEndBy(TrimStartBy(s, IsPySpace), IsPySpace)
  }

  predicate IsDecimalDigit(c: char)
  {
    '0' <= c <= '9'
  }

  /** `str(n)` for a natural number: its decimal digits, without leading zeros. */
  function DecimalString(n: nat): (s: string)
    ensures s != [] && forall i :: 0 <= i < |s| ==> IsDecimalDigit(s[i])
    ensures |s| > 1 ==> s[0] != '0'
  {
    if n < 10 then [('0' as int + n) as char]
    else DecimalString(n / 10) + [('0' as int + n % 10) as char]
  }

  /** The number a string of decimal digits denotes. */
  function DecimalValue(s: string): nat
    requires forall i :: 0 <= i < |s| ==> IsDecimalDigit(s[i])
  {
    if s == [] then 0
    else
      assert IsDecimalDigit(s[|s| - 1]);
      DecimalValue(s[..|s| - 1]) * 10 + (s[|s| - 1] as int - '0' as int)
  }

  /** The concatenation of `f(x)` for every `x` of `xs`, in order. */
  function ConcatMap<T>(xs: seq<T>, f: T -> string): string
  {
    if xs == [] then [] else ConcatMap(xs[..|xs| - 1], f) + f(xs[|xs| - 1])
  }

  // ---------------------------------------------------------------- lemmas

  /** Reading back the decimal text of a number gives the number. */
  lemma {:induction false} DecimalRoundTrip(n: nat)
    ensures DecimalValue(DecimalString(n)) == n
  {
    if n >= 10 {
      DecimalRoundTrip(n / 10);
      var s := DecimalString(n);
      assert s[..|s| - 1] == DecimalString(n / 10);
    }
  }

  /** Joining pieces that do not contain the separator and splitting again gives back
      the pieces. */
  lemma {:induction false} SplitJoin(parts: seq<string>, c: char)
    requires parts != [] && forall k :: 0 <= k < |parts| ==> c !in parts[k]
    ensures Split(Join(parts, c), c) == parts
    decreases |parts|
  {
    if |parts| > 1 {
      var first, rest := parts[0], parts[1..];
      var tail := Join(rest, c);
      var s := Join(parts, c);
      assert parts == [first] + rest;
      JoinCons(first, rest, c, parts);
      Pieces(first, c, tail, s);
      IndexOfPrefix(first, c, [c] + tail);
      SplitUnfold(s, c);
      SplitJoin(rest, c);
    } else {
      assert IndexOf(parts[0], c) == |parts[0]|;
    }
  }

  /** Joining a first piece before at least one more. */
  lemma JoinCons(first: string, rest: seq<string>, c: char, parts: seq<string>)
    requires rest != [] && parts == [first] + rest
    ensures Join(parts, c) == first + [c] + Join(rest, c)
  {
    assert parts[0] == first && parts[1..] == rest;
  }

  /** The parts around a separator `x` placed between `a` and `b`. */
  lemma Pieces<T>(a: seq<T>, x: T, b: seq<T>, s: seq<T>)
    requires s == a + [x] + b
    ensures s == a + ([x] + b) && s[..|a|] == a && s[|a| + 1..] == b
  {
  }

  /** A sequence is its part before position `i`, the element at `i`, and the rest. */
  lemma Around<T>(s: seq<T>, i: nat)
    requires i < |s|
    ensures s == s[..i] + [s[i]] + s[i + 1..]
  {
  }

  lemma {:induction false} IndexOfPrefix(a: string, c: char, b: string)
    requires c !in a && b != [] && b[0] == c
    ensures IndexOf(a + b, c) == |a|
    decreases |a|
  {
    if a != [] {
      assert (a + b)[1..] == a[1..] + b;
      IndexOfPrefix(a[1..], c, b);
    }
  }

  /** The first `c` of `a + b` is the first of `a` when `a` has one, else the first of `b`. */
  lemma {:induction false} IndexOfAppend(a: string, b: string, c: char)
    ensures IndexOf(a + b, c) == if c in a then IndexOf(a, c) else |a| + IndexOf(b, c)
    decreases |a|
  {
    if a != [] {
      assert (a + b)[1..] == a[1..] + b;
      assert (a + b)[0] == a[0];
      assert c in a <==> a[0] == c || c in a[1..] by {
        assert a == [a[0]] + a[1..];
      }
      if a[0] != c {
        IndexOfAppend(a[1..], b, c);
      }
    } else {
      assert a + b == b;
    }
  }

  /** The first piece of `s.split(c)` is what precedes the first `c`. */
  lemma FirstPiece(s: string, c: char)
    ensures Split(s, c)[0] == s[..IndexOf(s, c)]
  {
  }

  lemma ConcatMapSingle<T>(x: T, f: T -> string)
    ensures ConcatMap([x], f) == f(x)
  {
    assert [x][..0] == [];
    assert [] + f(x) == f(x);
  }

  lemma ConcatMapSnoc<T>(xs: seq<T>, x: T, f: T -> string)
    ensures ConcatMap(xs + [x], f) == ConcatMap(xs, f) + f(x)
  {
    assert (xs + [x])[..|xs|] == xs;
  }

  lemma {:induction false} ConcatMapAppend<T>(xs: seq<T>, ys: seq<T>, f: T -> string)
    ensures ConcatMap(xs + ys, f) == ConcatMap(xs, f) + ConcatMap(ys, f)
    decreases |ys|
  {
    if ys == [] {
      assert xs + ys == xs;
    } else {
      var init, last := ys[..|ys| - 1], ys[|ys| - 1];
      var zs := xs + ys;
      assert zs[..|zs| - 1] == xs + init && zs[|zs| - 1] == last;
      ConcatMapAppend(xs, init, f);
      AssocStep(ConcatMap(zs, f), ConcatMap(xs + init, f), ConcatMap(xs, f), ConcatMap(init, f), f(last), ConcatMap(ys, f));
    }
  }

  /** `w == (a + i) + l` and `y == i + l` give `w == a + y`. */
  lemma AssocStep<T>(w: seq<T>, ai: seq<T>, a: seq<T>, i: seq<T>, l: seq<T>, y: seq<T>)
    requires w == ai + l && ai == a + i && y == i + l
    ensures w == a + y
  {
    assert (a + i) + l == a + (i + l);
  }

  lemma {:induction false} CountCharSplitAt(s: string, c: char, i: nat)
    requires i < |s| && s[i] == c && c !in s[..i]
    ensures CountChar(s, c) == 1 + CountChar(s[i + 1..], c)
    decreases i
  {
    if i > 0 {
      assert s[0] != c by { assert s[0] == s[..i][0]; }
      assert s[1..][..i - 1] == s[..i][1..];
      CountCharSplitAt(s[1..], c, i - 1);
      assert s[1..][i..] == s[i + 1..];
    }
  }

  /** Splitting and joining again gives back the string. */
  lemma {:induction false} JoinSplit(s: string, c: char)
    ensures Join(Split(s, c), c) == s
    decreases |s|
  {
    var i := IndexOf(s, c);
    if i < |s| {
      var rest := Split(s[i + 1..], c);
      JoinSplit(s[i + 1..], c);
      SplitUnfold(s, c);
      JoinCons(s[..i], rest, c, Split(s, c));
      Around(s, i);
    }
  }

  /** `p` ends `s`, and unless it is all of `s` it follows a `c`. */
  predicate EndsAfter(s: string, p: string, c: char)
  {
    |p| <= |s| && s[|s| - |p|..] == p && (|p| < |s| ==> s[|s| - |p| - 1] == c)
  }

  /** The last piece of `s.split(c)` ends `s`, and unless it is all of `s` it follows a `c`. */
  lemma {:induction false} LastPiece(s: string, c: char)
    ensures EndsAfter(s, Split(s, c)[|Split(s, c)| - 1], c)
    decreases |s|
  {
    var i := IndexOf(s, c);
    if i == |s| {
      LastPieceWhole(s, c);
    } else {
      var rest := Split(s[i + 1..], c);
      LastPiece(s[i + 1..], c);
      SplitUnfold(s, c);
      LastPieceStep(s, c, i, rest, Split(s, c));
    }
  }

  lemma LastPieceWhole(s: string, c: char)
    requires IndexOf(s, c) == |s|
    ensures EndsAfter(s, Split(s, c)[|Split(s, c)| - 1], c)
  {
    assert Split(s, c) == [s];
    assert s[|s| - |s|..] == s;
  }

  /** The step of `LastPiece`, on the pieces as plain values. */
  lemma LastPieceStep(s: string, c: char, i: nat, rest: seq<string>, parts: seq<string>)
    requires i < |s| && s[i] == c && rest != [] && parts == [s[..i]] + rest
    requires EndsAfter(s[i + 1..], rest[|rest| - 1], c)
    ensures EndsAfter(s, parts[|parts| - 1], c)
  {
    LastOfCons(s[..i], rest, parts);
    SuffixStep(s, c, i, rest[|rest| - 1]);
  }

  lemma LastOfCons<T>(x: T, rest: seq<T>, parts: seq<T>)
    requires parts == [x] + rest && rest != []
    ensures |parts| > 0 && parts[|parts| - 1] == rest[|rest| - 1]
  {
  }

  lemma SuffixStep(s: string, c: char, i: nat, p: string)
    requires i < |s| && s[i] == c && EndsAfter(s[i + 1..], p, c)
    ensures EndsAfter(s, p, c)
  {
    var tail := s[i + 1..];
    assert s[|s| - |p|..] == tail[|tail| - |p|..];
    if |p| == |tail| {
      assert s[|s| - |p| - 1] == s[i];
    } else {
      assert s[|s| - |p| - 1] == tail[|tail| - |p| - 1];
    }
  }

  lemma SplitUnfold(s: string, c: char)
    requires IndexOf(s, c) < |s|
    ensures Split(s, c) == [s[..IndexOf(s, c)]] + Split(s[IndexOf(s, c) + 1..], c)
  {
  }

  lemma LastOfAppend<T>(a: seq<T>, b: seq<T>)
    requires b != []
    ensures (a + b)[|a + b| - 1] == b[|b| - 1]
  {
  }

  /** A string has no occurrence of `sub` when no place where one could start holds the
      first character of `sub`. */
  lemma NotContains(s: string, sub: string)
    requires sub != [] && forall i :: 0 <= i < |s| && i + |sub| <= |s| ==> s[i] != sub[0]
    ensures !Contains(s, sub)
  {
    forall i | 0 <= i <= |s|
      ensures !StartsWith(s[i..], sub)
    {
      if i + |sub| <= |s| {
        assert s[i..][0] == s[i];
      }
    }
  }

  /** The same for the first two characters of `sub`: no place where an occurrence could
      start holds both. */
  lemma NotContainsPair(s: string, sub: string)
    requires |sub| >= 2
    requires forall i :: 0 <= i < |s| - 1 && i + |sub| <= |s| ==> s[i] != sub[0] || s[i + 1] != sub[1]
    ensures !Contains(s, sub)
  {
    forall i | 0 <= i <= |s|
      ensures !StartsWith(s[i..], sub)
    {
      if i + |sub| <= |s| {
        assert s[i..][0] == s[i] && s[i..][1] == s[i + 1];
      }
    }
  }

  /** A string trims to the empty string exactly when every character is whitespace. */
  lemma TrimEmptyIffAllSpace(s: string, space: char -> bool)
    ensures TrimEndBy(TrimStartBy(s, space), space) == [] <==> forall i :: 0 <= i < |s| ==> space(s[i])
  {
    var t := TrimStartBy(s, space);
    if TrimEndBy(t, space) == [] {
      forall i | 0 <= i < |s| ensures space(s[i]) {
        if i >= |s| - |t| {
          assert t[i - (|s| - |t|)] == s[i];
        }
      }
    } else {
      var r := TrimEndBy(t, space);
      assert r[0] == t[0];
      assert t[0] == s[|s| - |t|];
    }
  }

  /** What is left after trimming neither begins nor ends with a space. */
  lemma TrimmedEnds(s: string, space: char -> bool)
    ensures var r := TrimEndBy(TrimStartBy(s, space), space);
      r != [] ==> !space(r[0]) && !space(r[|r| - 1])
  {
    var t := TrimStartBy(s, space);
    var r := TrimEndBy(t, space);
    if r != [] {
      assert r[0] == t[0];
    }
  }
}
