/**
 * The string operations of JavaScript's `String.prototype` (and the matching
 * ones of Python's `str`) that the app relies on: trimming, substring search,
 * first-occurrence and all-occurrence replacement, split and join, ASCII case
 * folding, digit filtering, `parseInt` and number formatting.
 */
module Strings {
  import opened Wrappers

  /** White space as `String.prototype.trim` and `parseInt` skip it
      (the WhiteSpace and LineTerminator characters of ECMA-262). */
  predicate IsSpace(c: char) {
    c == ' ' || c == '\t' || c == '\n' || c == '\r' || c == '\U{000B}' || c == '\U{000C}'
    || c == '\U{00A0}' || c == '\U{1680}' || ('\U{2000}' <= c <= '\U{200A}')
    || c == '\U{2028}' || c == '\U{2029}' || c == '\U{202F}' || c == '\U{205F}'
    || c == '\U{3000}' || c == '\U{FEFF}'
  }

  /** Every character is white space: exactly the strings whose `trim()` is falsy. */
  predicate IsBlank(s: string) {
    forall i :: 0 <= i < |s| ==> IsSpace(s[i])
  }

  function TrimStart(s: string): (r: string)
    ensures |r| <= |s| && r == s[|s| - |r|..]
    ensures IsBlank(s[..|s| - |r|])
    ensures r == [] || !IsSpace(r[0])
  {
    if s != [] && IsSpace(s[0]) then
      var r := TrimStart(s[1..]);
      assert s[..|s| - |r|] == [s[0]] + s[1..][..|s| - 1 - |r|];
      r
    else s
  }

  function TrimEnd(s: string): (r: string)
    ensures |r| <= |s| && r == s[..|r|]
    ensures IsBlank(s[|r|..])
    ensures r == [] || !IsSpace(r[|r| - 1])
  {
    if s != [] && IsSpace(s[|s| - 1]) then
      var r := TrimEnd(s[..|s| - 1]);
      assert s[|r|..] == s[..|s| - 1][|r|..] + [s[|s| - 1]];
      r
    else s
  }

  lemma TrimStartBlank(s: string)
    ensures IsBlank(TrimStart(s)) <==> IsBlank(s)
  {
    var t := TrimStart(s);
    if IsBlank(t) {
      assert t == [];
      assert s[..|s| - |t|] == s;
    }
  }

  lemma TrimEndEmpty(t: string)
    ensures TrimEnd(t) == [] <==> IsBlank(t)
  {
    var r := TrimEnd(t);
    if r == [] {
      assert t[|r|..] == t;
    } else {
      assert t[|r| - 1] == r[|r| - 1];
    }
  }

  /** `s.trim()`: empty exactly for blank strings, otherwise it starts and ends
      with a non-space character. */
  function Trim(s: string): (r: string)
    ensures r == [] <==> IsBlank(s)
    ensures r == [] || (!IsSpace(r[0]) && !IsSpace(r[|r| - 1]))
    ensures |r| <= |s|
  {
    var t := TrimStart(s);
    TrimStartBlank(s);
    TrimEndEmpty(t);
    var r := TrimEnd(t);
    assert r != [] ==> r[0] == t[0];
    r
  }

  /** A string that neither starts nor ends with white space is its own trim. */
  lemma TrimUnchanged(s: string)
    requires s == [] || (!IsSpace(s[0]) && !IsSpace(s[|s| - 1]))
    ensures Trim(s) == s
  {
    assert TrimStart(s) == s;
  }

  /** `s` has `p` starting at index `i`. */
  predicate OccursAt(s: string, p: string, i: int) {
    0 <= i && i + |p| <= |s| && s[i..i + |p|] == p
  }

  function IndexFrom(s: string, p: string, from: nat): (r: Option<nat>)
    requires from <= |s|
    ensures r.Some? ==> from <= r.value && OccursAt(s, p, r.value)
    ensures r.Some? ==> forall j :: from <= j < r.value ==> !OccursAt(s, p, j)
    ensures r.None? ==> forall j :: from <= j ==> !OccursAt(s, p, j)
    decreases |s| - from
  {
    if OccursAt(s, p, from) then Some(from)
    else if from == |s| then None
    else IndexFrom(s, p, from + 1)
  }

  /** `s.indexOf(p)` / `s.find(p)`: the first index at which `p` occurs. */
  function IndexOf(s: string, p: string): (r: Option<nat>)
    ensures r.Some? ==> OccursAt(s, p, r.value) && forall j :: 0 <= j < r.value ==> !OccursAt(s, p, j)
    ensures r.None? ==> forall j :: !OccursAt(s, p, j)
  {
    IndexFrom(s, p, 0)
  }

  /** The first occurrence found by `IndexOf` is the one no earlier
      position matches. */
  lemma IndexOfAt(s: string, p: string, i: nat)
    requires OccursAt(s, p, i) && forall j :: 0 <= j < i ==> !OccursAt(s, p, j)
    ensures IndexOf(s, p) == Some(i)
  {
  }

  /** `s.includes(p)` / Python's `p in s`. */
  predicate Contains(s: string, p: string) {
    IndexOf(s, p).Some?
  }

  lemma ContainsAt(s: string, p: string, i: int)
    requires OccursAt(s, p, i)
    ensures Contains(s, p)
  {
  }

  /** What the tail of a string contains, the string contains. */
  lemma ContainsTail(s: string, p: string)
    requires s != []
    ensures Contains(s[1..], p) ==> Contains(s, p)
  {
    if Contains(s[1..], p) {
      var j := IndexOf(s[1..], p).value;
      assert s[1 + j..1 + j + |p|] == s[1..][j..j + |p|];
      ContainsAt(s, p, 1 + j);
    }
  }

  /** An occurrence inside a slice is an occurrence in the whole string. */
  lemma OccursInSlice(s: string, p: string, a: nat, b: nat, j: int)
    requires a <= b <= |s| && OccursAt(s[a..b], p, j)
    ensures OccursAt(s, p, a + j)
  {
    forall k | 0 <= k < |p| ensures s[a + j + k] == p[k] {
      assert s[a..b][j..j + |p|][k] == p[k];
    }
  }

  /** The first occurrence of `p` spliced out for `v` taken literally (an
      empty pattern inserts `v` at the front). JavaScript's `replace` is
      `ReplaceFirstPattern`, which agrees with this for a `v` without `$`. */
  function ReplaceFirst(s: string, p: string, v: string): (r: string)
    ensures !Contains(s, p) ==> r == s
    ensures Contains(s, p) ==>
      var i := IndexOf(s, p).value; r == s[..i] + v + s[i + |p|..]
  {
    match IndexOf(s, p)
    case None => s
    case Some(i) => s[..i] + v + s[i + |p|..]
  }

  /** The replacement text JavaScript builds from `v` for one match of a
      string pattern (GetSubstitution, section 22.1.3.19.1 of ECMA-262):
      `$$` is `$`, `$&` the matched text, `` $` `` the text before the match,
      `$'` the text after it; there are no capture groups, so any other `$`
      stays as it is. */
  function Substitution(v: string, matched: string, before: string, after: string): (r: string)
    decreases |v|
  {
    if |v| >= 2 && v[0] == '$' && v[1] in "$&`'" then
      (if v[1] == '$' then "$" else if v[1] == '&' then matched else if v[1] == '`' then before else after)
      + Substitution(v[2..], matched, before, after)
    else if v == [] then []
    else [v[0]] + Substitution(v[1..], matched, before, after)
  }

  /** Text without `$` is its own replacement text. */
  lemma {:induction false} SubstitutionLiteral(v: string, matched: string, before: string, after: string)
    ensures '$' !in v ==> Substitution(v, matched, before, after) == v
    decreases |v|
  {
    if v != [] && '$' !in v {
      assert forall c :: c in v[1..] ==> c in v;
      SubstitutionLiteral(v[1..], matched, before, after);
    }
  }

  /** JavaScript `s.replace(p, v)` with a string pattern and a string `v`:
      only the first occurrence is replaced, by `v`'s replacement text. */
  function ReplaceFirstPattern(s: string, p: string, v: string): (r: string)
    ensures !Contains(s, p) ==> r == s
    ensures Contains(s, p) ==>
      var i := IndexOf(s, p).value;
      r == s[..i] + Substitution(v, p, s[..i], s[i + |p|..]) + s[i + |p|..]
    ensures '$' !in v ==> r == ReplaceFirst(s, p, v)
  {
    match IndexOf(s, p)
    case None => s
    case Some(i) =>
      SubstitutionLiteral(v, p, s[..i], s[i + |p|..]);
      s[..i] + Substitution(v, p, s[..i], s[i + |p|..]) + s[i + |p|..]
  }

  /** `$&` puts the match back: replacing with it changes nothing. */
  lemma ReplaceWithMatch(s: string, p: string)
    ensures ReplaceFirstPattern(s, p, "$&") == s
  {
    if Contains(s, p) {
      var i := IndexOf(s, p).value;
      var rest := s[i + |p|..];
      assert "$&"[2..] == [];
      assert Substitution("$&", p, s[..i], rest) == p;
      assert s == s[..i] + s[i..i + |p|] + rest;
    }
  }

  /** `$$` stands for one `$`. */
  lemma ReplaceWithDollars(s: string, p: string)
    ensures ReplaceFirstPattern(s, p, "$$") == ReplaceFirst(s, p, "$")
  {
    if Contains(s, p) {
      var i := IndexOf(s, p).value;
      assert "$$"[2..] == [];
      assert Substitution("$$", p, s[..i], s[i + |p|..]) == "$";
    }
  }

  /** `s.split(sep)` for a non-empty separator, in JavaScript and in Python
      alike: cut at the occurrences found by scanning from the left. */
  function Split(s: string, sep: string): (r: seq<string>)
    requires |sep| > 0
    ensures |r| >= 1
    decreases |s|
  {
    match IndexOf(s, sep)
    case None => [s]
    case Some(i) => [s[..i]] + Split(s[i + |sep|..], sep)
  }

  /** `parts.join(sep)`. */
  function Join(parts: seq<string>, sep: string): string
    decreases |parts|
  {
    if |parts| == 0 then ""
    else if |parts| == 1 then parts[0]
    else parts[0] + sep + Join(parts[1..], sep)
  }

  /** With a non-empty separator, a join is empty exactly when there is no
      part or one empty part. */
  lemma JoinEmpty(parts: seq<string>, sep: string)
    requires sep != ""
    ensures Join(parts, sep) == "" <==> parts == [] || parts == [""]
  {
    if |parts| >= 2 {
      assert |Join(parts, sep)| >= |sep|;
    }
  }

  /** Two parts are joined around one separator. */
  lemma JoinPair(a: string, b: string, sep: string)
    ensures Join([a, b], sep) == a + sep + b
  {
    assert [a, b][1..] == [b];
  }

  /** Splitting and joining with the same separator gives the string back. */
  lemma {:induction false} JoinSplit(s: string, sep: string)
    requires |sep| > 0
    ensures Join(Split(s, sep), sep) == s
    decreases |s|
  {
    match IndexOf(s, sep)
    case None =>
    case Some(i) =>
      var rest := s[i + |sep|..];
      var parts := Split(rest, sep);
      JoinSplit(rest, sep);
      var all := [s[..i]] + parts;
      assert Split(s, sep) == all;
      assert all[1..] == parts;
      assert Join(all, sep) == s[..i] + sep + Join(parts, sep);
      assert s[i..i + |sep|] == sep;
      assert s == s[..i] + s[i..i + |sep|] + rest;
  }

  /** A string in which `[c]` does not occur has no `c`. */
  lemma NotContainsChar(s: string, c: char)
    ensures !Contains(s, [c]) ==> c !in s
  {
    if c in s {
      var j :| 0 <= j < |s| && s[j] == c;
      assert s[j..j + 1] == [c];
      ContainsAt(s, [c], j);
    }
  }

  /** A string without the one-character separator splits into itself. */
  lemma SplitWithoutSeparator(s: string, c: char)
    ensures c !in s ==> Split(s, [c]) == [s]
  {
    if c !in s {
      forall j ensures !OccursAt(s, [c], j) {
        if 0 <= j && j + 1 <= |s| {
          assert s[j..j + 1] == [s[j]];
        }
      }
    }
  }

  /** The last piece of a split on one character is what follows the last
      occurrence of that character, however many come before it. */
  lemma {:induction false} SplitLastPiece(a: string, c: char, b: string)
    requires c !in b
    ensures var parts := Split(a + [c] + b, [c]);
      parts[|parts| - 1] == b
    decreases |a|
  {
    var s := a + [c] + b;
    assert s[|a|..|a| + 1] == [c];
    assert OccursAt(s, [c], |a|);
    var i := IndexOf(s, [c]).value;
    var rest := s[i + 1..];
    assert Split(s, [c]) == [s[..i]] + Split(rest, [c]);
    if i == |a| {
      assert rest == b;
      SplitWithoutSeparator(b, c);
    } else {
      assert rest == a[i + 1..] + [c] + b;
      SplitLastPiece(a[i + 1..], c, b);
    }
  }

  /** No piece of a split contains the separator. */
  lemma {:induction false} SplitPiecesFree(s: string, sep: string)
    requires |sep| > 0
    ensures forall k :: 0 <= k < |Split(s, sep)| ==> !Contains(Split(s, sep)[k], sep)
    decreases |s|
  {
    match IndexOf(s, sep)
    case None =>
    case Some(i) =>
      var rest := s[i + |sep|..];
      SplitPiecesFree(rest, sep);
      if Contains(s[..i], sep) {
        var j := IndexOf(s[..i], sep).value;
        OccursInSlice(s, sep, 0, i, j);
        assert false;
      }
      assert Split(s, sep) == [s[..i]] + Split(rest, sep);
  }

  /** Python's `s.replace(target, replacement)`: every non-overlapping occurrence, found
      left to right, is replaced. */
  function ReplaceAll(s: string, target: string, replacement: string): (r: string)
    requires |target| > 0
    ensures !Contains(s, target) ==> r == s
  {
    Join(Split(s, target), replacement)
  }

  /** Replace-all cuts `s` into pieces free of `target` (which rebuild `s` when
      joined with `target`) and joins the same pieces with `replacement`. */
  lemma ReplaceAllPieces(s: string, target: string, replacement: string)
    requires |target| > 0
    ensures var pieces := Split(s, target);
      Join(pieces, target) == s && ReplaceAll(s, target, replacement) == Join(pieces, replacement)
      && forall k :: 0 <= k < |pieces| ==> !Contains(pieces[k], target)
  {
    JoinSplit(s, target);
    SplitPiecesFree(s, target);
  }

  /** The parts that are not the empty string (`filter(Boolean)` on strings). */
  function NonEmpty(parts: seq<string>): (r: seq<string>)
    ensures |r| <= |parts|
    ensures forall k :: 0 <= k < |r| ==> r[k] != ""
    ensures forall p :: p in r <==> p in parts && p != ""
    ensures (forall k :: 0 <= k < |parts| ==> parts[k] != "") ==> r == parts
  {
    if parts == [] then []
    else (if parts[0] == "" then [] else [parts[0]]) + NonEmpty(parts[1..])
  }

  /** Joining only non-empty parts gives the empty string exactly when there
      was no non-empty part. */
  lemma {:induction false} JoinNonEmptyEmpty(parts: seq<string>, sep: string)
    ensures Join(NonEmpty(parts), sep) == "" <==> forall k :: 0 <= k < |parts| ==> parts[k] == ""
    decreases |parts|
  {
    if parts != [] {
      JoinNonEmptyEmpty(parts[1..], sep);
      var r := NonEmpty(parts);
      if parts[0] != "" {
        assert r[0] == parts[0];
        assert |r| == 1 || Join(r, sep) == r[0] + sep + Join(r[1..], sep);
      } else {
        assert r == NonEmpty(parts[1..]);
      }
    }
  }

  function LowerChar(c: char): char {
    if 'A' <= c <= 'Z' then (c as int + 32) as char else c
  }

  /** `s.toLowerCase()` on the ASCII letters. */
  function ToLower(s: string): (r: string)
    ensures |r| == |s|
    ensures forall i :: 0 <= i < |s| ==> r[i] == LowerChar(s[i])
  {
    seq(|s|, i requires 0 <= i < |s| => LowerChar(s[i]))
  }

  predicate IsDigit(c: char) {
    '0' <= c <= '9'
  }

  predicate AllDigits(s: string) {
    forall i :: 0 <= i < |s| ==> IsDigit(s[i])
  }

  /** `s.replace(/[^0-9]/g, '')`: the digits of `s`, in order. */
  function DigitsOf(s: string): (r: string)
    ensures AllDigits(r) && |r| <= |s|
    ensures AllDigits(s) ==> r == s
    ensures forall c :: c in r <==> c in s && IsDigit(c)
  {
    if s == [] then []
    else (if IsDigit(s[0]) then [s[0]] else []) + DigitsOf(s[1..])
  }

  function DigitValue(c: char): nat
    requires IsDigit(c)
  {
    c as int - '0' as int
  }

  function DigitChar(d: nat): (c: char)
    requires d < 10
    ensures IsDigit(c) && DigitValue(c) == d
  {
    ('0' as int + d) as char
  }

  /** The number written by a string of decimal digits. */
  function DigitsValue(s: string): nat
    requires AllDigits(s)
  {
    if s == [] then 0 else DigitsValue(s[..|s| - 1]) * 10 + DigitValue(s[|s| - 1])
  }

  /** How many decimal digits `s` starts with. */
  function LeadingDigits(s: string): (k: nat)
    ensures k <= |s| && AllDigits(s[..k]) && (k < |s| ==> !IsDigit(s[k]))
  {
    if s != [] && IsDigit(s[0]) then
      var k := 1 + LeadingDigits(s[1..]);
      assert s[..k] == [s[0]] + s[1..][..k - 1];
      k
    else 0
  }

  /** JavaScript `parseInt(s, 10)`: leading white space, an optional sign and
      the longest run of digits; `None` stands for `NaN`. */
  function ParseInt(s: string): Option<int> {
    var t := TrimStart(s);
    DecimalTail(AfterSign(t), t != [] && t[0] == '-')
  }

  /** The decimal digits `u` starts with, negated when `negative`; `None`
      when there are none. */
  function DecimalTail(u: string, negative: bool): (r: Option<int>)
    ensures r.None? <==> LeadingDigits(u) == 0
  {
    var k := LeadingDigits(u);
    if k == 0 then None else Some(Signed(DigitsValue(u[..k]), negative))
  }

  /** A magnitude with its sign applied. */
  function Signed(v: int, negative: bool): int {
    if negative then -v else v
  }

  /** A run of digits followed by no further digit is read whole. */
  lemma DecimalTailThen(d: string, rest: string)
    requires |d| > 0 && AllDigits(d)
    requires rest == [] || !IsDigit(rest[0])
    ensures DecimalTail(d + rest, false) == Some(DigitsValue(d))
    ensures DecimalTail(d + rest, true) == Some(0 - DigitsValue(d))
  {
    var m := d + rest;
    LeadingDigitsThen(d, rest);
    assert m[..|d|] == d;
    DecimalTailOf(m, d, false);
    DecimalTailOf(m, d, true);
  }

  lemma DecimalTailOf(u: string, d: string, negative: bool)
    requires 0 < |d| <= |u| && AllDigits(d)
    requires LeadingDigits(u) == |d| && u[..|d|] == d
    ensures DecimalTail(u, negative) == Some(Signed(DigitsValue(d), negative))
  {
  }

  /** A string that starts with anything but white space, a sign or a
      digit reads as `NaN`. */
  lemma ParseIntNonNumeric(s: string)
    requires s != [] && !IsSpace(s[0]) && !IsDigit(s[0]) && s[0] != '-' && s[0] != '+'
    ensures ParseInt(s) == None
  {
    PlainStart(s);
    assert LeadingDigits(s) == 0;
  }

  /** The decimal form of a natural number. */
  function NatToString(n: nat): (r: string)
    ensures |r| > 0 && AllDigits(r)
  {
    if n < 10 then [DigitChar(n)] else NatToString(n / 10) + [DigitChar(n % 10)]
  }

  /** `String(n)` for an integer. */
  function IntToString(n: int): string {
    if n < 0 then "-" + NatToString(-n) else NatToString(n)
  }

  lemma {:induction false} NatToStringValue(n: nat)
    ensures DigitsValue(NatToString(n)) == n
    decreases n
  {
    if n >= 10 {
      NatToStringValue(n / 10);
      var r := NatToString(n);
      assert r[..|r| - 1] == NatToString(n / 10);
    }
  }

  lemma {:induction false} LeadingDigitsAll(d: string)
    requires AllDigits(d)
    ensures LeadingDigits(d) == |d|
  {
    if d != [] { LeadingDigitsAll(d[1..]); }
  }

  /** A string of digits is read whole. */
  lemma ParseDigits(d: string)
    requires |d| > 0 && AllDigits(d)
    ensures ParseInt(d) == Some(DigitsValue(d))
  {
    ParseDigitsThen(d, []);
    assert d + [] == d;
  }

  /** A minus sign followed by digits is read as the negated number. */
  lemma ParseNegatedDigits(d: string)
    requires |d| > 0 && AllDigits(d)
    ensures ParseInt("-" + d) == Some(0 - DigitsValue(d))
  {
    MinusStart(d);
    assert ParseInt("-" + d) == DecimalTail(d, true);
    DecimalTailThen(d, []);
    assert d + [] == d;
  }

  /** `parseInt` reads back what `String` wrote: the two are inverse on integers. */
  lemma ParseIntOfIntToString(n: int)
    ensures ParseInt(IntToString(n)) == Some(n)
  {
    var m: nat := if n < 0 then -n else n;
    NatToStringValue(m);
    if n < 0 {
      ParseNegatedDigits(NatToString(m));
    } else {
      ParseDigits(NatToString(m));
    }
  }

  /** The text after an optional leading sign. */
  function AfterSign(t: string): (r: string)
    ensures |r| <= |t| && r == t[|t| - |r|..]
  {
    if t != [] && (t[0] == '-' || t[0] == '+') then t[1..] else t
  }

  /** After white space and the sign, `s` starts with `0x` or `0X`. */
  predicate HasHexPrefix(s: string) {
    var u := AfterSign(TrimStart(s));
    |u| >= 2 && u[0] == '0' && (u[1] == 'x' || u[1] == 'X')
  }

  predicate IsHexDigit(c: char) {
    IsDigit(c) || 'a' <= c <= 'f' || 'A' <= c <= 'F'
  }

  predicate AllHex(s: string) {
    forall i :: 0 <= i < |s| ==> IsHexDigit(s[i])
  }

  function HexDigitValue(c: char): (v: nat)
    requires IsHexDigit(c)
    ensures v < 16
  {
    if IsDigit(c) then DigitValue(c)
    else if 'a' <= c <= 'f' then c as int - 'a' as int + 10
    else c as int - 'A' as int + 10
  }

  /** The number written by a string of hexadecimal digits. */
  function HexValue(s: string): nat
    requires AllHex(s)
  {
    if s == [] then 0 else HexValue(s[..|s| - 1]) * 16 + HexDigitValue(s[|s| - 1])
  }

  /** How many hexadecimal digits `s` starts with. */
  function LeadingHexDigits(s: string): (k: nat)
    ensures k <= |s| && AllHex(s[..k]) && (k < |s| ==> !IsHexDigit(s[k]))
  {
    if s != [] && IsHexDigit(s[0]) then
      var k := 1 + LeadingHexDigits(s[1..]);
      assert s[..k] == [s[0]] + s[1..][..k - 1];
      k
    else 0
  }

  /** JavaScript `parseInt(s)` with no radix (section 19.2.5 of ECMA-262):
      as `parseInt(s, 10)`, except that a `0x` or `0X` after the sign selects
      base 16 and is skipped; with no hexadecimal digit after it the result
      is `NaN` (`None`). */
  function ParseIntAuto(s: string): (r: Option<int>)
    ensures !HasHexPrefix(s) ==> r == ParseInt(s)
    ensures HasHexPrefix(s) ==> (r.None? <==> LeadingHexDigits(AfterSign(TrimStart(s))[2..]) == 0)
  {
    if !HasHexPrefix(s) then ParseInt(s)
    else
      var t := TrimStart(s);
      HexTail(AfterSign(t)[2..], t[0] == '-')
  }

  /** The hexadecimal digits `h` starts with, negated when `negative`;
      `None` when there are none. */
  function HexTail(h: string, negative: bool): (r: Option<int>)
    ensures r.None? <==> LeadingHexDigits(h) == 0
  {
    var k := LeadingHexDigits(h);
    if k == 0 then None else Some(Signed(HexValue(h[..k]), negative))
  }

  /** Text that starts with neither white space nor a sign is its own
      trimmed, unsigned form. */
  lemma PlainStart(m: string)
    requires m != [] && !IsSpace(m[0]) && m[0] != '-' && m[0] != '+'
    ensures TrimStart(m) == m && AfterSign(TrimStart(m)) == m
  {
  }

  /** A minus sign before such text is stripped, and only it. */
  lemma MinusStart(m: string)
    requires m != [] && !IsSpace(m[0]) && m[0] != '-' && m[0] != '+'
    ensures TrimStart("-" + m) == "-" + m && AfterSign(TrimStart("-" + m)) == m
  {
    assert ("-" + m)[1..] == m;
  }

  /** Without a radix too, a string that starts with anything but white
      space, a sign or a digit reads as `NaN`. */
  lemma ParseIntAutoNonNumeric(s: string)
    requires s != [] && !IsSpace(s[0]) && !IsDigit(s[0]) && s[0] != '-' && s[0] != '+'
    ensures ParseIntAuto(s) == None
  {
    PlainStart(s);
    ParseIntNonNumeric(s);
  }

  /** `0x` or `0X` followed by hexadecimal digits reads as their value in
      base 16, and a minus sign before it negates it. */
  lemma ParseHexDigits(x: char, d: string)
    requires x == 'x' || x == 'X'
    requires |d| > 0 && AllHex(d)
    ensures ParseIntAuto(['0', x] + d) == Some(HexValue(d))
    ensures ParseIntAuto("-" + (['0', x] + d)) == Some(0 - HexValue(d))
  {
    HexTailAll(d);
    var m := ['0', x] + d;
    assert m[2..] == d;
    PlainStart(m);
    assert ParseIntAuto(m) == HexTail(d, false);
    MinusStart(m);
    assert ("-" + m)[0] == '-';
    assert ParseIntAuto("-" + m) == HexTail(d, true);
  }

  /** A run of hexadecimal digits is read whole. */
  lemma HexTailAll(d: string)
    requires |d| > 0 && AllHex(d)
    ensures HexTail(d, false) == Some(HexValue(d)) && HexTail(d, true) == Some(0 - HexValue(d))
  {
    LeadingHexDigitsAll(d);
    assert d[..|d|] == d;
    HexTailOf(d, false);
    HexTailOf(d, true);
  }

  lemma HexTailOf(d: string, negative: bool)
    requires |d| > 0 && AllHex(d) && LeadingHexDigits(d) == |d| && d[..|d|] == d
    ensures HexTail(d, negative) == Some(Signed(HexValue(d), negative))
  {
  }

  /** A `0x` prefix with no hexadecimal digit after it is `NaN`, where
      `parseInt(s, 10)` would read the `0`. */
  lemma HexPrefixWithoutDigits(x: char, rest: string)
    requires x == 'x' || x == 'X'
    requires rest == [] || !IsHexDigit(rest[0])
    ensures ParseIntAuto(['0', x] + rest) == None
    ensures ParseInt(['0', x] + rest) == Some(0)
  {
    HexPrefixNaN(x, rest);
    ZeroThen(x, rest);
  }

  lemma ZeroThen(x: char, rest: string)
    requires !IsDigit(x)
    ensures ParseInt(['0', x] + rest) == Some(0)
  {
    var d := ['0'];
    var tail := [x] + rest;
    assert ['0', x] + rest == d + tail;
    assert d[..0] == [];
    assert DigitsValue(d) == 0;
    ParseDigitsThen(d, tail);
  }

  lemma HexPrefixNaN(x: char, rest: string)
    requires x == 'x' || x == 'X'
    requires rest == [] || !IsHexDigit(rest[0])
    ensures ParseIntAuto(['0', x] + rest) == None
  {
    var m := ['0', x] + rest;
    PlainStart(m);
    var u := AfterSign(TrimStart(m));
    assert u == m && u[2..] == rest;
    assert HasHexPrefix(m);
    assert LeadingHexDigits(rest) == 0;
  }

  /** `parseInt` stops at the first character that is not a digit. */
  lemma ParseDigitsThen(d: string, rest: string)
    requires |d| > 0 && AllDigits(d)
    requires rest == [] || !IsDigit(rest[0])
    ensures ParseInt(d + rest) == Some(DigitsValue(d))
  {
    var m := d + rest;
    assert m[0] == d[0];
    PlainStart(m);
    assert ParseInt(m) == DecimalTail(m, false);
    DecimalTailThen(d, rest);
  }

  lemma {:induction false} LeadingDigitsThen(d: string, rest: string)
    requires AllDigits(d)
    requires rest == [] || !IsDigit(rest[0])
    ensures LeadingDigits(d + rest) == |d|
    decreases |d|
  {
    if d == [] {
      assert d + rest == rest;
    } else {
      assert (d + rest)[1..] == d[1..] + rest;
      LeadingDigitsThen(d[1..], rest);
    }
  }

  lemma {:induction false} LeadingHexDigitsAll(d: string)
    requires AllHex(d)
    ensures LeadingHexDigits(d) == |d|
  {
    if d != [] { LeadingHexDigitsAll(d[1..]); }
  }

  /** Without a radix `parseInt` still reads back what `String` wrote: the
      decimal form of an integer never has an `x` after its first digit. */
  lemma ParseIntAutoOfIntToString(n: int)
    ensures ParseIntAuto(IntToString(n)) == Some(n)
  {
    var m: nat := if n < 0 then -n else n;
    var d := NatToString(m);
    assert |d| >= 2 ==> IsDigit(d[1]);
    PlainStart(d);
    if n < 0 {
      MinusStart(d);
    }
    ParseIntOfIntToString(n);
  }
}
