/**
 * The signing-config patch of `scripts/update_gradle_key.py`: replace the old
 * `release { ... }` block of `android/app/build.gradle` by the new one, first
 * as an exact substring (every occurrence), otherwise through a regular
 * expression that tolerates different white space. Reading and writing the
 * file and printing are modelled as the run's list of writes and output lines.
 */
module GradlePatch {
  import opened Wrappers
  import Strings

  /** The block the script looks for: eight spaces of indentation, then the
      upload-key signing settings, each line indented by twelve spaces. It is
      spelled out around the name of the old key file. */
  const OldBlock: string := OldBlockHead + KeyFileHead + OldBlockTail

  const OldBlockHead: string :=
    "        release {\n" +
    "            storeFile "
  const OldBlockTail: string :=
    ".jks')\n" +
    "            storePassword 'password123'\n" +
    "            keyAlias 'my-key-alias'\n" +
    "            keyPassword 'password123'\n" +
    "        }"

  /** The block written in its place, with the same layout:
      `storeFile file('upload-keystore.jks')`, then the new passwords and
      alias. It is spelled out around its one `-`. */
  const NewBlock: string := NewBlockHead + "-" + NewBlockTail

  const NewBlockHead: string :=
    "        release {\n" +
    "            storeFile file('upload"
  const NewBlockTail: string :=
    "keystore.jks')\n" +
    "            storePassword 'kamwaalay123'\n" +
    "            keyAlias 'upload'\n" +
    "            keyPassword 'kamwaalay123'\n" +
    "        }"

  const Updated := "Successfully updated build.gradle"
  const OldBlockMissing := "Could not find the old block to replace. Content might have changed."
  const UpdatedByPattern := "Successfully updated build.gradle using regex fallback"
  const NothingToUpdate := "FAILED: Could not find config to update."

  /** Python's `\s` in a `str` pattern (the Unicode white space of `str.isspace`). */
  predicate IsPySpace(c: char) {
    c == ' ' || ('\t' <= c <= '\r') || ('\U{001C}' <= c <= '\U{001F}') || c == '\U{0085}'
    || c == '\U{00A0}' || c == '\U{1680}' || ('\U{2000}' <= c <= '\U{200A}')
    || c == '\U{2028}' || c == '\U{2029}' || c == '\U{202F}' || c == '\U{205F}' || c == '\U{3000}'
  }

  /** Where `\s*` starting at `j` stops. */
  function SkipSpaces(t: string, j: nat): (k: nat)
    requires j <= |t|
    ensures j <= k <= |t| && (k < |t| ==> !IsPySpace(t[k]))
    ensures forall m :: j <= m < k ==> IsPySpace(t[m])
    decreases |t| - j
  {
    if j < |t| && IsPySpace(t[j]) then SkipSpaces(t, j + 1) else j
  }

  /** The first `}` at or after `j` (or `|t|` when there is none). */
  function BraceFrom(t: string, j: nat): (k: nat)
    requires j <= |t|
    ensures j <= k <= |t| && (k < |t| ==> t[k] == '}')
    ensures forall m :: j <= m < k ==> t[m] != '}'
    decreases |t| - j
  {
    if j < |t| && t[j] != '}' then BraceFrom(t, j + 1) else j
  }

  /** The literal part of the pattern that names the old key file, up to the
      `.` (which, unescaped, matches any character). */
  const KeyFileHead := "file('kamwaalay-upload-key"
  const KeyFileTail := "jks')"

  /** `t` names the old key file (`file('kamwaalay-upload-key?jks')`) at `c`,
      and no `}` follows it before position `n - 1`. */
  predicate NamesKeyFileAt(t: string, c: nat, n: nat) {
    Strings.OccursAt(t, KeyFileHead, c) && Strings.OccursAt(t, KeyFileTail, c + 27)
    && c + 32 < n <= |t| && forall m :: c + 32 <= m < n - 1 ==> t[m] != '}'
  }

  /** Where the argument of `storeFile` starts, when `t` begins with the
      pattern's prefix `release\s*{\s*storeFile\s*`. */
  function KeyFileStart(t: string): (c: Option<nat>)
    ensures c.Some? ==> 16 < c.value <= |t| && Strings.OccursAt(t, "release", 0)
  {
    if |t| < 7 || t[..7] != "release" then None
    else
      var a := SkipSpaces(t, 7);
      if a == |t| || t[a] != '{' then None
      else
        var b := SkipSpaces(t, a + 1);
        if b + 9 > |t| || t[b..b + 9] != "storeFile" then None
        else Some(SkipSpaces(t, b + 9))
  }

  /** The rest of a match, with the argument of `storeFile` starting at
      `c`: the key file's name, then `[^}]+\}`. The result is where the
      match ends. */
  function KeyFileMatch(t: string, c: nat): (n: Option<nat>)
    requires c <= |t|
    ensures n.Some? ==> c + 32 < n.value <= |t| && t[n.value - 1] == '}' && NamesKeyFileAt(t, c, n.value)
    ensures n.Some? ==> Strings.Contains(t, KeyFileHead)
  {
    if !Strings.OccursAt(t, KeyFileHead, c) || !Strings.OccursAt(t, KeyFileTail, c + 27) then None
    else
      var e := BraceFrom(t, c + 32);
      if e == |t| || e == c + 32 then None
      else
        Strings.ContainsAt(t, KeyFileHead, c);
        Some(e + 1)
  }

  /** The length of the match of
      `release\s*{\s*storeFile\s*file\('kamwaalay-upload-key.jks'\)[^}]+\}`
      (with DOTALL) at the start of `t`, if it matches there: from `release`
      to the first `}` after the key file's name. */
  function MatchLength(t: string): (r: Option<nat>)
    ensures r.Some? ==> Strings.OccursAt(t, "release", 0)
    ensures r.Some? ==> 0 < r.value <= |t| && t[r.value - 1] == '}'
    ensures r.Some? ==> KeyFileStart(t).Some? && NamesKeyFileAt(t, KeyFileStart(t).value, r.value)
  {
    match KeyFileStart(t)
    case None => None
    case Some(c) => KeyFileMatch(t, c)
  }

  /** Some position of `t` starts a match (`re.search`). */
  predicate Found(t: string)
    decreases |t|
  {
    t != [] && (MatchLength(t).Some? || Found(t[1..]))
  }

  /** `re.sub(pattern, NewBlock, t, flags=re.DOTALL)`: scanning from the left,
      each match is replaced by the new block and scanning resumes after it. */
  function Substitute(t: string): string
    decreases |t|
  {
    if t == [] then []
    else
      match MatchLength(t)
      case Some(n) => NewBlock + Substitute(t[n..])
      case None => [t[0]] + Substitute(t[1..])
  }

  datatype Outcome = ReplacedExact | ReplacedByPattern | NotReplaced

  /** One run of the script: what it decided, the contents it wrote to the
      build file (at most one write) and the lines it printed. */
  datatype Run = Run(outcome: Outcome, writes: seq<string>, output: seq<string>)
  {
    /** The build file after the run. */
    function Final(original: string): string {
      if writes == [] then original else writes[|writes| - 1]
    }
  }

  /** The script on the file contents `content`. */
  function Patch(content: string): (r: Run)
    ensures |r.writes| <= 1
    ensures r.writes == [] <==> r.outcome == NotReplaced
    ensures r.outcome == ReplacedExact <==> Strings.Contains(content, OldBlock)
    ensures r.outcome == ReplacedByPattern <==> !Strings.Contains(content, OldBlock) && Found(content)
  {
    if Strings.Contains(content, OldBlock) then
      Run(ReplacedExact, [Strings.ReplaceAll(content, OldBlock, NewBlock)], [Updated])
    else if Found(content) then
      Run(ReplacedByPattern, [Substitute(content)], [OldBlockMissing, UpdatedByPattern])
    else
      Run(NotReplaced, [], [OldBlockMissing, NothingToUpdate])
  }

  /** When the old block is present, every occurrence of it is replaced: the
      file is cut at the occurrences into pieces that do not contain it, and
      the same pieces are glued back with the new block. The fallback message
      is never printed, so the pattern is not tried. */
  lemma ExactReplacesEveryOccurrence(content: string)
    requires Strings.Contains(content, OldBlock)
    ensures var pieces := Strings.Split(content, OldBlock);
      Strings.Join(pieces, OldBlock) == content
      && Patch(content).Final(content) == Strings.Join(pieces, NewBlock)
      && (forall k :: 0 <= k < |pieces| ==> !Strings.Contains(pieces[k], OldBlock))
    ensures Patch(content).output == [Updated]
  {
    Strings.ReplaceAllPieces(content, OldBlock, NewBlock);
  }

  /** When neither the block nor the pattern is found, nothing is written and
      the file keeps its contents. */
  lemma NoMatchNoWrite(content: string)
    requires !Strings.Contains(content, OldBlock) && !Found(content)
    ensures Patch(content).writes == [] && Patch(content).Final(content) == content
    ensures Patch(content).output == [OldBlockMissing, NothingToUpdate]
  {
  }

  /** Text without a match goes through the substitution unchanged. */
  lemma {:induction false} SubstituteWithoutMatch(t: string)
    requires !Found(t)
    ensures Substitute(t) == t
    decreases |t|
  {
    if t != [] {
      SubstituteWithoutMatch(t[1..]);
      assert t == [t[0]] + t[1..];
    }
  }

  /** No match starts at a space. */
  lemma NoMatchAtSpace(t: string)
    requires |t| > 0 && t[0] == ' '
    ensures MatchLength(t).None?
  {
    assert |t| >= 7 ==> t[..7][0] == ' ' && "release"[0] == 'r';
    assert KeyFileStart(t).None?;
  }

  /** A leading space is copied as it is. */
  lemma SpaceCopied(u: string)
    ensures Substitute([' '] + u) == [' '] + Substitute(u)
  {
    var s := [' '] + u;
    NoMatchAtSpace(s);
    assert s[1..] == u;
  }

  lemma LeadingSpace(indent: string, u: string)
    requires indent != [] && indent[0] == ' '
    ensures indent + u == [' '] + (indent[1..] + u)
  {
    assert indent == [' '] + indent[1..];
  }

  /** The pattern path keeps what precedes `release`: the indentation in front
      of the matched block stays, and the new block brings its own eight
      spaces, so the block ends up indented twice. */
  lemma {:induction false} SubstituteKeepsIndent(indent: string, t: string)
    requires forall m :: 0 <= m < |indent| ==> indent[m] == ' '
    ensures Substitute(indent + t) == indent + Substitute(t)
    decreases |indent|
  {
    if indent != [] {
      SubstituteKeepsIndent(indent[1..], t);
      LeadingSpace(indent, t);
      SpaceCopied(indent[1..] + t);
      LeadingSpace(indent, Substitute(t));
    } else {
      assert indent + t == t;
    }
  }

  /** Every match spells out the old key file's name, so text that does not
      name it has no match. */
  lemma {:induction false} NoMatchWithoutOldKey(t: string)
    requires !Strings.Contains(t, KeyFileHead)
    ensures !Found(t)
    decreases |t|
  {
    if t != [] {
      Strings.ContainsTail(t, KeyFileHead);
      NoMatchWithoutOldKey(t[1..]);
    }
  }

  /** The new block is shorter than the old one, so it cannot contain it. */
  lemma NewBlockLacksOldBlock()
    ensures |NewBlock| < |OldBlock|
    ensures !Strings.Contains(NewBlock, OldBlock)
  {
  }

  predicate NoDash(s: string) {
    forall i :: 0 <= i < |s| ==> s[i] != '-'
  }

  /** The new block's one `-` sits between `upload` and `keystore`. */
  lemma NewBlockDashAt() returns (p: nat)
    ensures forall i :: 0 <= i < |NewBlock| && i != p ==> NewBlock[i] != '-'
  {
    NewBlockHeadNoDash();
    NewBlockTailNoDash();
    p := |NewBlockHead|;
    forall i | 0 <= i < |NewBlock| && i != p ensures NewBlock[i] != '-' {
      if i < p { assert NewBlock[i] == NewBlockHead[i]; }
      else { assert NewBlock[i] == NewBlockTail[i - p - 1]; }
    }
  }

  lemma NoDashConcat(a: string, b: string)
    requires NoDash(a) && NoDash(b)
    ensures NoDash(a + b)
  {
    forall i | 0 <= i < |a + b| ensures (a + b)[i] != '-' {
      if i < |a| { assert (a + b)[i] == a[i]; } else { assert (a + b)[i] == b[i - |a|]; }
    }
  }

  lemma NewBlockHeadNoDash()
    ensures NoDash(NewBlockHead)
  {
    assert NoDash("        release {\n");
    assert NoDash("            storeFile file('upload");
    NoDashConcat("        release {\n", "            storeFile file('upload");
  }

  lemma NewBlockTailNoDash()
    ensures NoDash(NewBlockTail)
  {
    var l1, l2 := "keystore.jks')\n", "            storePassword 'kamwaalay123'\n";
    var l3, l4 := "            keyAlias 'upload'\n", "            keyPassword 'kamwaalay123'\n";
    var l5 := "        }";
    assert NoDash(l1);
    assert NoDash(l2);
    assert NoDash(l3);
    assert NoDash(l4);
    assert NoDash(l5);
    NoDashConcat(l1, l2);
    NoDashConcat(l1 + l2, l3);
    NoDashConcat(l1 + l2 + l3, l4);
    NoDashConcat(l1 + l2 + l3 + l4, l5);
  }

  /** The old key file's name has two `-` while the new block has one, so the
      new block never matches the pattern. */
  lemma NewBlockLacksOldKey()
    ensures !Strings.Contains(NewBlock, KeyFileHead)
    ensures !Found(NewBlock)
  {
    var p := NewBlockDashAt();
    assert KeyFileHead[15] == '-' && KeyFileHead[22] == '-';
    forall c | 0 <= c ensures !Strings.OccursAt(NewBlock, KeyFileHead, c) {
      if c + |KeyFileHead| <= |NewBlock| {
        if c + 15 != p {
          assert NewBlock[c..c + |KeyFileHead|][15] == NewBlock[c + 15];
        } else {
          assert NewBlock[c..c + |KeyFileHead|][22] == NewBlock[c + 22];
        }
      }
    }
    NoMatchWithoutOldKey(NewBlock);
  }

  /** A file holding exactly the old block is rewritten to exactly the new
      block, and running the script again finds nothing and writes nothing. */
  lemma OldBlockFileBecomesNewBlock()
    ensures Patch(OldBlock).Final(OldBlock) == NewBlock
    ensures Patch(NewBlock).outcome == NotReplaced
  {
    assert Strings.OccursAt(OldBlock, OldBlock, 0);
    assert Strings.IndexOf(OldBlock, OldBlock) == Some(0);
    assert OldBlock[|OldBlock|..] == "";
    assert !Strings.OccursAt("", OldBlock, 0);
    assert Strings.Split("", OldBlock) == [""];
    assert Strings.Split(OldBlock, OldBlock) == [OldBlock[..0]] + Strings.Split(OldBlock[|OldBlock|..], OldBlock);
    assert Strings.Split(OldBlock, OldBlock) == ["", ""];
    assert Strings.Join(["", ""], NewBlock) == "" + NewBlock + Strings.Join([""], NewBlock);
    NewBlockLacksOldBlock();
    NewBlockLacksOldKey();
  }

  /** The old block names the old key file 40 characters in. */
  lemma OldBlockNamesOldKey()
    ensures Strings.OccursAt(OldBlock, KeyFileHead, 40)
  {
    assert |OldBlockHead| == 40;
    SliceOfConcat(OldBlockHead, KeyFileHead, OldBlockTail);
  }

  lemma SliceOfConcat(x: string, y: string, z: string)
    ensures (x + y + z)[|x|..|x| + |y|] == y
  {
  }

  /** Whatever names the old block also names the old key file. */
  lemma OldBlockNeedsOldKey(t: string)
    requires Strings.Contains(t, OldBlock)
    ensures Strings.Contains(t, KeyFileHead)
  {
    var i := Strings.IndexOf(t, OldBlock).value;
    OldBlockNamesOldKey();
    assert t[i..i + |OldBlock|] == OldBlock;
    Strings.OccursInSlice(t, KeyFileHead, i, i + |OldBlock|, 40);
    Strings.ContainsAt(t, KeyFileHead, i + 40);
  }

  lemma SliceOfSuffix(x: string, y: string, lo: nat, hi: nat)
    requires |x| <= lo <= hi <= |x| + |y|
    ensures (x + y)[lo..hi] == y[lo - |x|..hi - |x|]
  {
  }

  /** Every character an occurrence covers is a character of the pattern. */
  lemma CoveredChar(s: string, p: string, i: nat, j: nat)
    requires Strings.OccursAt(s, p, i) && i <= j < i + |p|
    ensures s[j] == p[j - i]
  {
    assert s[i..i + |p|][j - i] == s[j];
  }

  /** A pattern that has neither the first nor the last character of `block`
      occurs in `a + block + b` only inside one of the three. */
  lemma NotAcrossBlock(a: string, block: string, b: string, p: string)
    requires |block| > 0
    requires forall j :: 0 <= j < |p| ==> p[j] != block[0] && p[j] != block[|block| - 1]
    requires !Strings.Contains(a, p) && !Strings.Contains(block, p) && !Strings.Contains(b, p)
    ensures !Strings.Contains(a + block + b, p)
  {
    var s := a + block + b;
    var n, m, k := |a|, |block|, |p|;
    if Strings.Contains(s, p) {
      var i := Strings.IndexOf(s, p).value;
      if i + k <= n {
        assert a[i..i + k] == s[i..i + k];
        Strings.ContainsAt(a, p, i);
      } else if n + m <= i {
        SliceOfSuffix(a + block, b, i, i + k);
        Strings.ContainsAt(b, p, i - n - m);
      } else if n <= i && i + k <= n + m {
        SliceOfSuffix(a, block, i, i + k);
        assert s[i..i + k] == (a + block)[i..i + k];
        Strings.ContainsAt(block, p, i - n);
      } else if i < n {
        CoveredChar(s, p, i, n);
      } else {
        CoveredChar(s, p, i, n + m - 1);
      }
    }
  }

  /** Gluing the new block between two texts that do not name the old key
      file does not name it either: the name has neither a space (the new
      block's first character) nor a `}` (its last), so it cannot straddle
      an edge of the block. */
  lemma NoKeyAroundNewBlock(a: string, b: string)
    requires !Strings.Contains(a, KeyFileHead) && !Strings.Contains(b, KeyFileHead)
    ensures !Strings.Contains(a + NewBlock + b, KeyFileHead)
  {
    NewBlockLacksOldKey();
    NewBlockEdges();
    KeyFileHeadAvoidsEdges();
    NotAcrossBlock(a, NewBlock, b, KeyFileHead);
  }

  /** The new block starts with a space and ends with `}`. */
  lemma NewBlockEdges()
    ensures |NewBlock| > 0 && NewBlock[0] == ' ' && NewBlock[|NewBlock| - 1] == '}'
  {
    assert NewBlock[0] == NewBlockHead[0];
    assert NewBlock[|NewBlock| - 1] == NewBlockTail[|NewBlockTail| - 1];
  }

  /** The old key file's name has neither a space nor a `}`. */
  lemma KeyFileHeadAvoidsEdges()
    ensures forall j :: 0 <= j < |KeyFileHead| ==> KeyFileHead[j] != ' ' && KeyFileHead[j] != '}'
  {
  }

  /** Pieces that do not name the old key file, joined by the new block, do
      not name it either. */
  lemma {:induction false} NoKeyInJoin(pieces: seq<string>)
    requires forall k :: 0 <= k < |pieces| ==> !Strings.Contains(pieces[k], KeyFileHead)
    ensures !Strings.Contains(Strings.Join(pieces, NewBlock), KeyFileHead)
    decreases |pieces|
  {
    if |pieces| == 0 {
      assert !Strings.OccursAt("", KeyFileHead, 0);
    } else if |pieces| >= 2 {
      NoKeyInJoin(pieces[1..]);
      NoKeyAroundNewBlock(pieces[0], Strings.Join(pieces[1..], NewBlock));
    }
  }

  /** Idempotence of the exact path: when the file names the old key file
      only inside copies of the old block, the first run replaces them all
      and a second run on its result finds neither the block nor the
      pattern, so it writes nothing. */
  lemma SecondRunChangesNothing(content: string)
    requires Strings.Contains(content, OldBlock)
    requires var pieces := Strings.Split(content, OldBlock);
      forall k :: 0 <= k < |pieces| ==> !Strings.Contains(pieces[k], KeyFileHead)
    ensures var once := Patch(content).Final(content);
      Patch(content).outcome == ReplacedExact
      && Patch(once).outcome == NotReplaced && Patch(once).writes == []
      && Patch(once).Final(once) == once
  {
    var once := Patch(content).Final(content);
    assert once == Strings.Join(Strings.Split(content, OldBlock), NewBlock);
    NoKeyInJoin(Strings.Split(content, OldBlock));
    if Strings.Contains(once, OldBlock) {
      OldBlockNeedsOldKey(once);
    }
    NoMatchWithoutOldKey(once);
  }
}
