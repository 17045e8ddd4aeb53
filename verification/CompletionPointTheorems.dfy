/** What the completion point promises for every buffer, line and column. */
module CompletionPointTheorems {
  import opened TextLines
  import opened CompletionPoint

  // ----- Facts about the kept part of the target line.

  ghost predicate HasSeparator(text: string, column: nat) {
    exists i: nat :: IsLastSeparator(text, column, i)
  }

  /** Some separator in range means that there is a last one. */
  lemma {:induction false} LastSeparatorExists(text: string, column: nat, k: nat)
    requires 1 <= k <= column && k < |text| && IsSeparator(text[k])
    ensures HasSeparator(text, column)
    decreases column - k
  {
    if m: nat :| k < m <= column && m < |text| && IsSeparator(text[m]) {
      LastSeparatorExists(text, column, m);
    } else {
      assert IsLastSeparator(text, column, k);
    }
  }

  lemma KeptWhole(text: string, column: nat)
    requires !HasSeparator(text, column)
    ensures Kept(text, column) == text
  {
  }

  lemma KeptIsPrefix(text: string, column: nat)
    ensures Kept(text, column) <= text
    ensures text != "" ==> Kept(text, column) != ""
  {
    if i: nat :| IsLastSeparator(text, column, i) {
      KeptIs(text, column, i);
    }
  }

  lemma KeptIsKept(text: string, column: nat)
    ensures Kept(Kept(text, column), column) == Kept(text, column)
  {
    if i: nat :| IsLastSeparator(text, column, i) {
      KeptIs(text, column, i);
      assert IsLastSeparator(text[..i + 1], column, i);
      KeptIs(text[..i + 1], column, i);
    }
  }

  // ----- The clean file is a prefix, and its end is the completion point.

  /** The line and column, both counted from 0, of the position just after a text. */
  function Position(s: string): (nat, nat) {
    if s == "" then (0, 0)
    else
      var (line, column) := Position(s[..|s| - 1]);
      if s[|s| - 1] == '\n' then (line + 1, 0) else (line, column + 1)
  }

  lemma {:induction false} PositionAfterLine(s: string, line: string)
    requires IsLine(line) && Position(s).1 == 0
    ensures Position(s + line) == (Position(s).0, |line|)
  {
    if line == "" {
      assert s + line == s;
    } else {
      PositionAfterLine(s, line[..|line| - 1]);
      assert (s + line)[..|s + line| - 1] == s + line[..|line| - 1];
    }
  }

  lemma {:induction false} PositionAfterLines(lines: seq<string>)
    requires AreLines(lines)
    ensures Position(Join(lines)) == (|lines|, 0)
  {
    if lines == [] {
    } else {
      var n := |lines| - 1;
      var before := lines[..n];
      PositionAfterLines(before);
      PositionAfterLine(Join(before), lines[n]);
      JoinAppend(before, [lines[n]]);
      assert lines == before + [lines[n]];
      assert Join([lines[n]]) == lines[n] + "\n";
      var text := Join(before) + lines[n] + "\n";
      assert Join(lines) == text;
      assert text[..|text| - 1] == Join(before) + lines[n];
    }
  }

  /**
   On a hit the clean file is the beginning of the buffer, and its end lies on the requested line,
   just after the kept part of it: locating the offset in the buffer gives the request back.
   */
  lemma OffsetLocatesThePoint(contents: string, line: unsigned, column: unsigned)
    requires Hit(contents, line)
    ensures var clean, target := CleanFile(contents, line, column), Lines(contents)[TargetIndex(line)];
            && clean <= contents
            && Position(contents[..|clean|]) == (TargetIndex(line), |Kept(target, column)|)
  {
    var lines, t := Lines(contents), TargetIndex(line);
    var rest := SplitAtLine(contents, t);
    var kept := Kept(lines[t], column);
    KeptIsPrefix(lines[t], column);
    LinesAreLines(contents);
    PositionAfterLines(lines[..t]);
    PositionAfterLine(Join(lines[..t]), kept);
    assert contents[..|Join(lines[..t]) + kept|] == Join(lines[..t]) + kept;
  }

  /** The target line lies between `before`, which ends where it begins, and `after`. */
  predicate IsAround(before: string, target: string, after: string, line: unsigned) {
    && 1 <= line && Position(before) == (line - 1, 0)
    && '\n' !in target && (after == "" || after[0] == '\n') && target + after != ""
  }

  lemma ColumnIsZeroAfterBreak(s: string)
    requires s != ""
    ensures Position(s).1 == 0 <==> s[|s| - 1] == '\n'
  {
    var column: nat := Position(s[..|s| - 1]).1;
  }

  lemma TargetIsBetween(before: string, target: string, after: string, line: unsigned)
    requires IsAround(before, target, after, line)
    ensures var contents := before + (target + after);
            && Hit(contents, line) && Lines(contents)[TargetIndex(line)] == target
            && Join(Lines(contents)[..TargetIndex(line)]) == before
  {
    var lines, tail := Lines(before), target + after;
    LinesAreLines(before);
    JoinLines(before);
    LinesOfJoin(lines, tail);
    PositionAfterLines(lines);
    if before != "" {
      ColumnIsZeroAfterBreak(before);
    }
    assert Join(lines) == before;
    BreakIsAt(tail, |target|);
    assert tail[..|target|] == target;
    assert (lines + Lines(tail))[..|lines|] == lines;
  }

  lemma CleanFileOnHit(contents: string, line: unsigned, column: unsigned, before: string, target: string)
    requires Hit(contents, line) && Lines(contents)[TargetIndex(line)] == target
    requires Join(Lines(contents)[..TargetIndex(line)]) == before
    ensures CleanFile(contents, line, column) == before + Kept(target, column)
  {
  }

  lemma OffsetOnHit(contents: string, line: unsigned, column: unsigned)
    requires Hit(contents, line)
    ensures Offset(contents, line, column) == |CleanFile(contents, line, column)| % 0x1_0000_0000
  {
  }

  /**
   The file is cut just after the last blank or dot at an index from 1 to the column of its line; if
   there is none, after the whole line.  The offset is the length of what is left.
   */
  lemma CutAfterLastBlankOrDot(before: string, target: string, after: string, line: unsigned, column: unsigned)
    requires IsAround(before, target, after, line)
    ensures var contents := before + (target + after);
            var clean := CleanFile(contents, line, column);
            && (forall i :: IsLastBlankOrDot(target, column, i) ==> clean == before + target[..i + 1])
            && ((forall i :: 1 <= i <= column && i < |target| ==> target[i] != ' ' && target[i] != '.') ==>
                  clean == before + target)
            && Offset(contents, line, column) == |clean| % 0x1_0000_0000
  {
    var contents := before + (target + after);
    TargetIsBetween(before, target, after, line);
    CleanFileOnHit(contents, line, column, before, target);
    OffsetOnHit(contents, line, column);
    KeptUpToBlankOrDot(target, column);
  }

  lemma KeptUpToBlankOrDot(target: string, column: nat)
    ensures forall i :: IsLastBlankOrDot(target, column, i) ==> Kept(target, column) == target[..i + 1]
    ensures (forall i :: 1 <= i <= column && i < |target| ==> target[i] != ' ' && target[i] != '.')
            ==> Kept(target, column) == target
  {
    forall i | IsLastBlankOrDot(target, column, i)
      ensures Kept(target, column) == target[..i + 1]
    {
      KeptIs(target, column, i);
    }
    if forall i :: 1 <= i <= column && i < |target| ==> target[i] != ' ' && target[i] != '.' {
      assert forall i: nat :: !IsLastSeparator(target, column, i);
      KeptWhole(target, column);
    }
  }

  /**
   For buffers below 4 GiB nothing wraps: a line is hit if and only if it is one of the buffer's
   lines counted from 1, and the offset is exactly the length of the clean file.
   */
  lemma NothingWraps(contents: string, line: unsigned, column: unsigned)
    requires |contents| < WORD
    ensures Hit(contents, line) <==> 1 <= line <= |Lines(contents)|
    ensures Hit(contents, line) ==> Offset(contents, line, column) == |CleanFile(contents, line, column)|
  {
    LinesAreFew(contents);
    if Hit(contents, line) {
      OffsetLocatesThePoint(contents, line, column);
      SmallDoesNotWrap(|CleanFile(contents, line, column)|);
    }
  }

  lemma SmallDoesNotWrap(n: nat)
    requires n < WORD
    ensures Wrap(n) == n
  {
  }

  /** On a miss the offset stays 0, and the clean file is the buffer with a final newline if it had none. */
  lemma MissKeepsTheBuffer(contents: string, line: unsigned, column: unsigned)
    requires contents != "" && !Hit(contents, line)
    ensures Offset(contents, line, column) == 0
    ensures CleanFile(contents, line, column) == Terminated(contents)
  {
    JoinLines(contents);
  }

  // ----- Running it on its own result.

  lemma LinesOfClean(contents: string, line: unsigned, column: unsigned)
    requires Hit(contents, line)
    ensures var lines, t := Lines(contents), TargetIndex(line);
            var kept := Kept(lines[t], column);
            Lines(CleanFile(contents, line, column)) == lines[..t] + (if kept == "" then [] else [kept])
  {
    var lines, t := Lines(contents), TargetIndex(line);
    var kept := Kept(lines[t], column);
    LinesAreLines(contents);
    KeptIsPrefix(lines[t], column);
    LinesOfJoin(lines[..t], kept);
    if kept != "" {
      BreakIsAt(kept, |kept|);
      assert kept[..|kept|] == kept;
    }
  }

  /** The length of the lines before the target line, each with its newline. */
  function LengthBefore(contents: string, line: unsigned): nat
    requires Hit(contents, line)
  {
    |Join(Lines(contents)[..TargetIndex(line)])|
  }

  /**
   The clean file of the clean file is the clean file.  The offset is found again too, save in one
   case: an empty target line is no line of the clean file, and the offset falls back to 0.  That
   goes unnoticed only if the earlier lines are a multiple of 4 GiB long.
   */
  lemma CleaningIsIdempotent(contents: string, line: unsigned, column: unsigned)
    requires CleanFile(contents, line, column) != ""
    ensures var clean := CleanFile(contents, line, column);
            && CleanFile(clean, line, column) == clean
            && (Offset(clean, line, column) == Offset(contents, line, column)
                <==> (Hit(contents, line) && Lines(contents)[TargetIndex(line)] == "" ==>
                    LengthBefore(contents, line) % WORD == 0))
  {
    var lines, t := Lines(contents), TargetIndex(line);
    var clean := CleanFile(contents, line, column);
    LinesAreLines(contents);
    if Hit(contents, line) {
      LinesOfClean(contents, line, column);
      KeptIsPrefix(lines[t], column);
      KeptIsKept(lines[t], column);
      if lines[t] == "" {
        assert lines[..t] + [] == lines[..t];
      } else {
        assert Lines(clean)[..t] == lines[..t] && Lines(clean)[t] == Kept(lines[t], column);
      }
    } else {
      LinesOfJoin(lines, "");
      assert Join(lines) + "" == Join(lines) && lines + [] == lines;
    }
  }

  /** The offset does get lost: that of an empty second line is its beginning, but the clean file has no second line. */
  lemma OffsetOfEmptyLineIsLost(first: string, column: unsigned)
    requires IsLine(first) && |first| + 1 < WORD
    ensures var contents, clean := first + "\n" + "\n", first + "\n";
            && CleanFile(contents, 2, column) == clean
            && Offset(contents, 2, column) == |first| + 1 && Offset(clean, 2, column) == 0
  {
    LinesCons("", "");
    LinesCons(first, "\n");
    LinesCons(first, "");
    assert "" + "\n" + "" == "\n" && first + "\n" + "" == first + "\n";
    assert [first, ""][..1] == [first];
    JoinCons(first, []);
    assert [first] + [] == [first] && first + "\n" + Join([]) == first + "\n";
    KeptIsPrefix("", column);
    SmallDoesNotWrap(|first| + 1);
  }

  // ----- What the result does not depend on.

  /** What follows the target line's newline never matters. */
  lemma TextAfterTheLineIsIrrelevant(before: string, after: string, after': string, line: unsigned, column: unsigned)
    requires before != "" && before[|before| - 1] == '\n' && Hit(before, line)
    ensures Hit(before + after, line) && Hit(before + after', line)
    ensures CleanFile(before + after, line, column) == CleanFile(before + after', line, column)
    ensures Offset(before + after, line, column) == Offset(before + after', line, column)
  {
    LinesAreLines(before);
    JoinLines(before);
    LinesOfJoin(Lines(before), after);
    LinesOfJoin(Lines(before), after');
    var t := TargetIndex(line);
    assert (Lines(before) + Lines(after))[..t] == Lines(before)[..t];
    assert (Lines(before) + Lines(after'))[..t] == Lines(before)[..t];
  }

  /** The beginning of a buffer, up to inside some line, settles the lines before it and how it begins. */
  lemma LinesOfPrefix(lines: seq<string>, part: string, contents: string)
    requires AreLines(lines) && IsLine(part) && part != "" && Join(lines) + part <= contents
    ensures |lines| < |Lines(contents)| && Lines(contents)[..|lines|] == lines && part <= Lines(contents)[|lines|]
  {
    var rest := contents[|Join(lines)|..];
    RestBegins(Join(lines), part, contents);
    LinesOfJoin(lines, rest);
    FirstLineBegins(part, rest);
  }

  lemma RestBegins(begin: string, part: string, s: string)
    requires begin + part <= s
    ensures |begin| <= |s| && s == begin + s[|begin|..] && part <= s[|begin|..]
  {
    assert s[..|begin + part|] == begin + part;
    assert s[|begin|..][..|part|] == s[|begin|..|begin| + |part|] == part;
  }

  lemma FirstLineBegins(part: string, s: string)
    requires IsLine(part) && part != "" && part <= s
    ensures Lines(s) != [] && part <= Lines(s)[0]
  {
    assert forall k :: 0 <= k < |part| ==> s[k] == part[k];
    assert |part| <= FirstBreak(s);
  }

  /** The line has no separator in range behind index `i`. */
  predicate NoneAfter(text: string, column: nat, i: nat) {
    forall k :: i < k <= column && k < |text| ==> !IsSeparator(text[k])
  }

  lemma KeptIffNoneAfter(text: string, other: string, column: nat, i: nat)
    requires IsLastSeparator(text, column, i) && text[..i + 1] <= other
    ensures Kept(other, column) == text[..i + 1] <==> NoneAfter(other, column, i)
    ensures !NoneAfter(other, column, i) ==> |Kept(other, column)| > i + 1
  {
    assert other[i] == text[..i + 1][i];
    if k :| i < k <= column && k < |other| && IsSeparator(other[k]) {
      LastSeparatorExists(other, column, k);
      var m: nat :| IsLastSeparator(other, column, m);
      KeptIs(other, column, m);
    } else {
      assert IsLastSeparator(other, column, i);
      KeptIs(other, column, i);
    }
  }

  lemma OffsetIsLength(contents: string, line: unsigned, column: unsigned)
    requires |contents| < WORD && Hit(contents, line)
    ensures Offset(contents, line, column) == |CleanFile(contents, line, column)|
  {
    NothingWraps(contents, line, column);
  }

  /**
   When the target line has a separator in range, any buffer that agrees with this one up to and
   including the last of them gives the same result if and only if it has no later one in range.
   */
  lemma OnlyTheLastSeparatorMatters(contents: string, other: string, line: unsigned, column: unsigned, i: nat)
    requires Hit(contents, line) && IsLastSeparator(Lines(contents)[TargetIndex(line)], column, i)
    requires CleanFile(contents, line, column) <= other
    ensures Hit(other, line)
    ensures var same := NoneAfter(Lines(other)[TargetIndex(line)], column, i);
            && (CleanFile(other, line, column) == CleanFile(contents, line, column) <==> same)
            && (same ==> Offset(other, line, column) == Offset(contents, line, column))
            && (|other| < WORD && !same ==> Offset(other, line, column) > Offset(contents, line, column))
  {
    var lines, t := Lines(contents), TargetIndex(line);
    KeptIs(lines[t], column, i);
    LinesAreLines(contents);
    LinesOfPrefix(lines[..t], lines[t][..i + 1], other);
    KeptIffNoneAfter(lines[t], Lines(other)[t], column, i);
    if |other| < WORD {
      OffsetIsLength(other, line, column);
      SmallDoesNotWrap(|CleanFile(contents, line, column)|);
    }
  }

  /** Nothing is cut off the line: it has no separator in range but, perhaps, its last character. */
  predicate IsUncut(text: string, column: nat) {
    forall k :: 1 <= k <= column && k < |text| - 1 && IsSeparator(text[k]) ==>
      |text| - 1 <= column && IsSeparator(text[|text| - 1])
  }

  lemma KeptWholeIffUncut(text: string, column: nat)
    ensures Kept(text, column) == text <==> IsUncut(text, column)
  {
    if i: nat :| IsLastSeparator(text, column, i) {
      KeptIs(text, column, i);
      assert i < |text| - 1 ==> !IsUncut(text, column);
    } else {
      KeptWhole(text, column);
      forall k | 1 <= k <= column && k < |text| - 1
        ensures !IsSeparator(text[k])
      {
        if IsSeparator(text[k]) {
          LastSeparatorExists(text, column, k);
        }
      }
    }
  }

  /**
   Moving the column to the right never cuts the file shorter if the nearer column already finds a
   separator; otherwise it does exactly when the farther one finds one before the end of the line.
   */
  lemma CleanFileGrowsWithColumn(contents: string, line: unsigned, near: unsigned, far: unsigned)
    requires Hit(contents, line) && near <= far
    ensures var target := Lines(contents)[TargetIndex(line)];
            var grows := HasSeparator(target, near) || IsUncut(target, far);
            && (CleanFile(contents, line, near) <= CleanFile(contents, line, far) <==> grows)
            && (|contents| < WORD ==> (Offset(contents, line, near) <= Offset(contents, line, far) <==> grows))
    ensures var lineEnd := Join(Lines(contents)[..TargetIndex(line)]) + Lines(contents)[TargetIndex(line)];
            CleanFile(contents, line, near) <= lineEnd && CleanFile(contents, line, far) <= lineEnd
  {
    var target := Lines(contents)[TargetIndex(line)];
    var before := Join(Lines(contents)[..TargetIndex(line)]);
    KeptIsPrefix(target, near);
    KeptIsPrefix(target, far);
    KeptGrows(target, near, far);
    PrefixCancels(before, Kept(target, near), Kept(target, far));
    PrefixCancels(before, Kept(target, near), target);
    PrefixCancels(before, Kept(target, far), target);
    if |contents| < WORD {
      OffsetIsLength(contents, line, near);
      OffsetIsLength(contents, line, far);
    }
  }

  lemma KeptGrows(text: string, near: nat, far: nat)
    requires near <= far
    ensures var grows := HasSeparator(text, near) || IsUncut(text, far);
            && (Kept(text, near) <= Kept(text, far) <==> grows)
            && (|Kept(text, near)| <= |Kept(text, far)| <==> grows)
  {
    KeptIsPrefix(text, near);
    KeptIsPrefix(text, far);
    KeptWholeIffUncut(text, far);
    if i: nat :| IsLastSeparator(text, near, i) {
      KeptIs(text, near, i);
      LastSeparatorExists(text, far, i);
      var j: nat :| IsLastSeparator(text, far, j);
      KeptIs(text, far, j);
    } else {
      KeptWhole(text, near);
    }
  }

  /** It does get shorter: column 0 keeps all of "a.b", column 1 cuts it after the dot. */
  lemma ColumnToTheRightCanCut()
    ensures Offset("a.b", 1, 0) == 3 && Offset("a.b", 1, 1) == 2
    ensures CleanFile("a.b", 1, 0) == "a.b" && CleanFile("a.b", 1, 1) == "a."
  {
    OneLine("a.b");
    assert ["a.b"][..0] == [];
    KeptWhole("a.b", 0);
    KeptIs("a.b", 1, 1);
  }

  lemma PrefixCancels(common: string, a: string, b: string)
    ensures common + a <= common + b <==> a <= b
  {
    if a <= b {
      assert common + b == common + a + b[|a|..];
    }
    if common + a <= common + b {
      assert forall k :: 0 <= k < |a| ==> a[k] == (common + a)[|common| + k] == (common + b)[|common| + k] == b[k];
    }
  }
}
