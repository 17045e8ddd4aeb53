/** The completion point: `GetOffset`, and what it computes. */
module CompletionPoint {
  import opened TextLines

  const WORD := 0x1_0000_0000

  /** C++'s 32-bit `unsigned`. */
  type unsigned = n: int | 0 <= n < WORD

  function Wrap(n: int): unsigned {
    n % WORD
  }

  lemma WrapNegative(n: int)
    requires -WORD <= n < 0
    ensures Wrap(n) == n + WORD
  {
  }

  datatype UnsavedFile = UnsavedFile(contents: string, fileName: string)

  datatype CompletionContext = CompletionContext(
    sourceFilename: string, line: unsigned, column: unsigned, flags: seq<string>, unsavedFiles: seq<UnsavedFile>)

  // ----- What is computed, said over the lines of the buffer.

  /** The contents of the first unsaved file with that name, or the empty string. */
  function UnsavedInput(files: seq<UnsavedFile>, name: string): string {
    if files == [] then ""
    else if files[0].fileName == name then files[0].contents
    else UnsavedInput(files[1..], name)
  }

  predicate IsSeparator(c: char) {
    c == ' ' || c == '.'
  }

  /** `i` is the last index from 1 to `column` that holds a separator. */
  ghost predicate IsLastSeparator(text: string, column: nat, i: nat) {
    && 1 <= i <= column && i < |text| && IsSeparator(text[i])
    && forall k :: i < k <= column && k < |text| ==> !IsSeparator(text[k])
  }

  /** The part of the target line that is kept: up to its last separator, or all of it. */
  ghost function Kept(text: string, column: nat): string {
    if i: nat :| IsLastSeparator(text, column, i) then text[..i + 1] else text
  }

  /** The index of the target line.  Line numbers count from 1 and wrap around. */
  function TargetIndex(line: unsigned): nat {
    if line == 0 then WORD - 1 else line - 1
  }

  ghost predicate Hit(contents: string, line: unsigned) {
    TargetIndex(line) < |Lines(contents)|
  }

  ghost function CleanFile(contents: string, line: unsigned, column: unsigned): string {
    var lines, t := Lines(contents), TargetIndex(line);
    if t < |lines| then Join(lines[..t]) + Kept(lines[t], column) else Join(lines)
  }

  ghost function Offset(contents: string, line: unsigned, column: unsigned): unsigned {
    if Hit(contents, line) then Wrap(|CleanFile(contents, line, column)|) else 0
  }

  lemma KeptIs(text: string, column: nat, i: nat)
    requires IsLastSeparator(text, column, i)
    ensures Kept(text, column) == text[..i + 1]
  {
    forall k: nat | IsLastSeparator(text, column, k)
      ensures k == i
    {
    }
  }

  // ----- How it is computed.

  predicate IsFirstOfName(files: seq<UnsavedFile>, name: string, n: int) {
    0 <= n < |files| && files[n].fileName == name && forall m :: 0 <= m < n ==> files[m].fileName != name
  }

  method FindUnsavedInput(files: seq<UnsavedFile>, name: string) returns (input: string)
    ensures input == UnsavedInput(files, name)
    ensures forall n :: IsFirstOfName(files, name, n) ==> input == files[n].contents
    ensures (forall n :: 0 <= n < |files| ==> files[n].fileName != name) ==> input == ""
  {
    input := "";
    var n := 0;
    while n < |files|
      invariant 0 <= n <= |files| && input == ""
      invariant UnsavedInput(files, name) == UnsavedInput(files[n..], name)
      invariant forall m :: 0 <= m < n ==> files[m].fileName != name
    {
      if files[n].fileName == name {
        input := files[n].contents;
        return;
      }
      n := n + 1;
    }
  }

  /** Index `i` holds the last blank or dot at an index from 1 to `column`. */
  predicate IsLastBlankOrDot(text: string, column: nat, i: int) {
    && 1 <= i <= column && i < |text| && (text[i] == ' ' || text[i] == '.')
    && forall k :: i < k <= column && k < |text| ==> text[k] != ' ' && text[k] != '.'
  }

  /** The backward scan from the column to an interesting point. */
  method PartialLine(someLine: string, column: unsigned) returns (partialLine: string)
    ensures partialLine == Kept(someLine, column)
    ensures forall i :: IsLastBlankOrDot(someLine, column, i) ==> partialLine == someLine[..i + 1]
    ensures (forall i :: 1 <= i <= column && i < |someLine| ==> someLine[i] != ' ' && someLine[i] != '.')
            ==> partialLine == someLine
  {
    var i := column;
    while true
      invariant 0 <= i <= column
      invariant forall k :: i < k <= column && k < |someLine| ==> !IsSeparator(someLine[k])
      decreases i
    {
      var someChar := if |someLine| > i then someLine[i] else '\0';
      if someChar == ' ' || someChar == '.' || i == 0 {
        partialLine := "";
        if i == 0 {
          partialLine := someLine;
          assert forall k: nat :: !IsLastSeparator(someLine, column, k);
        } else if |someLine| > i {
          partialLine := someLine[..i + 1];
          KeptIs(someLine, column, i);
        } else {
          assert false;  // past the end of the line no character is interesting
        }
        return;
      }
      i := i - 1;
    }
  }

  /** The wrapped count meets the line number exactly at the target index, and does not wrap before. */
  lemma WrapNext(n: unsigned, line: unsigned)
    requires n <= TargetIndex(line)
    ensures Wrap(n + 1) == line <==> n == TargetIndex(line)
    ensures n < TargetIndex(line) ==> Wrap(n + 1) == n + 1
  {
    if n + 1 == WORD {
      assert Wrap(WORD) == 0;
    } else {
      assert Wrap(n + 1) == n + 1;
    }
  }

  lemma NextLine(lines: seq<string>, n: nat, line: string, rest: seq<string>)
    requires n <= |lines| && lines[n..] == [line] + rest
    ensures n < |lines| && lines[n] == line && lines[n + 1..] == rest
    ensures Join(lines[..n + 1]) == Join(lines[..n]) + line + "\n"
  {
    assert lines[n] == lines[n..][0];
    assert lines[n + 1..] == lines[n..][1..];
    assert lines[..n + 1] == lines[..n] + [line];
    JoinAppend(lines[..n], [line]);
    assert Join([line]) == line + "\n";
  }

  /**
   `aborted` is the failed assertion that there is something to complete in.  The caller's offset
   is 0 before the call and its file is empty.
   */
  method GetOffset(ctx: CompletionContext) returns (aborted: bool, offset: unsigned, cleanFile: string)
    ensures var contents := UnsavedInput(ctx.unsavedFiles, ctx.sourceFilename);
            && (aborted <==> contents == "")
            && (!aborted ==>
                  && cleanFile == CleanFile(contents, ctx.line, ctx.column)
                  && offset == Offset(contents, ctx.line, ctx.column))
  {
    aborted, offset, cleanFile := false, 0, "";
    var unsavedInput := FindUnsavedInput(ctx.unsavedFiles, ctx.sourceFilename);
    if |unsavedInput| == 0 {
      aborted := true;
      return;
    }
    var sourceFile := new StringStream(unsavedInput);
    var currentLine: unsigned := 0;
    ghost var lines, t, n := Lines(unsavedInput), TargetIndex(ctx.line), 0;
    assert lines[..0] == [] && lines[0..] == lines;
    while true
      invariant sourceFile.Valid() && fresh(sourceFile)
      invariant n <= |lines| && n <= t && currentLine == n
      invariant lines[n..] == Lines(sourceFile.Rest())
      invariant cleanFile == Join(lines[..n]) && offset == 0
      decreases |sourceFile.Rest()|
    {
      var more, someLine := sourceFile.GetLine();
      if !more {
        assert lines[n..] == [];
        assert lines[..n] == lines;
        break;
      }
      NextLine(lines, n, someLine, Lines(sourceFile.Rest()));
      WrapNext(currentLine, ctx.line);
      if Wrap(currentLine + 1) == ctx.line {
        var partialLine := PartialLine(someLine, ctx.column);
        cleanFile := cleanFile + partialLine;
        offset := Wrap(|cleanFile|);
        return;
      } else {
        currentLine := Wrap(currentLine + 1);
        cleanFile := cleanFile + someLine;
        cleanFile := cleanFile + "\n";
        n := n + 1;
      }
    }
  }
}
