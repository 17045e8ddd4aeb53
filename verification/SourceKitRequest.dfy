/**
 The requests that are sent to SourceKit: the compiler arguments, and the text and offset of a code
 completion.  Strings are handed over as C strings, so each is cut at its first NUL.
 */
module SourceKitRequest {
  import opened TextLines
  import opened CompletionPoint
  import opened CompletionPointTheorems
  import opened HttpSession

  const DEFAULT_OSX_ARGS: seq<string> := [
    "-sdk",
    "/Applications/Xcode.app/Contents/Developer/Platforms/MacOSX.platform/Developer/SDKs/MacOSX.sdk",
    "-target", "x86_64-apple-macosx10.12"]

  /** What is left of a string after `c_str()`. */
  function CStr(s: string): string {
    if s == "" || s[0] == '\0' then "" else [s[0]] + CStr(s[1..])
  }

  function CStrs(strings: seq<string>): seq<string> {
    if strings == [] then [] else [CStr(strings[0])] + CStrs(strings[1..])
  }

  function CompilerArgs(flags: seq<string>): seq<string> {
    if |flags| == 0 then DEFAULT_OSX_ARGS else flags
  }

  /** The flags other than `filename`, in their order. */
  function Without(filename: string, flags: seq<string>): seq<string> {
    if flags == [] then []
    else (if flags[0] == filename then [] else [flags[0]]) + Without(filename, flags[1..])
  }

  /** Looking at one more flag. */
  lemma WithoutNext(filename: string, flags: seq<string>, n: nat, before: seq<string>)
    requires n < |flags|
    ensures before + Without(filename, flags[n..])
              == (if flags[n] == filename then before else before + [flags[n]]) + Without(filename, flags[n + 1..])
  {
    assert flags[n..][1..] == flags[n + 1..];
  }

  method DiagnosticFlagsFromFlags(filename: string, flags: seq<string>) returns (outputFlags: seq<string>)
    ensures outputFlags == Without(filename, flags)
  {
    outputFlags := [];
    for n := 0 to |flags|
      invariant outputFlags + Without(filename, flags[n..]) == Without(filename, flags)
    {
      WithoutNext(filename, flags, n, outputFlags);
      if flags[n] == filename {
        continue;
      }
      outputFlags := outputFlags + [flags[n]];
    }
  }

  /** The file's name comes first, and the arguments follow it one by one. */
  ghost predicate IsArgumentArray(args: seq<string>, name: string, compilerArgs: seq<string>) {
    && |args| == 1 + |compilerArgs| && args[0] == CStr(name)
    && forall k :: 0 <= k < |compilerArgs| ==> args[k + 1] == CStr(compilerArgs[k])
  }

  lemma {:induction false} CStrsInOrder(strings: seq<string>)
    ensures |CStrs(strings)| == |strings|
    ensures forall k :: 0 <= k < |strings| ==> CStrs(strings)[k] == CStr(strings[k])
  {
    if strings != [] {
      CStrsInOrder(strings[1..]);
      forall k | 0 <= k < |strings|
        ensures CStrs(strings)[k] == CStr(strings[k])
      {
        if k > 0 {
          assert strings[k] == strings[1..][k - 1];
        }
      }
    }
  }

  /** The argument array of both kinds of request: the file's name, then the compiler arguments. */
  method ArgumentArray(name: string, compilerArgs: seq<string>) returns (args: seq<string>)
    ensures args == [CStr(name)] + CStrs(compilerArgs)
    ensures IsArgumentArray(args, name, compilerArgs)
  {
    args := [CStr(name)];
    for n := 0 to |compilerArgs|
      invariant args + CStrs(compilerArgs[n..]) == [CStr(name)] + CStrs(compilerArgs)
    {
      args := args + [CStr(compilerArgs[n])];
    }
    CStrsInOrder(compilerArgs);
  }

  /** The array that `DiagnosticsForFile` sends with both editor requests. */
  method DiagnosticArguments(filename: string, flags: seq<string>) returns (args: seq<string>)
    ensures args == DiagnosticArgs(filename, flags)
    ensures if forall f :: f in flags ==> f == filename
            then IsArgumentArray(args, filename, [
              "-sdk",
              "/Applications/Xcode.app/Contents/Developer/Platforms/MacOSX.platform/Developer/SDKs/MacOSX.sdk",
              "-target", "x86_64-apple-macosx10.12"])
            else IsArgumentArray(args, filename, Without(filename, flags))
  {
    var kept := DiagnosticFlagsFromFlags(filename, flags);
    OthersRemain(filename, flags);
    args := ArgumentArray(filename, CompilerArgs(kept));
  }

  function DiagnosticArgs(filename: string, flags: seq<string>): seq<string> {
    [CStr(filename)] + CStrs(CompilerArgs(Without(filename, flags)))
  }

  // ----- What the diagnostics arguments are.

  lemma {:induction false} WithoutIsTheRest(filename: string, flags: seq<string>)
    ensures multiset(Without(filename, flags)) == multiset(flags)[filename := 0]
  {
    if flags == [] {
    } else {
      WithoutIsTheRest(filename, flags[1..]);
      assert flags == [flags[0]] + flags[1..];
    }
  }

  lemma OthersRemain(filename: string, flags: seq<string>)
    ensures forall f :: f in Without(filename, flags) <==> f in flags && f != filename
    ensures CompilerArgs(Without(filename, flags)) ==
      if forall f :: f in flags ==> f == filename then DEFAULT_OSX_ARGS else Without(filename, flags)
  {
    var kept := Without(filename, flags);
    WithoutIsTheRest(filename, flags);
    assert forall f :: f in kept <==> f in multiset(kept);
    assert forall f :: f in flags <==> f in multiset(flags);
    assert kept != [] ==> kept[0] in kept;
  }

  /** The order is kept: dropping a name from a list is dropping it from its parts. */
  lemma {:induction false} WithoutKeepsOrder(filename: string, a: seq<string>, b: seq<string>)
    ensures Without(filename, a + b) == Without(filename, a) + Without(filename, b)
  {
    if a == [] {
      assert a + b == b;
    } else {
      WithoutKeepsOrder(filename, a[1..], b);
      assert (a + b)[1..] == a[1..] + b && (a + b)[0] == a[0];
      var first: seq<string> := if a[0] == filename then [] else [a[0]];
      Regroup(first, Without(filename, a[1..]), Without(filename, b));
    }
  }

  lemma {:induction false} CStrsAre(strings: seq<string>, x: string)
    ensures x in CStrs(strings) <==> exists f :: f in strings && CStr(f) == x
  {
    if strings != [] {
      CStrsAre(strings[1..], x);
      assert strings == [strings[0]] + strings[1..];
      assert strings[0] in strings;
    }
  }

  /**
   The file is named first.  It is named again if and only if some other flag reads the same as a C
   string, or there is no other flag and the file is named like a default argument.
   */
  lemma FileIsNamedOnce(filename: string, flags: seq<string>)
    ensures var args := DiagnosticArgs(filename, flags);
            && args[0] == CStr(filename)
            && (CStr(filename) in args[1..] <==>
                  || (exists f :: f in flags && f != filename && CStr(f) == CStr(filename))
                  || ((forall f :: f in flags ==> f == filename) && CStr(filename) in CStrs(DEFAULT_OSX_ARGS)))
  {
    var kept := Without(filename, flags);
    OthersRemain(filename, flags);
    assert kept != [] ==> kept[0] in kept;
    CStrsAre(kept, CStr(filename));
    assert DiagnosticArgs(filename, flags)[1..] == CStrs(CompilerArgs(kept));
  }

  /** A file can be named twice: here, like a default argument. */
  lemma NamedLikeADefault()
    ensures DiagnosticArgs("-sdk", [])[0] == DiagnosticArgs("-sdk", [])[1] == "-sdk"
  {
    CStrOf("-sdk", "");
    assert "-sdk" + "" == "-sdk";
  }

  /** And here, like another flag up to its NUL. */
  lemma NamedLikeAFlag()
    ensures DiagnosticArgs("a", ["a\0"]) == ["a", "a"]
  {
    CStrOf("a", "");
    CStrOf("a", "\0");
    assert "a" + "" == "a" && "a" + "\0" == "a\0";
    assert Without("a", ["a\0"]) == ["a\0"];
    assert CStrs(["a\0"]) == ["a"];
  }

  /** A C string ends at the first NUL. */
  lemma {:induction false} CStrOf(s: string, rest: string)
    requires '\0' !in s && (rest == "" || rest[0] == '\0')
    ensures CStr(s + rest) == s
  {
    if s == "" {
      assert s + rest == rest;
    } else {
      CStrOf(s[1..], rest);
      assert (s + rest)[1..] == s[1..] + rest;
    }
  }

  // ----- What is sent with a code completion.

  datatype CompletionRequest = CompletionRequest(name: string, offset: unsigned, sourceText: string, args: seq<string>)

  /** The request of `CompletionOpen` and of `CompletionUpdate`. */
  method CodeComplete(ctx: CompletionContext) returns (aborted: bool, request: CompletionRequest)
    ensures var contents := UnsavedInput(ctx.unsavedFiles, ctx.sourceFilename);
            && (aborted <==> contents == "")
            && (!aborted ==> request == CompletionRequest(
                  CStr(ctx.sourceFilename),
                  Offset(contents, ctx.line, ctx.column),
                  CStr(CleanFile(contents, ctx.line, ctx.column)),
                  [CStr(ctx.sourceFilename)] + CStrs(CompilerArgs(ctx.flags))))
    ensures IsArgumentArray(request.args, ctx.sourceFilename, if ctx.flags == [] then DEFAULT_OSX_ARGS else ctx.flags)
  {
    var offset, cleanFile;
    aborted, offset, cleanFile := GetOffset(ctx);
    var args := ArgumentArray(ctx.sourceFilename, CompilerArgs(ctx.flags));
    request := CompletionRequest(CStr(ctx.sourceFilename), offset, CStr(cleanFile), args);
  }

  /** `CandidatesForLocationInFile` converts its `int` line and column to `unsigned`. */
  function ContextFor(filename: string, line: int, column: int, files: seq<UnsavedFile>,
                      flags: seq<string>): CompletionContext {
    CompletionContext(filename, Wrap(line), Wrap(column), flags, files)
  }

  /** What `CandidatesForLocationInFile` sends, both times, for a line and a column that are `int`. */
  method CandidatesForLocationInFile(filename: string, line: int, column: int, files: seq<UnsavedFile>,
                                     flags: seq<string>)
    returns (aborted: bool, request: CompletionRequest)
    ensures var contents := UnsavedInput(files, filename);
            && (aborted <==> contents == "")
            && (!aborted ==> request == CompletionRequest(
                  CStr(filename),
                  Offset(contents, Wrap(line), Wrap(column)),
                  CStr(CleanFile(contents, Wrap(line), Wrap(column))),
                  [CStr(filename)] + CStrs(CompilerArgs(flags))))
    ensures IsArgumentArray(request.args, filename, if flags == [] then DEFAULT_OSX_ARGS else flags)
  {
    aborted, request := CodeComplete(ContextFor(filename, line, column, files, flags));
  }

  /** What the block of `/completions` asks for: its one unsaved file has the request's name and contents. */
  method CompletionsFor(request: Request) returns (aborted: bool, query: CompletionRequest)
    ensures aborted <==> CompletionAborts(request)
    ensures !aborted ==> query == CompletionRequest(
      CStr(request.fileName),
      Offset(request.contents, Wrap(request.line), Wrap(request.column)),
      CStr(CleanFile(request.contents, Wrap(request.line), Wrap(request.column))),
      [CStr(request.fileName)] + CStrs(CompilerArgs(request.flags)))
  {
    var files := [UnsavedFile(request.contents, request.fileName)];
    aborted, query := CandidatesForLocationInFile(request.fileName, request.line, request.column, files, request.flags);
  }

  datatype EditorRequest = EditorRequest(name: string, sourceText: string, args: seq<string>)

  /** Both editor requests of the block of `/diagnostics`: the first unsaved file as it is, and the other flags. */
  method DiagnosticsFor(request: Request) returns (query: EditorRequest)
    ensures query.name == CStr(request.fileName) && query.sourceText == CStr(request.contents)
    ensures query.args == DiagnosticArgs(request.fileName, request.flags)
  {
    var files := [UnsavedFile(request.contents, request.fileName)];
    var args := DiagnosticArguments(request.fileName, request.flags);
    query := EditorRequest(CStr(request.fileName), CStr(files[0].contents), args);
  }

  lemma {:induction false} CStrLength(s: string)
    ensures CStr(s) <= s
    ensures |CStr(s)| == |s| <==> '\0' !in s
  {
    if s != "" && s[0] != '\0' {
      CStrLength(s[1..]);
      assert s == [s[0]] + s[1..];
    }
  }

  /** The NUL at index `n` of the target line is cut off: a separator in range comes before it, and none after it. */
  ghost predicate IsCutOff(target: string, column: nat, n: nat) {
    && (exists i :: 1 <= i <= column && i < n && i < |target| && IsSeparator(target[i]))
    && NoneAfter(target, column, n)
  }

  /** No line before the target line has a NUL, and every NUL of the target line is cut off. */
  ghost predicate IsFreeOfNul(contents: string, line: unsigned, column: unsigned)
    requires Hit(contents, line)
  {
    var lines, t := Lines(contents), TargetIndex(line);
    && (forall k :: 0 <= k < t ==> '\0' !in lines[k])
    && forall n :: 0 <= n < |lines[t]| && lines[t][n] == '\0' ==> IsCutOff(lines[t], column, n)
  }

  lemma {:induction false} NulInJoin(lines: seq<string>)
    ensures '\0' in Join(lines) <==> exists k :: 0 <= k < |lines| && '\0' in lines[k]
  {
    if lines != [] {
      NulInJoin(lines[1..]);
      assert Join(lines) == lines[0] + "\n" + Join(lines[1..]);
      assert forall k :: 0 <= k < |lines| ==> k == 0 || lines[k] == lines[1..][k - 1];
      assert forall k :: 0 <= k < |lines[1..]| ==> lines[1..][k] == lines[k + 1];
    }
  }

  lemma NulInKept(target: string, column: nat)
    ensures '\0' !in Kept(target, column)
       <==> forall n :: 0 <= n < |target| && target[n] == '\0' ==> IsCutOff(target, column, n)
  {
    if i: nat :| IsLastSeparator(target, column, i) {
      KeptIs(target, column, i);
      assert forall n :: 0 <= n < |target| && target[n] == '\0' ==> n != i;
      assert forall n :: 0 <= n < |target| && i < n ==> IsCutOff(target, column, n);
      assert forall n :: 0 <= n < i ==> !NoneAfter(target, column, n);
      assert forall n :: 0 <= n < i ==> target[..i + 1][n] == target[n];
    } else {
      KeptWhole(target, column);
      forall n | IsCutOff(target, column, n)
        ensures false
      {
        var i :| 1 <= i <= column && i < n && i < |target| && IsSeparator(target[i]);
        LastSeparatorExists(target, column, i);
      }
    }
  }

  /**
   The offset is the end of the text that is sent if and only if no line before the target line has
   a NUL, and every NUL of the target line is behind a separator in range that no other one follows.
   */
  lemma OffsetIsTheEndOfTheText(contents: string, line: unsigned, column: unsigned)
    requires |contents| < WORD && Hit(contents, line)
    ensures Offset(contents, line, column) == |CStr(CleanFile(contents, line, column))|
       <==> IsFreeOfNul(contents, line, column)
  {
    var lines, t := Lines(contents), TargetIndex(line);
    NothingWraps(contents, line, column);
    CStrLength(CleanFile(contents, line, column));
    NulInJoin(lines[..t]);
    NulInKept(lines[t], column);
    assert forall k :: 0 <= k < t ==> lines[..t][k] == lines[k];
  }

  /** The text can have a NUL, and the offset is then beyond the end of what is sent. */
  lemma NulCutsTheText()
    ensures Offset("\0", 1, 0) == 1 && CStr(CleanFile("\0", 1, 0)) == ""
  {
    OneLine("\0");
    assert ["\0"][..0] == [];
    KeptWhole("\0", 0);
  }

  /** A request for a line that is not positive is sent the whole buffer, and offset 0, if that is below 2 GiB. */
  lemma NonPositiveLineMisses(filename: string, line: int, column: int, files: seq<UnsavedFile>, flags: seq<string>)
    requires -0x8000_0000 <= line <= 0 && UnsavedInput(files, filename) != ""
             && |UnsavedInput(files, filename)| < 0x8000_0000
    ensures var contents, ctx := UnsavedInput(files, filename), ContextFor(filename, line, column, files, flags);
            && Offset(contents, ctx.line, ctx.column) == 0
            && CleanFile(contents, ctx.line, ctx.column) == Terminated(contents)
  {
    var contents := UnsavedInput(files, filename);
    LinesAreFew(contents);
    if line < 0 {
      WrapNegative(line);
    }
    MissKeepsTheBuffer(contents, Wrap(line), Wrap(column));
  }

  /** A request for a negative column is one for the end of the line: it is cut after its very last separator. */
  lemma NegativeColumnMeansLineEnd(filename: string, line: int, column: int, files: seq<UnsavedFile>,
                                   flags: seq<string>)
    requires -0x8000_0000 <= column < 0 && |UnsavedInput(files, filename)| < 0x8000_0000
    ensures var contents, ctx := UnsavedInput(files, filename), ContextFor(filename, line, column, files, flags);
            && CleanFile(contents, ctx.line, ctx.column) == CleanFile(contents, ctx.line, |contents|)
            && Offset(contents, ctx.line, ctx.column) == Offset(contents, ctx.line, |contents|)
  {
    var contents, t := UnsavedInput(files, filename), TargetIndex(Wrap(line));
    WrapNegative(column);
    if t < |Lines(contents)| {
      var rest := SplitAtLine(contents, t);
      ColumnsPastTheEndAgree(Lines(contents)[t], Wrap(column), |contents|);
    }
  }

  lemma ColumnsPastTheEndAgree(text: string, a: nat, b: nat)
    requires |text| <= a && |text| <= b
    ensures Kept(text, a) == Kept(text, b)
  {
    forall i: nat
      ensures IsLastSeparator(text, a, i) <==> IsLastSeparator(text, b, i)
    {
    }
    if i: nat :| IsLastSeparator(text, a, i) {
      KeptIs(text, a, i);
      KeptIs(text, b, i);
    } else {
      KeptWhole(text, a);
      KeptWhole(text, b);
    }
  }
}
