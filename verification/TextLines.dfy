/**
 Reading a text line by line, as `std::getline` does on a `std::istringstream` ([string.io] of
 ISO/IEC 14882:2017): a newline ends a line and is dropped, and an empty remainder is no line.
 A `char` stands for one byte.
 */
module TextLines {

  /** The index of the first newline, or the length if there is none. */
  function FirstBreak(s: string): (k: nat)
    ensures k <= |s|
    ensures forall i :: 0 <= i < k ==> s[i] != '\n'
    ensures k < |s| ==> s[k] == '\n'
  {
    if s == "" || s[0] == '\n' then 0 else 1 + FirstBreak(s[1..])
  }

  function Lines(s: string): seq<string> {
    if s == "" then []
    else
      var k := FirstBreak(s);
      [s[..k]] + (if k == |s| then [] else Lines(s[k + 1..]))
  }

  /** Every line followed by a newline. */
  function Join(lines: seq<string>): string {
    if lines == [] then "" else lines[0] + "\n" + Join(lines[1..])
  }

  predicate IsLine(s: string) {
    forall i :: 0 <= i < |s| ==> s[i] != '\n'
  }

  predicate AreLines(lines: seq<string>) {
    forall k :: 0 <= k < |lines| ==> IsLine(lines[k])
  }

  /** A `std::istringstream` that only `std::getline` is used on. */
  class StringStream {
    const text: string
    var pos: nat
    var eof: bool
    var fail: bool

    ghost predicate Valid()
      reads this
    {
      pos <= |text| && (eof ==> pos == |text|) && (fail ==> eof)
    }

    ghost function Rest(): string
      requires Valid()
      reads this
    {
      text[pos..]
    }

    constructor (text: string)
      ensures Valid() && Rest() == text
    {
      this.text := text;
      pos, eof, fail := 0, false, false;
    }

    method GetLine() returns (ok: bool, line: string)
      requires Valid()
      modifies this
      ensures Valid()
      ensures ok <==> old(Rest()) != ""
      ensures ok ==> [line] + Lines(Rest()) == Lines(old(Rest()))
      ensures ok ==> |Rest()| < |old(Rest())|
    {
      ok, line := false, "";
      if eof || fail {
        // the stream is no longer good, so nothing is extracted
        fail := true;
        return;
      }
      var p, end := pos, false;
      while true
        invariant pos <= p <= |text| && line == text[pos..p] && IsLine(line)
        decreases |text| - p
      {
        if p == |text| {
          end := true;
          break;
        }
        var c := text[p];
        p := p + 1;
        if c == '\n' {
          break;
        }
        line := line + [c];
      }
      ok := pos < p;
      if ok {
        LineExtracted(text, pos, pos + |line|, p);
      }
      pos, eof, fail := p, end, !ok;
    }
  }

  /** The characters from `from` to `to` are the next line, and `pos` is behind it. */
  lemma LineExtracted(text: string, from: nat, to: nat, pos: nat)
    requires from <= to <= pos <= |text| && from < |text| && IsLine(text[from..to])
    requires if to < |text| then text[to] == '\n' && pos == to + 1 else pos == to
    ensures [text[from..to]] + Lines(text[pos..]) == Lines(text[from..])
  {
    var rest, n := text[from..], to - from;
    assert rest[..n] == text[from..to];
    BreakIsAt(rest, n);
    if n < |rest| {
      assert rest[n + 1..] == text[pos..];
    }
  }

  lemma BreakIsAt(s: string, k: nat)
    requires k <= |s| && (forall i :: 0 <= i < k ==> s[i] != '\n') && (k < |s| ==> s[k] == '\n')
    ensures FirstBreak(s) == k
  {
  }

  lemma OneLine(s: string)
    requires IsLine(s) && s != ""
    ensures Lines(s) == [s]
  {
    BreakIsAt(s, |s|);
    assert s[..|s|] == s;
  }

  lemma LinesCons(line: string, tail: string)
    requires IsLine(line)
    ensures Lines(line + "\n" + tail) == [line] + Lines(tail)
  {
    var s := line + "\n" + tail;
    BreakIsAt(s, |line|);
    assert s[..|line|] == line && s[|line| + 1..] == tail;
  }

  lemma {:induction false} LinesAreLines(s: string)
    ensures AreLines(Lines(s))
    decreases |s|
  {
    if s != "" && FirstBreak(s) < |s| {
      LinesAreLines(s[FirstBreak(s) + 1..]);
    }
  }

  /** There are no more lines than characters. */
  lemma {:induction false} LinesAreFew(s: string)
    ensures |Lines(s)| <= |s|
    decreases |s|
  {
    if s != "" && FirstBreak(s) < |s| {
      LinesAreFew(s[FirstBreak(s) + 1..]);
    }
  }

  lemma Regroup<T>(a: seq<T>, b: seq<T>, c: seq<T>)
    ensures (a + b) + c == a + (b + c)
  {
  }

  lemma {:induction false} JoinAppend(a: seq<string>, b: seq<string>)
    ensures Join(a + b) == Join(a) + Join(b)
  {
    if a == [] {
      assert a + b == b;
    } else {
      assert (a + b)[1..] == a[1..] + b;
      JoinAppend(a[1..], b);
    }
  }

  /** Whole lines at the beginning of a text are its first lines. */
  lemma {:induction false} LinesOfJoin(a: seq<string>, s: string)
    requires AreLines(a)
    ensures Lines(Join(a) + s) == a + Lines(s)
  {
    if a == [] {
      assert Join(a) + s == s;
    } else {
      calc {
        Lines(Join(a) + s);
      ==  { Regroup(a[0] + "\n", Join(a[1..]), s); }
        Lines(a[0] + "\n" + (Join(a[1..]) + s));
      ==  { LinesCons(a[0], Join(a[1..]) + s); }
        [a[0]] + Lines(Join(a[1..]) + s);
      ==  { LinesOfJoin(a[1..], s); }
        [a[0]] + (a[1..] + Lines(s));
      ==  { Regroup([a[0]], a[1..], Lines(s)); }
        ([a[0]] + a[1..]) + Lines(s);
      ==  { assert [a[0]] + a[1..] == a; }
        a + Lines(s);
      }
    }
  }

  lemma JoinCons(line: string, lines: seq<string>)
    ensures Join([line] + lines) == line + "\n" + Join(lines)
  {
    assert ([line] + lines)[1..] == lines;
  }

  lemma SliceCons<T>(x: T, xs: seq<T>, t: nat)
    requires 0 < t <= |xs|
    ensures ([x] + xs)[..t] == [x] + xs[..t - 1] && ([x] + xs)[t..] == xs[t - 1..] && ([x] + xs)[t] == xs[t - 1]
  {
  }

  lemma LinesUnfold(s: string)
    requires FirstBreak(s) < |s|
    ensures var k := FirstBreak(s);
            Lines(s) == [s[..k]] + Lines(s[k + 1..]) && s == s[..k] + "\n" + s[k + 1..]
  {
    var k := FirstBreak(s);
    SplitAround(s, k);
    LinesCons(s[..k], s[k + 1..]);
  }

  lemma SplitAround(s: string, k: nat)
    requires k < |s| && s[k] == '\n'
    ensures s == s[..k] + "\n" + s[k + 1..]
  {
  }

  /** A text is its first lines, then the rest of it; the rest begins with the next line. */
  lemma {:induction false} SplitAtLine(s: string, t: nat) returns (rest: string)
    requires t < |Lines(s)|
    ensures s == Join(Lines(s)[..t]) + rest
    ensures rest != "" && Lines(rest) == Lines(s)[t..] && Lines(s)[t] == rest[..FirstBreak(rest)]
    decreases t
  {
    if t == 0 {
      assert Lines(s)[..0] == [];
      rest := s;
    } else {
      var k := FirstBreak(s);
      var tail := s[k + 1..];
      LinesUnfold(s);
      rest := SplitAtLine(tail, t - 1);
      var first := Lines(tail)[..t - 1];
      SliceCons(s[..k], Lines(tail), t);
      JoinCons(s[..k], first);
      Regroup(s[..k] + "\n", Join(first), rest);
    }
  }

  /** Joining the lines of a text gives it back, with a final newline if it had none. */
  lemma {:induction false} JoinLines(s: string)
    ensures Join(Lines(s)) == Terminated(s)
    decreases |s|
  {
    if s != "" {
      var k := FirstBreak(s);
      if k < |s| {
        var tail := s[k + 1..];
        JoinLines(tail);
        LinesUnfold(s);
        JoinCons(s[..k], Lines(tail));
        LastLineEnds(s[..k], tail);
      } else {
        assert s[..k] == s;
        assert Lines(s) == [s];
        JoinCons(s, []);
        assert [s] + [] == [s] && s + "\n" + Join([]) == s + "\n";
      }
    }
  }

  /** `s`, with a final newline if it is not empty and has none. */
  function Terminated(s: string): string {
    if s == "" || s[|s| - 1] == '\n' then s else s + "\n"
  }

  lemma LastLineEnds(line: string, tail: string)
    ensures line + "\n" + Terminated(tail) == Terminated(line + "\n" + tail)
  {
    var s := line + "\n" + tail;
    if tail == "" {
      assert s == line + "\n";
    } else {
      assert s[|s| - 1] == tail[|tail| - 1];
    }
  }
}
