/**
 `file_body::writer`: a file sent as the body of an HTTP message, one buffer at a time.  The C
 library's stream is a model of its own: it reads what is there, and it may fail at any read.
 */
module FileBody {
  import opened Wrappers

  type byte = bv8

  const BUFFER_SIZE := 4096

  /** A `FILE *` source for reading; its file does not change while it is open. */
  class FileStream {
    const content: seq<byte>
    var pos: nat
    var error: bool

    ghost predicate Valid()
      reads this
    {
      pos <= |content|
    }

    constructor (content: seq<byte>)
      ensures Valid() && this.content == content && pos == 0 && !error
    {
      this.content := content;
      pos, error := 0, false;
    }

    /**
     `fread(buf, 1, sizeof(buf), file)`.  If the device lets it down, `failure` is how many bytes it
     could still deliver, and these are delivered.
     */
    method Read(buf: array<byte>, failure: Option<nat>) returns (nread: nat)
      requires Valid()
      modifies this, buf
      ensures Valid() && error == (old(error) || failure.Some?)
      ensures pos == old(pos) + nread
      ensures nread == Min(if failure.Some? then failure.value else buf.Length, Min(buf.Length, |content| - old(pos)))
      ensures nread <= buf.Length && pos <= |content| && buf[..nread] == content[old(pos)..pos]
    {
      nread := 0;
      while nread < buf.Length && pos < |content| && failure != Some(nread)
        invariant Valid() && nread <= buf.Length && pos == old(pos) + nread && error == old(error)
        invariant failure.Some? ==> nread <= failure.value
        invariant buf[..nread] == content[old(pos)..pos]
      {
        buf[nread] := content[pos];
        assert buf[..nread + 1] == buf[..nread] + [content[pos]];
        assert content[old(pos)..pos + 1] == content[old(pos)..pos] + [content[pos]];
        nread := nread + 1;
        pos := pos + 1;
      }
      if failure.Some? {
        error := true;
      }
    }
  }

  function Min(a: int, b: int): int {
    if a < b then a else b
  }

  /** How `write` ends: more to come, the last chunk sent, a read error, or a failed assertion. */
  datatype Outcome = More | Last | ReadError | AssertionFailed

  /** What one call does when `offset` of the file's bytes have been sent. */
  function WriteOutcome(content: seq<byte>, offset: nat, fails: bool): Outcome
    requires offset <= |content|
  {
    if fails then ReadError
    else if offset == |content| then AssertionFailed
    else if offset + BUFFER_SIZE < |content| then More
    else Last
  }

  function NextOffset(content: seq<byte>, offset: nat): (next: nat)
    requires offset <= |content|
    ensures offset <= next <= |content| && next <= offset + BUFFER_SIZE
    ensures next == |content| || next == offset + BUFFER_SIZE
  {
    Min(offset + BUFFER_SIZE, |content|)
  }

  class Writer {
    var size: nat
    var offset: nat
    var file: FileStream?
    var buf: array<byte>
    var bufLen: nat

    ghost predicate Valid()
      reads this, file
    {
      && buf.Length == BUFFER_SIZE
      && offset <= size
      && (file != null ==> file.Valid() && file.pos == offset && size == |file.content| && !file.error)
    }

    constructor ()
      ensures Valid() && file == null && size == 0 && offset == 0 && fresh(buf)
    {
      size, offset, bufLen, file := 0, 0, 0, null;
      buf := new byte[BUFFER_SIZE];
    }

    /** `source` is what `fopen` finds. */
    method Init(source: Opened) returns (failed: bool)
      requires Valid() && file == null && size == 0 && offset == 0
      modifies this`file, this`size
      ensures Valid() && failed == source.Missing?
      ensures !failed ==> file != null && fresh(file) && file.content == source.content && size == |source.content|
      ensures failed ==> file == null && size == 0
    {
      if source.Missing? {
        return true;
      }
      file := new FileStream(source.content);
      size := |source.content|;
      return false;
    }

    method ContentLength() returns (n: nat)
      ensures n == size
    {
      n := size;
    }

    /** Sends the next chunk.  The length worked out beforehand is always the length that was read. */
    method Write(failure: Option<nat>) returns (outcome: Outcome, chunk: seq<byte>)
      requires Valid() && file != null
      modifies this`offset, this`bufLen, file, buf
      ensures outcome == WriteOutcome(file.content, old(offset), failure.Some?)
      ensures outcome.More? || outcome.Last? ==>
                && Valid()
                && offset == NextOffset(file.content, old(offset))
                && chunk == file.content[old(offset)..offset]
                && bufLen == |chunk| > 0
      ensures outcome.ReadError? || outcome.AssertionFailed? ==> chunk == [] && offset == old(offset)
    {
      chunk := [];
      // the difference of two unsigned numbers
      if size - offset < BUFFER_SIZE {
        bufLen := size - offset;
      } else {
        bufLen := BUFFER_SIZE;
      }
      var nread := file.Read(buf, failure);
      if file.error {
        return ReadError, chunk;
      }
      if nread == 0 {
        return AssertionFailed, chunk;
      }
      offset := offset + nread;
      chunk := buf[..nread];
      outcome := if offset >= size then Last else More;
    }

    /**
     What the HTTP library does with a writer: it calls `write` until that returns true.  Call
     number `k` meets with a read error if `failures(k)` says so, after that many bytes.
     */
    method Stream(failures: nat -> Option<nat>) returns (outcome: Outcome, chunks: seq<seq<byte>>)
      requires Valid() && file != null && offset == 0
      modifies this`offset, this`bufLen, file, buf
      ensures var content := file.content;
              && (outcome.Last? <==>
                    content != [] && forall k :: 0 <= k < (|content| + 4095) / 4096 ==> failures(k).None?)
              && (outcome.AssertionFailed? <==> content == [] && failures(0).None?)
              && (outcome.Last? ==> Concat(chunks) == content && |chunks| == (|content| + 4095) / 4096)
              && (forall k :: 0 <= k < |chunks| - 1 ==> |chunks[k]| == 4096)
              && (forall k :: 0 <= k < |chunks| ==> 0 < |chunks[k]| <= 4096)
              && (outcome.ReadError? ==> Concat(chunks) <= content && failures(|chunks|).Some?)
              && !outcome.More?
    {
      ghost var content := file.content;
      chunks := [];
      CallsSteps(|content|, 0);
      while true
        invariant Valid() && file != null && file.content == content
        invariant offset < |content| || |chunks| == 0
        invariant Concat(chunks) == content[..offset] && offset == Min(|chunks| * BUFFER_SIZE, |content|)
        invariant |chunks| + Calls(|content| - offset) == Calls(|content|)
        invariant forall k :: 0 <= k < |chunks| ==> failures(k).None? && |chunks[k]| == 4096
        decreases |content| - offset
      {
        ghost var sent := offset;
        var chunk;
        outcome, chunk := Write(failures(|chunks|));
        if outcome.ReadError? || outcome.AssertionFailed? {
          CallsSteps(|content|, sent);
          return;
        }
        CallsSteps(|content|, sent);
        ConcatAppend(chunks, chunk);
        assert content[..sent] + content[sent..offset] == content[..offset];
        chunks := chunks + [chunk];
        if outcome.Last? {
          assert content[..offset] == content;
          return;
        }
      }
    }
  }

  datatype Opened = Missing | Opened(content: seq<byte>)

  function Concat(chunks: seq<seq<byte>>): seq<byte> {
    if chunks == [] then [] else Concat(chunks[..|chunks| - 1]) + chunks[|chunks| - 1]
  }

  lemma ConcatAppend(chunks: seq<seq<byte>>, chunk: seq<byte>)
    ensures Concat(chunks + [chunk]) == Concat(chunks) + chunk
  {
    assert (chunks + [chunk])[..|chunks|] == chunks;
  }

  /** The number of buffers that `n` bytes fill, the last one perhaps not whole. */
  function Calls(n: nat): nat {
    (n + BUFFER_SIZE - 1) / BUFFER_SIZE
  }

  lemma CallsSteps(n: nat, offset: nat)
    requires offset <= n
    ensures Calls(0) == 0
    ensures offset < n ==> Calls(n - offset) == 1 + Calls(n - Min(offset + BUFFER_SIZE, n))
  {
    var rest := n - offset;
    if rest > BUFFER_SIZE {
      assert (rest + BUFFER_SIZE - 1) / BUFFER_SIZE == 1 + (rest - 1) / BUFFER_SIZE;
    }
  }

  /** Sending an empty file, without any read error: the assertion that something was read fails. */
  method SendEmptyFile() returns (outcome: Outcome)
    ensures outcome == AssertionFailed
  {
    var writer := new Writer();
    var failed := writer.Init(Opened([]));
    var chunks;
    outcome, chunks := writer.Stream(k => None);
  }
}
