/** The writer that puts the worker's id in front of every log line: it gets a byte stream cut
    into arbitrary writes, looks for line ends and buffers. */
module LogWriter {

  newtype Byte = x: int | 0 <= x < 256

  const NEWLINE: Byte := 10

  /** "[worker:", the id and "] ". */
  function PrefixOf(id: seq<Byte>): (p: seq<Byte>)
    ensures |p| == |id| + 10 && p[0] != NEWLINE
  {
    [91, 119, 111, 114, 107, 101, 114, 58] + id + [93, 32]
  }

  /** The same as text. */
  lemma PrefixReads(id: seq<Byte>)
    ensures var p := PrefixOf(id);
      && Spells(p[..8], "[worker:") && p[8..|p| - 2] == id && Spells(p[|p| - 2..], "] ")
  {
    var p := PrefixOf(id);
    assert p[..8] == [91, 119, 111, 114, 107, 101, 114, 58];
    assert p[|p| - 2..] == [93, 32];
  }

  predicate Spells(bytes: seq<Byte>, text: string) {
    |bytes| == |text| && forall i :: 0 <= i < |text| ==> bytes[i] as int == text[i] as int
  }

  // ----- the byte-by-byte form

  /** The prefix goes before the first byte of each line that is not blank. */
  function Prefixed(prefix: seq<Byte>, atStart: bool, s: seq<Byte>): seq<Byte>
    decreases |s|
  {
    if s == [] then []
    else (if atStart && s[0] != NEWLINE then prefix else []) + [s[0]] + Prefixed(prefix, s[0] == NEWLINE, s[1..])
  }

  /** Whether the next byte starts a line. */
  function StartAfter(atStart: bool, s: seq<Byte>): bool {
    if s == [] then atStart else s[|s| - 1] == NEWLINE
  }

  /** Reads prefixed lines back. */
  function Stripped(width: nat, atStart: bool, s: seq<Byte>): seq<Byte>
    decreases |s|
  {
    if s == [] then []
    else if atStart && s[0] != NEWLINE then
      if |s| <= width then [] else [s[width]] + Stripped(width, s[width] == NEWLINE, s[width + 1..])
    else [s[0]] + Stripped(width, s[0] == NEWLINE, s[1..])
  }

  lemma {:induction false} PrefixedAppend(prefix: seq<Byte>, atStart: bool, a: seq<Byte>, b: seq<Byte>)
    ensures Prefixed(prefix, atStart, a + b) ==
      Prefixed(prefix, atStart, a) + Prefixed(prefix, StartAfter(atStart, a), b)
    decreases |a|
  {
    if a == [] {
      assert a + b == b;
    } else {
      assert (a + b)[1..] == a[1..] + b;
      PrefixedAppend(prefix, a[0] == NEWLINE, a[1..], b);
      assert StartAfter(atStart, a) == StartAfter(a[0] == NEWLINE, a[1..]);
    }
  }

  /** A piece without a line end is copied as it is, behind the prefix if it starts a line. */
  lemma {:induction false} PieceOfLine(prefix: seq<Byte>, atStart: bool, s: seq<Byte>)
    requires NEWLINE !in s
    ensures Prefixed(prefix, atStart, s) == (if atStart && s != [] then prefix else []) + s
    decreases |s|
  {
    if s != [] {
      PieceOfLine(prefix, false, s[1..]);
      assert s == [s[0]] + s[1..];
    }
  }

  lemma WholeLine(prefix: seq<Byte>, atStart: bool, s: seq<Byte>)
    requires s != [] && s[|s| - 1] == NEWLINE && NEWLINE !in s[..|s| - 1]
    ensures Prefixed(prefix, atStart, s) == (if atStart && |s| > 1 then prefix else []) + s
  {
    var n := |s| - 1;
    assert s == s[..n] + [NEWLINE];
    PrefixedAppend(prefix, atStart, s[..n], [NEWLINE]);
    PieceOfLine(prefix, atStart, s[..n]);
    assert Prefixed(prefix, StartAfter(atStart, s[..n]), [NEWLINE]) == [NEWLINE];
  }

  /** What one piece adds to the output. */
  lemma AppendPiece(prefix: seq<Byte>, input: seq<Byte>, piece: seq<Byte>, inner: seq<Byte>, buffer: seq<Byte>)
    requires inner + buffer == Prefixed(prefix, true, input)
    requires piece != [] && NEWLINE !in piece[..|piece| - 1]
    ensures var opens := StartAfter(true, input) && (piece[|piece| - 1] == NEWLINE ==> |piece| > 1);
      inner + (if opens then buffer + prefix + piece else buffer + piece) == Prefixed(prefix, true, input + piece)
    ensures StartAfter(true, input + piece) == (piece[|piece| - 1] == NEWLINE)
  {
    PrefixedAppend(prefix, true, input, piece);
    PieceOut(prefix, StartAfter(true, input), piece);
    Regroup(inner, buffer, prefix, piece);
    Regroup(inner, buffer, [], piece);
    assert buffer + [] == buffer;
  }

  lemma Regroup(inner: seq<Byte>, buffer: seq<Byte>, head: seq<Byte>, piece: seq<Byte>)
    ensures inner + (buffer + head + piece) == (inner + buffer) + (head + piece)
  {
  }

  lemma PieceOut(prefix: seq<Byte>, atStart: bool, piece: seq<Byte>)
    requires piece != [] && NEWLINE !in piece[..|piece| - 1]
    ensures Prefixed(prefix, atStart, piece) ==
      (if atStart && (piece[|piece| - 1] == NEWLINE ==> |piece| > 1) then prefix else []) + piece
  {
    if piece[|piece| - 1] == NEWLINE {
      WholeLine(prefix, atStart, piece);
    } else {
      assert piece == piece[..|piece| - 1] + [piece[|piece| - 1]];
      PieceOfLine(prefix, atStart, piece);
    }
  }

  /** Taking the prefixes away recovers the input. */
  lemma {:induction false} StripPrefixed(prefix: seq<Byte>, atStart: bool, s: seq<Byte>)
    requires prefix != [] && prefix[0] != NEWLINE
    ensures Stripped(|prefix|, atStart, Prefixed(prefix, atStart, s)) == s
    decreases |s|
  {
    if s != [] {
      var rest := Prefixed(prefix, s[0] == NEWLINE, s[1..]);
      StripPrefixed(prefix, s[0] == NEWLINE, s[1..]);
      var out := Prefixed(prefix, atStart, s);
      if atStart && s[0] != NEWLINE {
        assert out == prefix + [s[0]] + rest;
        assert out[0] == prefix[0] && out[|prefix|] == s[0] && out[|prefix| + 1..] == rest;
      } else {
        assert out == [s[0]] + rest && out[1..] == rest;
      }
    }
  }

  // ----- the writer

  datatype Op = Write(bytes: seq<Byte>) | Flush

  function Written(ops: seq<Op>): seq<Byte> {
    if ops == [] then []
    else Written(ops[..|ops| - 1]) + (if ops[|ops| - 1].Write? then ops[|ops| - 1].bytes else [])
  }

  /** `inner` is what was delivered so far; `input` is everything written by the caller. */
  class WorkerIdWriter {
    var inner: seq<Byte>
    const prefix: seq<Byte>
    var atLineStart: bool
    var buffer: seq<Byte>
    ghost var input: seq<Byte>

    /** Delivered and buffered bytes are the prefixed input, and between lines the buffer is
        no longer than 4096 bytes. */
    ghost predicate Valid()
      reads this
    {
      && inner + buffer == Prefixed(prefix, true, input)
      && atLineStart == StartAfter(true, input)
      && (atLineStart ==> |buffer| <= 4096)
      && prefix != [] && prefix[0] != NEWLINE
    }

    constructor (id: seq<Byte>)
      ensures Valid() && input == [] && inner == [] && prefix == PrefixOf(id)
    {
      prefix := PrefixOf(id);
      inner, atLineStart, buffer, input := [], true, [], [];
    }

    method FlushBuffer()
      modifies this`inner, this`buffer
      ensures inner == old(inner) + old(buffer) && buffer == []
    {
      if buffer != [] {
        inner := inner + buffer;
        buffer := [];
      }
    }

    /** Appends a line, or a piece of one, to the buffer. */
    method Append(piece: seq<Byte>)
      requires inner + buffer == Prefixed(prefix, true, input) && atLineStart == StartAfter(true, input)
      requires piece != [] && NEWLINE !in piece[..|piece| - 1]
      modifies this
      ensures inner + buffer == Prefixed(prefix, true, input) && atLineStart == StartAfter(true, input)
      ensures input == old(input) + piece
    {
      AppendPiece(prefix, input, piece, inner, buffer);
      if atLineStart && (piece[|piece| - 1] == NEWLINE ==> |piece| > 1) { buffer := buffer + prefix; }
      buffer := buffer + piece;
      atLineStart := piece[|piece| - 1] == NEWLINE;
      input := input + piece;
    }

    method Write(bytes: seq<Byte>) returns (n: nat)
      requires Valid()
      modifies this
      ensures Valid() && input == old(input) + bytes && n == |bytes|
    {
      var done := 0;
      while done < |bytes|
        invariant done <= |bytes| && Valid() && input == old(input) + bytes[..done]
      {
        var pos := Position(bytes[done..]);
        var next := if pos.Found? then done + pos.index + 1 else |bytes|;
        assert bytes[done..next][..next - done - 1] == bytes[done..][..next - done - 1];
        assert bytes[..next] == bytes[..done] + bytes[done..next];
        Append(bytes[done..next]);
        if pos.Found? && |buffer| > 4096 {
          FlushBuffer();
        }
        done := next;
      }
      assert bytes[..done] == bytes;
      n := |bytes|;
    }

    method Flush()
      requires Valid()
      modifies this`inner, this`buffer
      ensures Valid() && buffer == [] && inner == Prefixed(prefix, true, input)
    {
      FlushBuffer();
      assert inner + buffer == inner;
    }

    /** Chunk independence: however the input is cut into writes and wherever the caller
        flushes, what arrives once the writer is dropped depends on the bytes alone. */
    method Session(ops: seq<Op>)
      requires Valid() && input == []
      modifies this
      ensures inner == Prefixed(prefix, true, Written(ops)) && buffer == []
      ensures Stripped(|prefix|, true, inner) == Written(ops)
    {
      for i := 0 to |ops|
        invariant Valid() && input == Written(ops[..i])
      {
        assert ops[..i + 1][..i] == ops[..i];
        match ops[i] {
          case Write(bytes) => var _ := Write(bytes);
          case Flush => Flush();
        }
      }
      assert ops[..|ops|] == ops;
      Flush();
      StripPrefixed(prefix, true, input);
    }
  }

  datatype Search = Found(index: nat) | Missing

  /** The first line end. */
  method Position(s: seq<Byte>) returns (r: Search)
    ensures r.Found? ==> r.index < |s| && s[r.index] == NEWLINE && NEWLINE !in s[..r.index]
    ensures r.Missing? <==> NEWLINE !in s
  {
    var i := 0;
    while i < |s|
      invariant i <= |s| && NEWLINE !in s[..i]
    {
      if s[i] == NEWLINE { return Found(i); }
      assert s[..i + 1] == s[..i] + [s[i]];
      i := i + 1;
    }
    assert s[..i] == s;
    r := Missing;
  }
}
