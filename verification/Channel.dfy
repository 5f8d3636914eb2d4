/** Bounded newline framing over a nonblocking pipe, however the reads cut the stream. */
module Channel {
  import T = Text

  const LINE_BYTES := 4096
  const GUARD_BYTES := 8192

  /** What one turn of the loop meets. The end of the script is the end of the stream. */
  datatype Turn = Chunk(bytes: string) | Interrupted | NotReady | Late

  datatype Taken = Line(text: string) | Eof | ProtocolFault | DeadlineFault

  predicate Honest(turns: seq<Turn>) {
    forall i :: 0 <= i < |turns| && turns[i].Chunk? ==> 1 <= |turns[i].bytes| <= LINE_BYTES
  }

  function Bytes(turns: seq<Turn>): string {
    if turns == [] then "" else (if turns[0].Chunk? then turns[0].bytes else "") + Bytes(turns[1..])
  }

  predicate Timely(turns: seq<Turn>) { forall i :: 0 <= i < |turns| ==> !turns[i].NotReady? && !turns[i].Late? }

  // ---------------------------------------------------------------- what the stream says

  /** The next read of a stream, by its bytes alone. */
  function NextRead(s: string): Taken {
    var n := T.Find(s, '\n');
    if n < |s| && n < LINE_BYTES then Line(s[..n + 1]) else if s == [] then Eof else ProtocolFault
  }

  /** All lines of a stream and how reading them ends. */
  function Framing(s: string): (seq<string>, Taken)
    decreases |s|
  {
    var next := NextRead(s);
    if !next.Line? then ([], next)
    else
      var later := Framing(s[|next.text|..]);
      ([next.text] + later.0, later.1)
  }

  predicate IsLine(s: string) { 1 <= |s| <= LINE_BYTES && s[|s| - 1] == '\n' && '\n' !in s[..|s| - 1] }

  function Joined(lines: seq<string>): string {
    if lines == [] then "" else lines[0] + Joined(lines[1..])
  }

  lemma LineRead(line: string, rest: string)
    requires IsLine(line)
    ensures NextRead(line + rest) == Line(line) && (line + rest)[|line|..] == rest
  {
    var head := line[..|line| - 1];
    assert line + rest == head + "\n" + rest;
    T.FindOf(head, "\n", rest);
    assert (line + rest)[..|line|] == line;
  }

  lemma ReadsLine(s: string)
    requires NextRead(s).Line?
    ensures IsLine(NextRead(s).text) && NextRead(s).text <= s
  {
    var text := NextRead(s).text;
    assert text[..|text| - 1] == s[..T.Find(s, '\n')];
  }

  lemma FramingStep(s: string)
    ensures var next := NextRead(s);
      if next.Line? then 1 <= |next.text| <= |s|
        && Framing(s) == ([next.text] + Framing(s[|next.text|..]).0, Framing(s[|next.text|..]).1)
      else Framing(s) == ([], next)
  {
  }

  predicate AllLines(lines: seq<string>) { forall i :: 0 <= i < |lines| ==> IsLine(lines[i]) }

  lemma OneMoreLine(line: string, lines: seq<string>)
    requires IsLine(line) && AllLines(lines)
    ensures AllLines([line] + lines) && Joined([line] + lines) == line + Joined(lines)
  {
    assert ([line] + lines)[1..] == lines;
  }

  /** Framing ends cleanly exactly on the bounded lines of the stream, each of them once and in order. */
  lemma {:induction false} FramingIff(s: string, lines: seq<string>)
    ensures Framing(s) == (lines, Eof) <==> s == Joined(lines) && AllLines(lines)
    decreases |lines|
  {
    FramingStep(s);
    EmptyReads(s);
    if lines == [] {
      assert Joined(lines) == "";
      hide NextRead, Framing, IsLine;
    } else {
      var line, rest := lines[0], Joined(lines[1..]);
      assert lines == [line] + lines[1..];
      hide NextRead, Framing, IsLine;
      var next := NextRead(s);
      if Framing(s) == (lines, Eof) {
        ReadsLine(s);
        assert lines[1..] == Framing(s[|next.text|..]).0;
        FramingIff(s[|next.text|..], lines[1..]);
        OneMoreLine(line, lines[1..]);
        assert s == next.text + s[|next.text|..];
      }
      if s == Joined(lines) && AllLines(lines) {
        LineRead(line, rest);
        assert AllLines(lines[1..]);
        FramingIff(rest, lines[1..]);
      }
    }
  }

  lemma EmptyReads(s: string)
    ensures NextRead(s).Eof? <==> s == ""
  {
  }

  /** What follows the last line cannot become one: it starts with too many bytes that are no newline, or ends without one. */
  predicate Unframed(rest: string) { rest != "" && forall i :: 0 <= i < |rest| && i < LINE_BYTES ==> rest[i] != '\n' }

  lemma RefusedRead(s: string)
    requires NextRead(s).ProtocolFault?
    ensures Unframed(s)
  {
    forall i | 0 <= i < |s| && i < LINE_BYTES ensures s[i] != '\n' {
      assert i < T.Find(s, '\n') && s[..T.Find(s, '\n')][i] == s[i];
    }
  }

  /** A refused stream: some bounded lines, then a line too long or a tail without its newline. */
  lemma {:induction false} FramingRefuses(s: string) returns (rest: string)
    ensures Framing(s).1.Eof? || Framing(s).1.ProtocolFault?
    ensures AllLines(Framing(s).0) && s == Joined(Framing(s).0) + rest
    ensures if Framing(s).1.Eof? then rest == "" else Unframed(rest)
    decreases |s|
  {
    FramingStep(s);
    EmptyReads(s);
    var next := NextRead(s);
    if next.Line? {
      ReadsLine(s);
      hide NextRead, Framing, IsLine, Unframed;
      var tail := s[|next.text|..];
      rest := FramingRefuses(tail);
      OneMoreLine(next.text, Framing(tail).0);
      assert s == next.text + tail;
      T.Associative(next.text, Joined(Framing(tail).0), rest);
    } else {
      if next.ProtocolFault? {
        RefusedRead(s);
      }
      rest := s;
      assert Joined([]) + rest == s;
    }
  }

  // ---------------------------------------------------------------- the reader

  class Pipe {
    var buffer: string
    var turns: seq<Turn>

    ghost function Pending(): string
      reads this
    {
      buffer + Bytes(turns)
    }

    constructor (turns: seq<Turn>)
      ensures buffer == "" && this.turns == turns
    {
      buffer, this.turns := "", turns;
    }

    /**
      One read. Unless time runs out, its answer is a function of the bytes still to come, and
      what is left is the rest of them. The last guard on the buffer never fires.
    */
    method Read() returns (r: Taken)
      requires Honest(turns)
      modifies this
      ensures Honest(turns)
      ensures !r.DeadlineFault? ==> r == NextRead(old(Pending()))
      ensures r.Line? ==> Pending() == old(Pending())[|r.text|..]
      ensures r.DeadlineFault? ==> !Timely(old(turns))
      ensures |turns| <= |old(turns)| && (Timely(old(turns)) ==> Timely(turns))
    {
      hide T.Find, NextRead, Bytes;
      while true
        invariant Honest(turns) && Pending() == old(Pending())
        invariant |turns| <= |old(turns)| && (Timely(old(turns)) ==> Timely(turns))
        decreases |turns|
      {
        if turns != [] && turns[0].Late? {
          return DeadlineFault;
        }
        var n := T.Find(buffer, '\n');
        if n < |buffer| {
          FoundNewline(buffer, Bytes(turns));
          var end := n + 1;
          if end > LINE_BYTES {
            return ProtocolFault;
          }
          r := Line(buffer[..end]);
          buffer := buffer[end..];
          return;
        }
        NoNewline(buffer, Bytes(turns));
        if |buffer| >= LINE_BYTES {
          return ProtocolFault;
        }
        NextBytes(turns);
        if turns == [] {
          assert buffer + "" == buffer;
          return if buffer != "" then ProtocolFault else Eof;
        }
        var turn := turns[0];
        if turn.NotReady? {
          return DeadlineFault;
        }
        turns := turns[1..];
        if turn.Chunk? {
          T.Associative(buffer, turn.bytes, Bytes(turns));
          buffer := buffer + turn.bytes;
          assert |buffer| <= GUARD_BYTES;
        }
      }
    }

    /** Reads until there is no further line: how the stream was cut makes no difference. */
    method ReadAll() returns (lines: seq<string>, end: Taken)
      requires Honest(turns)
      modifies this
      ensures !end.DeadlineFault? ==> (lines, end) == Framing(old(Pending()))
      ensures Timely(old(turns)) ==> !end.DeadlineFault?
    {
      hide NextRead;
      lines, end := [], Line("");
      ghost var all := Pending();
      assert lines + Framing(all).0 == Framing(all).0;
      while true
        invariant Honest(turns) && (Timely(old(turns)) ==> Timely(turns))
        invariant Framing(all) == (lines + Framing(Pending()).0, Framing(Pending()).1)
        decreases |Pending()|
      {
        ghost var before := Pending();
        FramingStep(before);
        end := Read();
        if !end.Line? {
          assert lines + [] == lines;
          return;
        }
        assert lines + ([end.text] + Framing(Pending()).0) == (lines + [end.text]) + Framing(Pending()).0;
        lines := lines + [end.text];
      }
    }
  }

  lemma NextBytes(turns: seq<Turn>)
    ensures Bytes(turns) == if turns == [] then "" else if turns[0].Chunk? then turns[0].bytes + Bytes(turns[1..]) else Bytes(turns[1..])
  {
    if turns != [] {
      assert "" + Bytes(turns[1..]) == Bytes(turns[1..]);
    }
  }

  /** With a newline in the buffer the next read is settled. */
  lemma FoundNewline(buffer: string, later: string)
    requires T.Find(buffer, '\n') < |buffer|
    ensures var end := T.Find(buffer, '\n') + 1;
      && NextRead(buffer + later) == (if end <= LINE_BYTES then Line(buffer[..end]) else ProtocolFault)
      && (buffer + later)[end..] == buffer[end..] + later
  {
    hide T.Find;
    var n := T.Find(buffer, '\n');
    T.FindEarly(buffer, later, '\n');
    T.CutEarly(buffer, later, n + 1);
    assert NextRead(buffer + later) == if n < LINE_BYTES then Line((buffer + later)[..n + 1]) else ProtocolFault;
  }

  /** Without one, too long a buffer is refused, and so is any bytes at the end of the stream. */
  lemma NoNewline(buffer: string, later: string)
    requires T.Find(buffer, '\n') == |buffer|
    ensures |buffer| >= LINE_BYTES ==> NextRead(buffer + later).ProtocolFault?
    ensures NextRead(buffer) == if buffer != "" then ProtocolFault else Eof
  {
    hide T.Find;
    var n, all := T.Find(buffer + later, '\n'), buffer + later;
    assert buffer[..|buffer|] == buffer;
    forall i | 0 <= i < |buffer| ensures all[i] != '\n' {
      assert all[i] == buffer[i] && buffer[i] in buffer;
    }
  }

  /** One write attempt: how many bytes the system took, or a retry, or nothing in time. */
  datatype Attempt = Took(count: int) | Retry | TooLate

  /** Bytes taken before the attempts run out, come too late or claim a count that cannot be. */
  function BytesTaken(left: nat, attempts: seq<Attempt>): (n: nat)
    ensures n <= left
  {
    if left == 0 || attempts == [] then 0
    else
      match attempts[0]
      case Took(count) => if 0 < count <= left then count + BytesTaken(left - count, attempts[1..]) else 0
      case Retry => BytesTaken(left, attempts[1..])
      case TooLate => 0
  }

  /** Exactly the bytes the attempts take are written, in order, and it is a success when they are all. */
  method WriteAll(raw: string, attempts: seq<Attempt>) returns (written: string, ok: bool)
    ensures written == raw[..BytesTaken(|raw|, attempts)]
    ensures ok <==> written == raw
  {
    written, ok := "", false;
    var offset, k := 0, 0;
    assert attempts[0..] == attempts;
    while offset < |raw|
      invariant 0 <= offset <= |raw| && 0 <= k <= |attempts| && written == raw[..offset]
      invariant BytesTaken(|raw|, attempts) == offset + BytesTaken(|raw| - offset, attempts[k..])
      decreases |attempts| - k
    {
      if k == |attempts| || attempts[k].TooLate? {
        return;
      }
      assert attempts[k..][1..] == attempts[k + 1..];
      if attempts[k].Took? {
        var count := attempts[k].count;
        if !(0 < count <= |raw| - offset) {
          return;
        }
        written := written + raw[offset..offset + count];
        offset := offset + count;
      }
      k := k + 1;
    }
    ok := true;
  }
}
