/** The bounded end-of-stream sink: fixed chunks, an absolute deadline, an immediate stop on overrun. */
module Sink {
  import opened Common

  datatype Status = OK | MISMATCH | OVERRUN | TIMEOUT | NO_EOF | IO

  datatype SinkResult = SinkResult(status: Status, count: int)

  /** One port read: bytes, end of stream, a timeout or any other failure (mistyped data included). */
  datatype Piece = Data(bytes: seq<int>) | End | Late | Broken

  /** The reader end of the pair. `rest` is what the writer sent and the sink has not yet seen. */
  class Source {
    ghost var rest: seq<int>
    /** Set once a read does something other than hand over the next bytes or the true end. */
    ghost var disturbed: bool
    /** The largest amount ever asked for. */
    ghost var asked: int

    constructor (ghost stream: seq<int>)
      ensures rest == stream && !disturbed && asked == 0
    {
      rest, disturbed, asked := stream, false, 0;
    }

    method Read(limit: int) returns (p: Piece)
      modifies this
      ensures asked == if limit > old(asked) then limit else old(asked)
      ensures !disturbed ==> !old(disturbed) && (p.End? || p.Data?)
      ensures !disturbed && p.End? ==> old(rest) == [] && rest == []
      ensures !disturbed && p.Data? ==> 0 < |p.bytes| <= limit && old(rest) == p.bytes + rest
    {
      asked := if limit > asked then limit else asked;
      p := *;
      ghost var honest := *;
      if honest && p.End? && rest == [] {
      } else if honest && p.Data? && 0 < |p.bytes| <= limit && p.bytes <= rest {
        rest := rest[|p.bytes|..];
      } else {
        disturbed := true;
      }
    }
  }

  method Monotonic() returns (t: real) { t := *; }

  /** What the sink concludes from a whole stream, however it is cut. */
  function Verdict(stream: seq<int>, expectedBytes: int, expectedSha: string, cap: int, sha: seq<int> -> string): SinkResult {
    if |stream| > cap then SinkResult(OVERRUN, cap + 1)
    else if |stream| == expectedBytes && sha(stream) == expectedSha then SinkResult(OK, |stream|)
    else SinkResult(MISMATCH, |stream|)
  }

  /** `sha` stands for the digest of the bytes fed so far. */
  method Drain(source: Source, expectedBytes: int, expectedSha: string, cap: nat, chunk: nat, deadline: real,
               sha: seq<int> -> string)
    returns (r: SinkResult, ghost intervened: bool)
    requires !source.disturbed && source.asked == 0
    modifies source
    ensures source.asked <= cap + 1 && source.asked <= chunk && 0 <= r.count <= cap + 1
    ensures !intervened && !source.disturbed ==> r == Verdict(old(source.rest), expectedBytes, expectedSha, cap, sha)
    ensures intervened <==> r.status == TIMEOUT
    ensures r.status == NO_EOF || r.status == IO ==> source.disturbed
  {
    var digest: seq<int> := [];
    var count := 0;
    intervened := false;
    while true
      invariant 0 <= count <= cap && count == |digest|
      invariant source.asked <= cap + 1 && source.asked <= chunk
      invariant !intervened
      invariant !source.disturbed ==> old(source.rest) == digest + source.rest
      decreases cap - count
    {
      var now := Monotonic();
      if now >= deadline {
        intervened := true;
        return SinkResult(TIMEOUT, count), true;
      }
      var limit := Min(chunk, cap + 1 - count);
      var data := source.Read(limit);
      if data.Late? { return SinkResult(NO_EOF, count), false; }
      if data.Broken? { return SinkResult(IO, count), false; }
      now := Monotonic();
      var expired := now >= deadline;
      if data.End? {
        if expired { return SinkResult(TIMEOUT, count), true; }
        assert !source.disturbed ==> digest + [] == digest;
        var matched := count == expectedBytes && sha(digest) == expectedSha;
        return SinkResult(if matched then OK else MISMATCH, count), false;
      }
      if !(0 < |data.bytes| <= limit) { return SinkResult(IO, count), false; }
      if expired { return SinkResult(TIMEOUT, Min(count + |data.bytes|, cap + 1)), true; }
      count := count + |data.bytes|;
      if count > cap { return SinkResult(OVERRUN, cap + 1), false; }
      digest := digest + data.bytes;
    }
  }
}
