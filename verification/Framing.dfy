/** The framing of src/transport/transport.c: payloads end with a form feed, and the reader collects octets in
    a buffer that grows by 128. The stream is a byte stream with timeouts and a loss of the connection. */
module Framing {
  import opened Basics

  const EOT: Byte := 12
  const NUL: Byte := 0

  /** The steps of the growth of the buffer. */
  const OFFSET := 128

  datatype Event = Octet(c: Byte) | Timeout | Lost

  /** strchr on the terminator string also finds its final NUL. */
  predicate Ends(c: Byte) {
    c == EOT || c == NUL
  }

  predicate Clean(p: Bytes) {
    forall i :: 0 <= i < |p| ==> !Ends(p[i])
  }

  /** What one call of the reader does: the octets it consumed, with the ending one; how it ended; what the
      stream holds then. A stream without an event lets the wait time out. */
  datatype Taken = Taken(octets: Bytes, r: int, rest: seq<Event>)

  function Take(input: seq<Event>): (t: Taken)
    ensures t.r == 1 ==> t.octets != [] && Ends(t.octets[|t.octets| - 1]) && Clean(t.octets[..|t.octets| - 1])
    ensures t.r == 1 || t.r == -1 || t.r == -2
    ensures t.r == 1 ==> |t.rest| < |input|
  {
    if input == [] then Taken([], -2, [])
    else match input[0]
         case Timeout => Taken([], -2, input[1..])
         case Lost => Taken([], -1, input[1..])
         case Octet(c) =>
           if Ends(c) then Taken([c], 1, input[1..])
           else
             var t := Take(input[1..]);
             assert t.octets != [] ==> ([c] + t.octets)[..|t.octets|] == [c] + t.octets[..|t.octets| - 1];
             t.(octets := [c] + t.octets)
  }

  /** The reader has collected s before the rest t. */
  function After(s: Bytes, t: Taken): Taken {
    t.(octets := s + t.octets)
  }

  lemma TakeStep(s: Bytes, input: seq<Event>)
    ensures After([], Take(input)) == Take(input)
    ensures input == [] ==> After(s, Take(input)) == Taken(s, -2, [])
    ensures input != [] && input[0].Timeout? ==> After(s, Take(input)) == Taken(s, -2, input[1..])
    ensures input != [] && input[0].Lost? ==> After(s, Take(input)) == Taken(s, -1, input[1..])
    ensures input != [] && input[0].Octet? ==>
              var c := input[0].c;
              After(s, Take(input)) == if Ends(c) then Taken(s + [c], 1, input[1..])
                        else After(s + [c], Take(input[1..]))
  {
    assert s + [] == s && [] + Take(input).octets == Take(input).octets;
    if input != [] && input[0].Octet? {
      assert s + ([input[0].c] + Take(input[1..]).octets) == s + [input[0].c] + Take(input[1..]).octets;
    }
  }

  datatype Result = Payload(p: Bytes) | Failed | Disconnected

  /** transport_payload_read: the ending octet is dropped. */
  function ResultOf(t: Taken): Result
    requires t.r == 1 ==> t.octets != []
  {
    if t.r == 1 then Payload(t.octets[..|t.octets| - 1])
    else if t.r == -1 then Disconnected
    else Failed
  }

  class Flux {
    var input: seq<Event>
    var output: Bytes

    constructor (input: seq<Event>)
      ensures this.input == input && output == []
    {
      this.input, this.output := input, [];
    }

    /** One octet, or the code of a timeout or of a lost connection. */
    method Read() returns (r: int, c: Byte)
      modifies this`input
      ensures if old(input) == [] || old(input)[0].Timeout? then r == -2
              else if old(input)[0].Lost? then r == -1
              else r == 1 && c == old(input)[0].c
      ensures input == if old(input) == [] then [] else old(input)[1..]
    {
      r, c := -2, NUL;
      if input != [] {
        match input[0] {
          case Octet(x) => r, c := 1, x;
          case Lost => r := -1;
          case Timeout =>
        }
        input := input[1..];
      }
    }

    /** fluxreadterm_with_realloc with RSMP_EOT and nothing after it: every octet is stored inside the
        buffer, whatever its size has become. */
    method ReadTerm() returns (r: int, buf: array<Byte>, len: nat)
      modifies this`input
      ensures fresh(buf) && len <= buf.Length
      ensures Taken(buf[..len], r, input) == Take(old(input))
    {
      hide Take, After, Ends;
      var lenmax := OFFSET;
      buf := new Byte[lenmax];
      len := 0;
      TakeStep(buf[..0], input);
      while true
        invariant fresh(buf) && len <= lenmax == buf.Length
        invariant Take(old(input)) == After(buf[..len], Take(input))
        decreases |input|
      {
        ghost var was := buf[..len];
        TakeStep(was, input);
        var c;
        r, c := Read();
        if r == 1 {
          buf, lenmax := Grow(buf, len, lenmax);
          buf[len] := c;
          assert buf[..len + 1] == was + [c];
          len := len + 1;
          if Ends(c) { break; }
        } else {
          break;
        }
      }
    }

    /** bufrealloc. */
    method Grow(buf: array<Byte>, newSize: nat, max: nat) returns (grown: array<Byte>, newMax: nat)
      requires newSize <= max == buf.Length
      ensures newSize < newMax == grown.Length && grown[..newSize] == buf[..newSize]
      ensures newMax == if newSize < max then max else max + 128
      ensures grown == buf || fresh(grown)
    {
      grown, newMax := buf, max;
      if newSize >= max {
        newMax := max + OFFSET;
        grown := new Byte[newMax];
        forall i | 0 <= i < max { grown[i] := buf[i]; }
        assert grown[..newSize] == buf[..newSize];
      }
    }

    method ReadPayload() returns (result: Result)
      modifies this`input
      ensures result == ResultOf(Take(old(input))) && input == Take(old(input)).rest
    {
      var r, buf, len := ReadTerm();
      if r == -1 { return Disconnected; }
      if r <= 0 { return Failed; }
      buf[len - 1] := NUL;
      return Payload(buf[..len - 1]);
    }

    /** A write on the connection, which takes no more octets than it has room for, and none when it has failed. */
    method Write(buf: array<Byte>, len: nat, room: int) returns (n: int)
      requires len <= buf.Length
      modifies this`output
      ensures n == (if room < 0 then -1 else if room < len then room else len)
      ensures output == old(output) + buf[..if n < 0 then 0 else n]
    {
      if room < 0 {
        assert output + buf[..0] == output;
        return -1;
      }
      n := if room < len then room else len;
      output := output + buf[..n];
    }

    /** transport_payload_write: the payload and its form feed in one write. It succeeds exactly when the connection takes
        them all; otherwise what was taken stays on the wire. */
    method WritePayload(payload: Bytes, room: int) returns (ok: bool)
      modifies this`output
      ensures ok <==> room > |payload|
      ensures output == old(output) + if ok then payload + [12] else payload[..if room < 0 then 0 else room]
    {
      var len := |payload|;
      var buf := new Byte[len + 1];
      forall i | 0 <= i < len { buf[i] := payload[i]; }
      buf[len] := EOT;
      assert buf[..] == payload + [EOT];
      var n := Write(buf, len + 1, room);
      ok := n > 0 && n == len + 1;
      if ok {
        assert buf[..n] == buf[..];
      } else {
        assert buf[..if n < 0 then 0 else n] == payload[..if room < 0 then 0 else room];
      }
    }
  }

  // -------------------------------------------------------------------- results

  function Octets(s: Bytes): seq<Event> {
    seq(|s|, i requires 0 <= i < |s| => Octet(s[i]))
  }

  lemma {:induction false} TakeClean(s: Bytes, tail: seq<Event>)
    requires Clean(s)
    ensures Take(Octets(s) + tail) == Take(tail).(octets := s + Take(tail).octets)
    decreases |s|
  {
    if s == [] {
      assert Octets(s) + tail == tail && [] + Take(tail).octets == Take(tail).octets;
    } else {
      var input := Octets(s) + tail;
      assert input[0] == Octet(s[0]) && input[1..] == Octets(s[1..]) + tail;
      TakeClean(s[1..], tail);
      assert [s[0]] + (s[1..] + Take(tail).octets) == s + Take(tail).octets;
    }
  }

  /** A payload as the stream delivers it: the parts before each timeout, then the last part and its form
      feed. Without timeouts it is the payload itself. */
  datatype Frame = Frame(lost: seq<Bytes>, tail: Bytes)

  predicate GoodFrame(f: Frame) {
    Clean(f.tail) && forall i :: 0 <= i < |f.lost| ==> Clean(f.lost[i])
  }

  function Delivered(f: Frame): seq<Event>
    decreases |f.lost|
  {
    if f.lost == [] then Octets(f.tail) + [Octet(EOT)]
    else Octets(f.lost[0]) + [Timeout] + Delivered(Frame(f.lost[1..], f.tail))
  }

  function Stream(frames: seq<Frame>): seq<Event> {
    if frames == [] then [] else Delivered(frames[0]) + Stream(frames[1..])
  }

  /** What the reads of a frame give: a failure for each timeout, then the last part. */
  function Reads(f: Frame): seq<Result>
    decreases |f.lost|
  {
    if f.lost == [] then [Payload(f.tail)] else [Failed] + Reads(Frame(f.lost[1..], f.tail))
  }

  function AllReads(frames: seq<Frame>): seq<Result> {
    if frames == [] then [] else Reads(frames[0]) + AllReads(frames[1..])
  }

  /** The results of n successive reads, and the stream after them. */
  function ReadAll(n: nat, input: seq<Event>): (seq<Result>, seq<Event>) {
    if n == 0 then ([], input)
    else
      var t := Take(input);
      var (more, rest) := ReadAll(n - 1, t.rest);
      ([ResultOf(t)] + more, rest)
  }

  lemma TakeTimeout(s: Bytes, tail: seq<Event>)
    requires Clean(s)
    ensures Take(Octets(s) + [Timeout] + tail) == Taken(s, -2, tail)
  {
    assert Octets(s) + [Timeout] + tail == Octets(s) + ([Timeout] + tail);
    TakeClean(s, [Timeout] + tail);
    assert ([Timeout] + tail)[1..] == tail;
  }

  lemma TakeFrame(s: Bytes, tail: seq<Event>)
    requires Clean(s)
    ensures Take(Octets(s) + [Octet(EOT)] + tail) == Taken(s + [EOT], 1, tail)
  {
    assert Octets(s) + [Octet(EOT)] + tail == Octets(s) + ([Octet(EOT)] + tail);
    TakeClean(s, [Octet(EOT)] + tail);
    assert ([Octet(EOT)] + tail)[1..] == tail;
  }

  lemma {:induction false} ReadsFrame(f: Frame, n: nat, tail: seq<Event>)
    requires GoodFrame(f)
    ensures var (more, rest) := ReadAll(n, tail);
            ReadAll(|Reads(f)| + n, Delivered(f) + tail) == (Reads(f) + more, rest)
    decreases |f.lost|
  {
    if f.lost == [] {
      TakeFrame(f.tail, tail);
      assert (f.tail + [EOT])[..|f.tail|] == f.tail;
    } else {
      var g := Frame(f.lost[1..], f.tail);
      assert GoodFrame(g);
      assert Delivered(f) + tail == Octets(f.lost[0]) + [Timeout] + (Delivered(g) + tail);
      TakeTimeout(f.lost[0], Delivered(g) + tail);
      ReadsFrame(g, n, tail);
      var (more, rest) := ReadAll(n, tail);
      assert [Failed] + (Reads(g) + more) == Reads(f) + more;
    }
  }

  /** Any sequence of payloads, with any number of timeouts in any of them: a payload without a timeout comes
      through whole, an interrupted one only in its last part, and no other payload is affected. */
  lemma {:induction false} OnlyInterruptedDamaged(frames: seq<Frame>)
    requires forall i :: 0 <= i < |frames| ==> GoodFrame(frames[i])
    ensures ReadAll(|AllReads(frames)|, Stream(frames)) == (AllReads(frames), [])
  {
    if frames != [] {
      var rest := frames[1..];
      assert forall i :: 0 <= i < |rest| ==> rest[i] == frames[i + 1];
      assert GoodFrame(frames[0]);
      OnlyInterruptedDamaged(rest);
      ReadsFrame(frames[0], |AllReads(rest)|, Stream(rest));
    }
  }

  /** What the writer puts out for a sequence of payloads. */
  function Written(payloads: seq<Bytes>): Bytes {
    if payloads == [] then [] else payloads[0] + [EOT] + Written(payloads[1..])
  }

  function Payloads(payloads: seq<Bytes>): seq<Result> {
    seq(|payloads|, i requires 0 <= i < |payloads| => Payload(payloads[i]))
  }

  lemma {:induction false} WrittenFirst(payloads: seq<Bytes>, n: nat, tail: seq<Event>)
    requires forall i :: 0 <= i < |payloads| ==> Clean(payloads[i])
    ensures var (more, rest) := ReadAll(n, tail);
            ReadAll(|payloads| + n, Octets(Written(payloads)) + tail) == (Payloads(payloads) + more, rest)
  {
    hide ReadAll, Octets, Clean;
    if payloads == [] {
      NoOctets(tail);
      assert Payloads(payloads) + ReadAll(n, tail).0 == ReadAll(n, tail).0;
    } else {
      var p, rest := payloads[0], payloads[1..];
      assert forall i :: 0 <= i < |rest| ==> rest[i] == payloads[i + 1];
      WrittenFirst(rest, n, tail);
      ReadOne(p, |rest| + n, Octets(Written(rest)) + tail);
      FrameFirst(p, Written(rest), tail);
      assert [Payload(p)] + (Payloads(rest) + ReadAll(n, tail).0) == Payloads(payloads) + ReadAll(n, tail).0;
    }
  }

  lemma NoOctets(tail: seq<Event>)
    ensures Octets([]) + tail == tail
  {}

  lemma FrameFirst(p: Bytes, rest: Bytes, tail: seq<Event>)
    ensures Octets(p + [EOT] + rest) + tail == Octets(p) + [Octet(EOT)] + (Octets(rest) + tail)
  {}

  lemma ReadOne(p: Bytes, n: nat, tail: seq<Event>)
    requires Clean(p)
    ensures var (more, rest) := ReadAll(n, tail);
            ReadAll(1 + n, Octets(p) + [Octet(EOT)] + tail) == ([Payload(p)] + more, rest)
  {
    hide Octets, Take, Clean;
    TakeFrame(p, tail);
    assert (p + [EOT])[..|p|] == p;
  }

  /** Each payload is followed by the octet 12. */
  lemma {:induction false} WrittenAs(before: seq<Bytes>, p: Bytes, after: seq<Bytes>)
    ensures Written(before + [p] + after) == Written(before) + p + [12] + Written(after)
  {
    if before == [] {
      assert before + [p] + after == [p] + after && ([p] + after)[1..] == after;
    } else {
      assert (before + [p] + after)[0] == before[0] && (before + [p] + after)[1..] == before[1..] + [p] + after;
      WrittenAs(before[1..], p, after);
    }
  }

  /** Any sequence of payloads without form feed and NUL, written and then read, comes back unchanged. */
  lemma RoundTrip(payloads: seq<Bytes>)
    requires forall i :: 0 <= i < |payloads| ==> Clean(payloads[i])
    ensures ReadAll(|payloads|, Octets(Written(payloads))) == (Payloads(payloads), [])
  {
    hide ReadAll, Written, Octets, Payloads;
    WrittenFirst(payloads, 0, []);
    NoReads([]);
    assert Octets(Written(payloads)) + [] == Octets(Written(payloads)) && Payloads(payloads) + [] == Payloads(payloads);
  }

  lemma NoReads(input: seq<Event>)
    ensures ReadAll(0, input) == ([], input)
  {}

  /** The octets of one written payload with a timeout after the first k. */
  function Interrupted(p: Bytes, k: nat): seq<Event>
    requires k <= |p|
  {
    Octets(p[..k]) + [Timeout] + (Octets(p[k..]) + [Octet(EOT)])
  }

  lemma InterruptedFrame(p: Bytes, k: nat)
    requires k <= |p| && Clean(p)
    ensures var f := Frame([p[..k]], p[k..]);
            GoodFrame(f) && Delivered(f) == Interrupted(p, k) && Reads(f) == [Failed, Payload(p[k..])]
  {
    var f := Frame([p[..k]], p[k..]);
    assert f.lost[1..] == [];
    assert Reads(Frame([], p[k..])) == [Payload(p[k..])];
  }

  /** A timeout after k octets of one payload among others: its read fails, the next gives what is left of it,
      and every payload before and after it comes back. */
  lemma OneTimeout(before: seq<Bytes>, p: Bytes, k: nat, after: seq<Bytes>)
    requires k <= |p| && Clean(p)
    requires forall i :: 0 <= i < |before| ==> Clean(before[i])
    requires forall i :: 0 <= i < |after| ==> Clean(after[i])
    ensures ReadAll(|before| + (2 + |after|), Octets(Written(before)) + (Interrupted(p, k) + Octets(Written(after))))
            == (Payloads(before) + ([Failed, Payload(p[k..])] + Payloads(after)), [])
  {
    hide Clean, Interrupted, Octets, Written, Payloads, ReadAll, Delivered, Reads, GoodFrame;
    InterruptedFrame(p, k);
    RoundTrip(after);
    ReadsFrame(Frame([p[..k]], p[k..]), |after|, Octets(Written(after)));
    WrittenFirst(before, 2 + |after|, Interrupted(p, k) + Octets(Written(after)));
  }

  /** What a failed write left on the wire goes to the front of the next payload. */
  lemma ShortWriteJoins(p: Bytes, k: nat, q: Bytes, tail: seq<Event>)
    requires k <= |p| && Clean(p) && Clean(q)
    ensures ResultOf(Take(Octets(p[..k]) + (Octets(q) + [Octet(EOT)] + tail))) == Payload(p[..k] + q)
  {
    assert Clean(p[..k]);
    TakeFrame(q, tail);
    TakeClean(p[..k], Octets(q) + [Octet(EOT)] + tail);
    assert (p[..k] + (q + [EOT]))[..k + |q|] == p[..k] + q;
  }

  /** One payload comes back exactly when it has neither octet that ends a frame. */
  lemma {:induction false} ComesBackIff(p: Bytes, tail: seq<Event>)
    ensures ResultOf(Take(Octets(p) + [Octet(EOT)] + tail)) == Payload(p) <==> Clean(p)
    ensures Clean(p) <==> 12 !in p && 0 !in p
  {
    if Clean(p) {
      TakeFrame(p, tail);
      assert (p + [EOT])[..|p|] == p;
    } else {
      var i := FirstEnd(p);
      var input := Octets(p) + [Octet(EOT)] + tail;
      var after := input[i + 1..];
      assert input == Octets(p[..i]) + ([Octet(p[i])] + after);
      TakeClean(p[..i], [Octet(p[i])] + after);
      assert Take(input).octets == p[..i] + [p[i]];
      assert (p[..i] + [p[i]])[..i] == p[..i];
    }
  }

  /** A read that meets the loss of the connection before a frame ends says so; one that meets a timeout, or nothing more, only
      fails. What has been read of the frame is gone in each case. */
  lemma HowReadsFail(p: Bytes, tail: seq<Event>)
    requires Clean(p)
    ensures ResultOf(Take(Octets(p) + ([Lost] + tail))) == Disconnected && Take(Octets(p) + ([Lost] + tail)).rest == tail
    ensures ResultOf(Take(Octets(p) + ([Timeout] + tail))) == Failed && Take(Octets(p) + ([Timeout] + tail)).rest == tail
    ensures ResultOf(Take(Octets(p))) == Failed
  {
    TakeClean(p, [Lost] + tail);
    TakeClean(p, [Timeout] + tail);
    TakeClean(p, []);
    assert Octets(p) + [] == Octets(p);
    assert ([Lost] + tail)[1..] == tail && ([Timeout] + tail)[1..] == tail;
  }

  function FirstEnd(p: Bytes): (i: nat)
    requires !Clean(p)
    ensures i < |p| && Ends(p[i]) && Clean(p[..i])
  {
    if Ends(p[0]) then 0
    else
      assert !Clean(p[1..]) by { assert forall k :: 1 <= k < |p| ==> p[k] == p[1..][k - 1]; }
      var i := 1 + FirstEnd(p[1..]);
      assert forall k :: 1 <= k < i ==> p[k] == p[1..][..i - 1][k - 1];
      i
  }
}
