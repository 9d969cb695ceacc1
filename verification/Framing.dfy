/**
 Cutting length-prefixed frames out of a byte stream. ParseAll is the meaning
 of ParsePackets on a queue of bytes; the loop itself is in Receive.dfy.
 */
module Framing {
  import opened Bytes

  datatype Mode = EchoTest | Centralized | Partitioned | UnifiedStrand

  const MIN_PACKET_SIZE: nat := HEADER_SIZE
  const MAX_PACKET_SIZE: nat := 65536

  /** header.size as ParsePackets tests it: echo mode adds the header to a uint16_t, which wraps. */
  function FrameSize(mode: Mode, q: seq<Byte>): (n: nat)
    requires |q| >= HEADER_SIZE
    ensures n < UINT16
  {
    if mode.EchoTest? then (SizeField(q) + HEADER_SIZE) % UINT16 else SizeField(q)
  }

  /** What one turn of the loop finds at the front of the queue. */
  datatype Front = NeedMore | Invalid | Complete(size: nat)

  function Inspect(mode: Mode, q: seq<Byte>): Front {
    if |q| < HEADER_SIZE then NeedMore
    else
      var size := FrameSize(mode, q);
      if size < MIN_PACKET_SIZE || size > MAX_PACKET_SIZE then Invalid
      else if |q| < size then NeedMore
      else Complete(size)
  }

  /** A byte string that is exactly one frame. */
  predicate IsFrame(mode: Mode, f: seq<Byte>) {
    Inspect(mode, f) == Complete(|f|)
  }

  datatype Parse = Parse(frames: seq<seq<Byte>>, rest: seq<Byte>, bad: bool)

  function ParseAll(mode: Mode, q: seq<Byte>): Parse
    decreases |q|
  {
    match Inspect(mode, q)
    case NeedMore => Parse([], q, false)
    case Invalid => Parse([], q, true)
    case Complete(size) =>
      var p := ParseAll(mode, q[size..]);
      p.(frames := [q[..size]] + p.frames)
  }

  lemma InspectPrefix(mode: Mode, a: seq<Byte>, b: seq<Byte>)
    ensures Inspect(mode, a) != NeedMore ==> Inspect(mode, a + b) == Inspect(mode, a)
  {
  }

  /** Go on with a parse when more bytes arrive behind what it left over. */
  function Resume(mode: Mode, p: Parse, more: seq<Byte>): Parse {
    if p.bad then Parse(p.frames, p.rest + more, true)
    else
      var next := ParseAll(mode, p.rest + more);
      Parse(p.frames + next.frames, next.rest, next.bad)
  }

  lemma ResumeCons(mode: Mode, f: seq<Byte>, p: Parse, more: seq<Byte>)
    ensures Resume(mode, p.(frames := [f] + p.frames), more) ==
      Resume(mode, p, more).(frames := [f] + Resume(mode, p, more).frames)
  {
    Reassociate([f], p.frames, ParseAll(mode, p.rest + more).frames);
  }

  /** Bytes that arrive later change nothing about what was already cut, and a bad length stays bad. */
  lemma {:induction false} ParseContinues(mode: Mode, a: seq<Byte>, b: seq<Byte>)
    ensures ParseAll(mode, a + b) == Resume(mode, ParseAll(mode, a), b)
    decreases |a|
  {
    InspectPrefix(mode, a, b);
    if Inspect(mode, a).Complete? {
      var size := Inspect(mode, a).size;
      ParseContinues(mode, a[size..], b);
      assert (a + b)[..size] == a[..size] && (a + b)[size..] == a[size..] + b;
      ResumeCons(mode, a[..size], ParseAll(mode, a[size..]), b);
    } else {
      assert [] + ParseAll(mode, a + b).frames == ParseAll(mode, a + b).frames;
    }
  }

  /**
   ParseAll is the only way to split a queue into frames and a remainder that
   does not begin with another complete frame.
   */
  lemma {:induction false} ParseIsTheOnlySplit(mode: Mode, frames: seq<seq<Byte>>, rest: seq<Byte>)
    requires forall k :: 0 <= k < |frames| ==> IsFrame(mode, frames[k])
    requires !Inspect(mode, rest).Complete?
    ensures ParseAll(mode, Concat(frames) + rest) == Parse(frames, rest, Inspect(mode, rest) == Invalid)
    decreases |frames|
  {
    var q := Concat(frames) + rest;
    if frames == [] {
      assert q == rest;
    } else {
      var f, tail := frames[0], Concat(frames[1..]) + rest;
      assert IsFrame(mode, f);
      assert q == f + tail;
      InspectPrefix(mode, f, tail);
      assert q[..|f|] == f && q[|f|..] == tail;
      ParseIsTheOnlySplit(mode, frames[1..], rest);
      assert [f] + frames[1..] == frames;
    }
  }

  /** Nothing is lost, every piece is one frame, and the loop stopped for the reason it reports. */
  ghost predicate Splits(mode: Mode, q: seq<Byte>, p: Parse) {
    && Concat(p.frames) + p.rest == q
    && (forall k :: 0 <= k < |p.frames| ==> IsFrame(mode, p.frames[k]))
    && Inspect(mode, p.rest) == (if p.bad then Invalid else NeedMore)
  }

  lemma SplitsCons(mode: Mode, f: seq<Byte>, q: seq<Byte>, p: Parse)
    requires IsFrame(mode, f) && Splits(mode, q, p)
    ensures Splits(mode, f + q, p.(frames := [f] + p.frames))
  {
    ConcatCons(f, p.frames);
    Reassociate(f, Concat(p.frames), p.rest);
  }

  /** ... and it is such a split. */
  lemma {:induction false} ParseSplits(mode: Mode, q: seq<Byte>)
    ensures Splits(mode, q, ParseAll(mode, q))
    decreases |q|
  {
    if Inspect(mode, q).Complete? {
      var size := Inspect(mode, q).size;
      ParseSplits(mode, q[size..]);
      FrameAlone(mode, q);
      SplitsCons(mode, q[..size], q[size..], ParseAll(mode, q[size..]));
      assert q[..size] + q[size..] == q;
    } else {
      assert Concat([]) + q == q;
    }
  }

  lemma FrameAlone(mode: Mode, q: seq<Byte>)
    requires Inspect(mode, q).Complete?
    ensures MIN_PACKET_SIZE <= Inspect(mode, q).size <= |q|
    ensures IsFrame(mode, q[..Inspect(mode, q).size])
  {
  }

  /**
   Exactly the lengths that are refused: 0 and 1 normally; in echo mode, where
   the 16-bit sum wraps, 65534 and 65535.
   */
  lemma InvalidLengths(mode: Mode, q: seq<Byte>)
    requires |q| >= HEADER_SIZE
    ensures Inspect(mode, q) == Invalid <==>
      (if mode.EchoTest? then SizeField(q) >= 65534 else SizeField(q) < 2)
  {
  }

  /** A residue that is waiting for more bytes is short enough to leave room in a 65536-byte ring. */
  lemma ResidueFits(mode: Mode, q: seq<Byte>)
    requires !ParseAll(mode, q).bad
    ensures |ParseAll(mode, q).rest| <= 65534
  {
    ParseSplits(mode, q);
  }
}
