/** The wire format of `src/tunnel.rs`: messages behind a big-endian `u32` length. */
module Framing {
  import opened Types

  newtype byte = n: int | 0 <= n < 256

  type Bytes = seq<byte>

  const MAX_MESSAGE_SIZE: nat := 65536

  datatype ReadError = UnexpectedEof | TooLarge

  datatype ReadResult = Message(payload: Bytes) | Failed(error: ReadError)

  // ----- the length prefix -----

  function Prefix(n: nat): (b: Bytes)
    requires n <= U32_MAX
    ensures |b| == 4
  {
    [(n / 0x100_0000) as byte, (n / 0x1_0000 % 0x100) as byte, (n / 0x100 % 0x100) as byte, (n % 0x100) as byte]
  }

  function Length(b: Bytes): (n: nat)
    requires |b| == 4
    ensures n <= U32_MAX
  {
    b[0] as nat * 0x100_0000 + b[1] as nat * 0x1_0000 + b[2] as nat * 0x100 + b[3] as nat
  }

  lemma Digits(b0: nat, b1: nat, b2: nat, b3: nat)
    requires b0 < 0x100 && b1 < 0x100 && b2 < 0x100 && b3 < 0x100
    ensures var n := b0 * 0x100_0000 + b1 * 0x1_0000 + b2 * 0x100 + b3;
            n / 0x100_0000 == b0 && n / 0x1_0000 % 0x100 == b1 && n / 0x100 % 0x100 == b2 && n % 0x100 == b3
  {
    var n := b0 * 0x100_0000 + b1 * 0x1_0000 + b2 * 0x100 + b3;
    assert n / 0x1_0000 == b0 * 0x100 + b1;
    assert n / 0x100 == b0 * 0x1_0000 + b1 * 0x100 + b2;
  }

  lemma LengthOfPrefix(n: nat)
    requires n <= U32_MAX
    ensures Length(Prefix(n)) == n
  {
    var high := n / 0x1_0000;
    assert n / 0x100_0000 == high / 0x100 && n == high * 0x1_0000 + (n / 0x100 % 0x100) * 0x100 + n % 0x100;
  }

  lemma PrefixesAndLengths()
    ensures forall n: nat | n <= U32_MAX :: Length(Prefix(n)) == n
    ensures forall b: Bytes | |b| == 4 :: Prefix(Length(b)) == b
  {
    forall n: nat | n <= U32_MAX ensures Length(Prefix(n)) == n { LengthOfPrefix(n); }
    forall b: Bytes | |b| == 4 ensures Prefix(Length(b)) == b {
      Digits(b[0] as nat, b[1] as nat, b[2] as nat, b[3] as nat);
    }
  }

  // ----- one message -----

  function Frame(m: Bytes): Bytes
    requires |m| <= U32_MAX
  {
    Prefix(|m|) + m
  }

  /** The outcome of a read and what it leaves unread. */
  function Read(s: Bytes): (ReadResult, Bytes) {
    if |s| < 4 then (Failed(UnexpectedEof), [])
    else
      var n := Length(s[..4]);
      if n > MAX_MESSAGE_SIZE then (Failed(TooLarge), s[4..])
      else if |s| < 4 + n then (Failed(UnexpectedEof), [])
      else (Message(s[4..4 + n]), s[4 + n..])
  }

  /** A read yields a message exactly when the stream starts with the frame of that message and the
      message is small enough: reading accepts nothing that was not written. */
  lemma ReadsOnlyFrames(s: Bytes, m: Bytes, rest: Bytes)
    ensures Read(s) == (Message(m), rest) <==> |m| <= MAX_MESSAGE_SIZE && s == Frame(m) + rest
  {
    PrefixesAndLengths();
    if Read(s) == (Message(m), rest) {
      assert s == s[..4] + s[4..4 + |m|] + s[4 + |m|..];
    }
    if |m| <= MAX_MESSAGE_SIZE && s == Frame(m) + rest {
      assert s[..4] == Prefix(|m|) && s[4..4 + |m|] == m && s[4 + |m|..] == rest;
    }
  }

  lemma OversizedFails(m: Bytes, rest: Bytes)
    requires MAX_MESSAGE_SIZE < |m| <= U32_MAX
    ensures Read(Frame(m) + rest) == (Failed(TooLarge), m + rest)
  {
    PrefixesAndLengths();
    var s := Frame(m) + rest;
    assert s[..4] == Prefix(|m|) && s[4..] == m + rest;
  }

  // ----- many messages -----

  function Frames(ms: seq<Bytes>): Bytes
    requires forall m | m in ms :: |m| <= U32_MAX
  {
    if ms == [] then [] else Frame(ms[0]) + Frames(ms[1..])
  }

  datatype Received = Received(messages: seq<Bytes>, error: Option<ReadError>, unread: Bytes)

  /** Up to `n` reads, ended by the first that fails. */
  function ReadMany(s: Bytes, n: nat): Received {
    if n == 0 then Received([], None, s)
    else match Read(s)
      case (Failed(e), rest) => Received([], Some(e), rest)
      case (Message(m), rest) =>
        var more := ReadMany(rest, n - 1);
        more.(messages := [m] + more.messages)
  }

  /** The messages before the first one that is too large to be read. */
  function Readable(ms: seq<Bytes>): seq<Bytes> {
    if ms == [] || |ms[0]| > MAX_MESSAGE_SIZE then [] else [ms[0]] + Readable(ms[1..])
  }

  lemma {:induction false} FramesAreReadBack(ms: seq<Bytes>, tail: Bytes)
    requires forall m | m in ms :: |m| <= U32_MAX
    ensures var r := ReadMany(Frames(ms) + tail, |ms|);
            if Readable(ms) == ms then r == Received(ms, None, tail)
            else r.messages == Readable(ms) && r.error == Some(TooLarge)
  {
    if ms == [] {
      assert Frames(ms) + tail == tail;
    } else {
      var more := Frames(ms[1..]) + tail;
      assert Frames(ms) + tail == Frame(ms[0]) + more;
      assert ms == [ms[0]] + ms[1..];
      if |ms[0]| <= MAX_MESSAGE_SIZE {
        FramesAreReadBack(ms[1..], tail);
        ReadsOnlyFrames(Frame(ms[0]) + more, ms[0], more);
        assert Readable(ms) == ms <==> Readable(ms[1..]) == ms[1..];
      } else {
        OversizedFails(ms[0], more);
      }
    }
  }

  lemma {:induction false} AllReadable(ms: seq<Bytes>)
    ensures Readable(ms) == ms <==> forall m | m in ms :: |m| <= MAX_MESSAGE_SIZE
  {
    if ms != [] {
      AllReadable(ms[1..]);
      assert ms == [ms[0]] + ms[1..];
      if Readable(ms) == ms { assert Readable(ms)[1..] == Readable(ms[1..]); }
    }
  }

  /** The concatenated frames of a list of messages are read back exactly, whatever follows them, if
      and only if no message exceeds the reader's limit. */
  lemma StreamComesBack(ms: seq<Bytes>, tail: Bytes)
    requires forall m | m in ms :: |m| <= U32_MAX
    ensures ReadMany(Frames(ms) + tail, |ms|) == Received(ms, None, tail)
            <==> forall m | m in ms :: |m| <= MAX_MESSAGE_SIZE
  {
    FramesAreReadBack(ms, tail);
    AllReadable(ms);
  }

  // ----- the stream itself -----

  class Stream {
    var pending: Bytes

    method ReadExact(n: nat) returns (buf: Bytes, eof: bool)
      modifies this
      ensures eof <==> old(|pending|) < n
      ensures if eof then pending == [] else buf == old(pending)[..n] && pending == old(pending)[n..]
    {
      if |pending| < n {
        buf, eof, pending := pending, true, [];
      } else {
        buf, eof, pending := pending[..n], false, pending[n..];
      }
    }

    method ReadMessage() returns (r: ReadResult)
      modifies this
      ensures (r, pending) == Read(old(pending))
    {
      var header, eof := ReadExact(4);
      if eof { return Failed(UnexpectedEof); }
      var n := Length(header);
      assert pending == old(pending)[4..] && header == old(pending)[..4];
      if n > MAX_MESSAGE_SIZE { return Failed(TooLarge); }
      var buf;
      buf, eof := ReadExact(n);
      if eof { return Failed(UnexpectedEof); }
      r := Message(buf);
      assert old(pending)[4..][..n] == old(pending)[4..4 + n] && old(pending)[4..][n..] == old(pending)[4 + n..];
    }

    /** Fails, writing nothing, when the length does not fit the prefix. */
    method WriteMessage(m: Bytes) returns (written: bool)
      modifies this
      ensures written <==> |m| <= U32_MAX
      ensures pending == if |m| <= U32_MAX then old(pending) + Frame(m) else old(pending)
    {
      if |m| > U32_MAX { return false; }
      pending := pending + Prefix(|m|);
      pending := pending + m;
      written := true;
      assert old(pending) + Frame(m) == old(pending) + Prefix(|m|) + m;
    }
  }
}
