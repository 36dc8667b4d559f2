// The encrypted stream of one appliance connection (internal/homeconnect/crypto.go).
//
// The block cipher and the keyed hash are parameters: any pair of functions of which the
// second undoes the first, and any function from byte strings to 16-byte tags.  CBC is the
// mode of section 6.2 of NIST SP 800-38A, run as one continuous stream per direction.
module Crypto {
  import opened Prelude

  type Byte = x: int | 0 <= x < 256

  type Bytes = seq<Byte>

  const BLOCK_SIZE: nat := 16
  const HMAC_TRUNC: nat := 16
  const MIN_MESSAGE_LENGTH: nat := 32
  const READ_LIMIT: nat := 0x10_0000
  const ENCRYPT_DIRECTION: Byte := 0x45
  const DECRYPT_DIRECTION: Byte := 0x43

  type Block = b: Bytes | |b| == BLOCK_SIZE witness [0, 0, 0, 0, 0, 0, 0, 0, 0, 0, 0, 0, 0, 0, 0, 0]

  const ZERO_BLOCK: Block := [0, 0, 0, 0, 0, 0, 0, 0, 0, 0, 0, 0, 0, 0, 0, 0]

  /** What deriveKeys and the profile's iv amount to. */
  datatype Keys = Keys(iv: Block, enc: Block -> Block, dec: Block -> Block, hmac: Bytes -> Block) {
    ghost predicate Valid() {
      forall b: Block :: dec(enc(b)) == b
    }

    /** The bytes chainHMAC feeds to the hash: iv, direction, previous tag, ciphertext. */
    function MacInput(dir: Byte, last: Block, ct: Bytes): Bytes {
      iv + [dir] + last + ct
    }
  }

  // ----- CBC -----

  /** Exclusive or of two numbers of `width` bits. */
  function XorBits(a: nat, b: nat, width: nat): (x: nat)
    requires a < Pow2(width) && b < Pow2(width)
    ensures x < Pow2(width)
  {
    if width == 0 then 0 else 2 * XorBits(a / 2, b / 2, width - 1) + (a + b) % 2
  }

  lemma HalfAndParity(x: nat, a: nat, b: nat)
    ensures (2 * x + (a + b) % 2) / 2 == x
    ensures (a + (2 * x + (a + b) % 2)) % 2 == b % 2
  {
    assert a + b == 2 * ((a + b) / 2) + (a + b) % 2;
  }

  lemma {:induction false} XorBitsCancels(a: nat, b: nat, width: nat)
    requires a < Pow2(width) && b < Pow2(width)
    ensures XorBits(a, XorBits(a, b, width), width) == b
  {
    if width > 0 {
      XorBitsCancels(a / 2, b / 2, width - 1);
      HalfAndParity(XorBits(a / 2, b / 2, width - 1), a, b);
    }
  }

  /** The i-th binary digit. */
  function Bit(a: nat, i: nat): nat {
    if i == 0 then a % 2 else Bit(a / 2, i - 1)
  }

  /** The truth table: a bit is set exactly where just one of the two operands has it. */
  lemma {:induction false} XorBitsByBit(a: nat, b: nat, width: nat, i: nat)
    requires a < Pow2(width) && b < Pow2(width) && i < width
    ensures Bit(XorBits(a, b, width), i) == 1 <==> Bit(a, i) != Bit(b, i)
    decreases width
  {
    var x := XorBits(a / 2, b / 2, width - 1);
    HalfAndParity(x, a, b);
    if i == 0 {
      ParityOfSum(x, a, b);
    } else {
      XorBitsByBit(a / 2, b / 2, width - 1, i - 1);
    }
  }

  lemma ParityOfSum(x: nat, a: nat, b: nat)
    ensures (2 * x + (a + b) % 2) % 2 == 1 <==> a % 2 != b % 2
  {
  }

  function XorByte(a: Byte, b: Byte): Byte {
    assert Pow2(4) == 16;
    XorBits(a, b, 8)
  }

  function Xor(a: Block, b: Block): Block {
    seq(BLOCK_SIZE, i requires 0 <= i < BLOCK_SIZE => XorByte(a[i], b[i]))
  }

  lemma XorCancels(a: Block, b: Block)
    ensures Xor(a, Xor(a, b)) == b
  {
    assert Pow2(4) == 16;
    forall i | 0 <= i < BLOCK_SIZE ensures Xor(a, Xor(a, b))[i] == b[i] {
      XorBitsCancels(a[i], b[i], 8);
    }
  }

  predicate Aligned(s: Bytes) {
    |s| % BLOCK_SIZE == 0
  }

  function CbcEncrypt(k: Keys, prev: Block, plain: Bytes): (ct: Bytes)
    requires Aligned(plain)
    ensures |ct| == |plain|
    decreases |plain|
  {
    if plain == [] then []
    else
      var c := k.enc(Xor(prev, plain[..BLOCK_SIZE]));
      c + CbcEncrypt(k, c, plain[BLOCK_SIZE..])
  }

  function CbcDecrypt(k: Keys, prev: Block, ct: Bytes): (plain: Bytes)
    requires Aligned(ct)
    ensures |plain| == |ct|
    decreases |ct|
  {
    if ct == [] then []
    else Xor(prev, k.dec(ct[..BLOCK_SIZE])) + CbcDecrypt(k, ct[..BLOCK_SIZE], ct[BLOCK_SIZE..])
  }

  /** The block the next message of the stream is chained to. */
  function NextIv(prev: Block, ct: Bytes): Block
    requires Aligned(ct)
  {
    if ct == [] then prev else ct[|ct| - BLOCK_SIZE..]
  }

  lemma {:induction false} CbcRoundTrip(k: Keys, prev: Block, plain: Bytes)
    requires k.Valid() && Aligned(plain)
    ensures CbcDecrypt(k, prev, CbcEncrypt(k, prev, plain)) == plain
    decreases |plain|
  {
    if plain != [] {
      var b: Block := plain[..BLOCK_SIZE];
      var c: Block := k.enc(Xor(prev, b));
      var rest := CbcEncrypt(k, c, plain[BLOCK_SIZE..]);
      assert (c + rest)[..BLOCK_SIZE] == c && (c + rest)[BLOCK_SIZE..] == rest;
      XorCancels(prev, b);
      CbcRoundTrip(k, c, plain[BLOCK_SIZE..]);
      assert plain == b + plain[BLOCK_SIZE..];
    }
  }

  function BlockAt(s: Bytes, i: nat): Block
    requires (i + 1) * BLOCK_SIZE <= |s|
  {
    s[i * BLOCK_SIZE..(i + 1) * BLOCK_SIZE]
  }

  /** The equation of the mode, block by block: each is the cipher of the plain block and the one before it. */
  lemma {:induction false} CbcByBlocks(k: Keys, prev: Block, plain: Bytes, i: nat)
    requires Aligned(plain) && (i + 1) * BLOCK_SIZE <= |plain|
    ensures var ct := CbcEncrypt(k, prev, plain);
      BlockAt(ct, i) == k.enc(Xor(if i == 0 then prev else BlockAt(ct, i - 1), BlockAt(plain, i)))
    decreases |plain|
  {
    var c: Block := k.enc(Xor(prev, plain[..BLOCK_SIZE]));
    var rest := CbcEncrypt(k, c, plain[BLOCK_SIZE..]);
    var ct := c + rest;
    assert BlockAt(ct, 0) == c;
    if i > 0 {
      CbcByBlocks(k, c, plain[BLOCK_SIZE..], i - 1);
      LaterBlock(c, rest, i);
      LaterBlock(plain[..BLOCK_SIZE], plain[BLOCK_SIZE..], i);
      assert plain == plain[..BLOCK_SIZE] + plain[BLOCK_SIZE..];
      if i > 1 { LaterBlock(c, rest, i - 1); }
    }
  }

  lemma LaterBlock(c: Block, rest: Bytes, i: nat)
    requires i > 0 && i * BLOCK_SIZE <= |rest|
    ensures BlockAt(c + rest, i) == BlockAt(rest, i - 1)
  {
  }

  /** Two runs, the second chained to the first, are one. */
  lemma {:induction false} CbcContinues(k: Keys, prev: Block, a: Bytes, b: Bytes)
    requires Aligned(a) && Aligned(b)
    ensures Aligned(a + b)
    ensures var ct := CbcEncrypt(k, prev, a);
      CbcEncrypt(k, prev, a + b) == ct + CbcEncrypt(k, NextIv(prev, ct), b)
    decreases |a|
  {
    if a == [] {
      assert a + b == b;
    } else {
      var c: Block := k.enc(Xor(prev, a[..BLOCK_SIZE]));
      var rest := a[BLOCK_SIZE..];
      CbcContinues(k, c, rest, b);
      assert (a + b)[..BLOCK_SIZE] == a[..BLOCK_SIZE] && (a + b)[BLOCK_SIZE..] == rest + b;
      LastBlock(prev, c, CbcEncrypt(k, c, rest));
    }
  }

  lemma LastBlock(prev: Block, c: Block, rest: Bytes)
    requires Aligned(rest)
    ensures NextIv(prev, c + rest) == NextIv(c, rest)
  {
  }

  // ----- padding -----

  /** 16 minus the remainder, bumped by a block when that would leave a single byte. */
  function PadLength(n: nat): (p: nat)
    ensures 2 <= p <= 17 && (n + p) % BLOCK_SIZE == 0
  {
    var p := BLOCK_SIZE - n % BLOCK_SIZE;
    if p == 1 then p + BLOCK_SIZE else p
  }

  /** `random` is what the random source can still deliver; reading more than that fails. */
  function Pad(clear: Bytes, random: Bytes): (r: Result<Bytes>)
    ensures r.Ok? <==> |clear| <= READ_LIMIT && PadLength(|clear|) - 2 <= |random|
    ensures r.Ok? ==> Aligned(r.value) && |r.value| == |clear| + PadLength(|clear|)
  {
    var p := PadLength(|clear|);
    if |clear| > READ_LIMIT then Err("message exceeds the limit")
    else if |random| < p - 2 then Err("read random padding")
    else Ok(clear + [0] + random[..p - 2] + [p])
  }

  /** What is put behind a message: a zero byte, random bytes, and in the last byte how many there are. */
  lemma PaddingIs(clear: Bytes, random: Bytes)
    requires Pad(clear, random).Ok?
    ensures var padded := Pad(clear, random).value;
      && clear < padded
      && padded[|clear|] == 0
      && padded[|clear| + 1..|padded| - 1] <= random
      && padded[|padded| - 1] == |padded| - |clear|
  {
  }

  function Unpad(plain: Bytes): Result<Bytes> {
    if plain == [] then Err("empty plaintext")
    else
      var p := plain[|plain| - 1];
      if p < 1 || p > |plain| then Err("invalid padding length")
      else Ok(plain[..|plain| - p])
  }

  /** Unpadding takes off as many bytes as the last one says, and refuses when that is none or more than there are. */
  lemma UnpadStrips(plain: Bytes, clear: Bytes)
    ensures Unpad(plain) == Ok(clear) <==>
      clear < plain && |plain| - |clear| == plain[|plain| - 1]
  {
    if clear < plain { assert plain[..|clear|] == clear; }
  }

  lemma UnpadPad(clear: Bytes, random: Bytes)
    requires Pad(clear, random).Ok?
    ensures Unpad(Pad(clear, random).value) == Ok(clear)
  {
    var p := PadLength(|clear|);
    var padded := Pad(clear, random).value;
    assert padded[|padded| - 1] == p;
    assert padded[..|padded| - p] == clear;
  }

  // ----- one direction of the stream -----

  /** The rolling state of one direction: the CBC feedback block and the last tag. */
  datatype Chain = Chain(cbc: Block, mac: Block)

  function Start(k: Keys): Chain {
    Chain(k.iv, ZERO_BLOCK)
  }

  datatype Message = Message(clear: Bytes, random: Bytes)

  predicate Sealable(m: Message) {
    Pad(m.clear, m.random).Ok?
  }

  function Ciphertext(k: Keys, c: Chain, m: Message): (ct: Bytes)
    requires Sealable(m)
    ensures Aligned(ct) && |ct| == |m.clear| + PadLength(|m.clear|)
  {
    CbcEncrypt(k, c.cbc, Pad(m.clear, m.random).value)
  }

  function SealInput(k: Keys, dir: Byte, c: Chain, m: Message): Bytes
    requires Sealable(m)
  {
    k.MacInput(dir, c.mac, Ciphertext(k, c, m))
  }

  function SealFrame(k: Keys, dir: Byte, c: Chain, m: Message): Bytes
    requires Sealable(m)
  {
    Ciphertext(k, c, m) + k.hmac(SealInput(k, dir, c, m))
  }

  function SealNext(k: Keys, dir: Byte, c: Chain, m: Message): Chain
    requires Sealable(m)
  {
    Chain(NextIv(c.cbc, Ciphertext(k, c, m)), k.hmac(SealInput(k, dir, c, m)))
  }

  predicate WellShaped(buf: Bytes) {
    |buf| >= MIN_MESSAGE_LENGTH && Aligned(buf)
  }

  function Body(buf: Bytes): Bytes
    requires WellShaped(buf)
  {
    buf[..|buf| - HMAC_TRUNC]
  }

  function Tag(buf: Bytes): Block
    requires WellShaped(buf)
  {
    buf[|buf| - HMAC_TRUNC..]
  }

  /** The two checks a frame must pass before the receive state moves. */
  predicate Accepts(k: Keys, dir: Byte, c: Chain, buf: Bytes) {
    WellShaped(buf) && Tag(buf) == k.hmac(k.MacInput(dir, c.mac, Body(buf)))
  }

  function OpenNext(k: Keys, dir: Byte, c: Chain, buf: Bytes): Chain {
    if Accepts(k, dir, c, buf) then Chain(NextIv(c.cbc, Body(buf)), Tag(buf)) else c
  }

  function OpenResult(k: Keys, dir: Byte, c: Chain, buf: Bytes): Result<Bytes> {
    if |buf| < MIN_MESSAGE_LENGTH then Err("frame too short")
    else if !Aligned(buf) then Err("frame not block-aligned")
    else if !Accepts(k, dir, c, buf) then Err("HMAC mismatch")
    else Unpad(CbcDecrypt(k, c.cbc, Body(buf)))
  }

  /** Every sealed frame is block-aligned, at least 32 bytes long and carries 2 to 17 bytes of padding. */
  lemma FrameShape(k: Keys, dir: Byte, c: Chain, m: Message)
    requires Sealable(m)
    ensures WellShaped(SealFrame(k, dir, c, m))
    ensures |m.clear| + 2 <= |Body(SealFrame(k, dir, c, m))| <= |m.clear| + 17
    ensures Body(SealFrame(k, dir, c, m)) == Ciphertext(k, c, m)
    ensures Tag(SealFrame(k, dir, c, m)) == k.hmac(SealInput(k, dir, c, m))
  {
    var ct := Ciphertext(k, c, m);
    assert |ct| >= 16;
    var f := SealFrame(k, dir, c, m);
    assert f[..|f| - HMAC_TRUNC] == ct;
    assert f[|f| - HMAC_TRUNC..] == k.hmac(SealInput(k, dir, c, m));
  }

  /** A frame sealed from a chain opens from the same chain, to the message, and both ends stay in step. */
  lemma OpenSeal(k: Keys, dir: Byte, c: Chain, m: Message)
    requires k.Valid() && Sealable(m)
    ensures Accepts(k, dir, c, SealFrame(k, dir, c, m))
    ensures OpenResult(k, dir, c, SealFrame(k, dir, c, m)) == Ok(m.clear)
    ensures OpenNext(k, dir, c, SealFrame(k, dir, c, m)) == SealNext(k, dir, c, m)
  {
    FrameShape(k, dir, c, m);
    CbcRoundTrip(k, c.cbc, Pad(m.clear, m.random).value);
    UnpadPad(m.clear, m.random);
  }

  // ----- whole streams -----

  predicate AllSealable(ms: seq<Message>) {
    forall i :: 0 <= i < |ms| ==> Sealable(ms[i])
  }

  /** The sender's chain after a run of messages. */
  function ChainAfter(k: Keys, dir: Byte, ms: seq<Message>): Chain
    requires AllSealable(ms)
  {
    if ms == [] then Start(k)
    else SealNext(k, dir, ChainAfter(k, dir, ms[..|ms| - 1]), ms[|ms| - 1])
  }

  function FrameAt(k: Keys, dir: Byte, ms: seq<Message>, i: nat): Bytes
    requires AllSealable(ms) && i < |ms|
  {
    SealFrame(k, dir, ChainAfter(k, dir, ms[..i]), ms[i])
  }

  function InputAt(k: Keys, dir: Byte, ms: seq<Message>, i: nat): Bytes
    requires AllSealable(ms) && i < |ms|
  {
    SealInput(k, dir, ChainAfter(k, dir, ms[..i]), ms[i])
  }

  /** The frames a sender puts out, in order. */
  function Frames(k: Keys, dir: Byte, ms: seq<Message>): (fs: seq<Bytes>)
    requires AllSealable(ms)
    ensures |fs| == |ms|
    ensures forall i :: 0 <= i < |ms| ==> fs[i] == FrameAt(k, dir, ms, i)
  {
    seq(|ms|, i requires 0 <= i < |ms| => FrameAt(k, dir, ms, i))
  }

  /** A receiver: its chain, what it returned per delivered frame and the frames that moved the chain. */
  datatype Receiver = Receiver(chain: Chain, results: seq<Result<Bytes>>, accepted: seq<Bytes>)

  function Take(k: Keys, dir: Byte, r: Receiver, f: Bytes): Receiver {
    Receiver(
      OpenNext(k, dir, r.chain, f),
      r.results + [OpenResult(k, dir, r.chain, f)],
      if Accepts(k, dir, r.chain, f) then r.accepted + [f] else r.accepted)
  }

  function Receive(k: Keys, dir: Byte, delivered: seq<Bytes>): Receiver {
    if delivered == [] then Receiver(Start(k), [], [])
    else Take(k, dir, Receive(k, dir, delivered[..|delivered| - 1]), delivered[|delivered| - 1])
  }

  function Clears(ms: seq<Message>): (rs: seq<Result<Bytes>>)
    ensures |rs| == |ms|
  {
    seq(|ms|, i requires 0 <= i < |ms| => Ok(ms[i].clear))
  }

  /** The byte strings put end to end. */
  function Joined(parts: seq<Bytes>): Bytes {
    if parts == [] then [] else Joined(parts[..|parts| - 1]) + parts[|parts| - 1]
  }

  /** The padded messages. */
  function Paddeds(ms: seq<Message>): (ps: seq<Bytes>)
    requires AllSealable(ms)
    ensures |ps| == |ms|
  {
    seq(|ms|, i requires 0 <= i < |ms| => Pad(ms[i].clear, ms[i].random).value)
  }

  /** What the frames carry besides their tags. */
  function Bodies(k: Keys, dir: Byte, ms: seq<Message>): (bs: seq<Bytes>)
    requires AllSealable(ms)
    ensures |bs| == |ms|
  {
    seq(|ms|, i requires 0 <= i < |ms| =>
      FrameShape(k, dir, ChainAfter(k, dir, ms[..i]), ms[i]);
      Body(FrameAt(k, dir, ms, i)))
  }

  lemma JoinedSnoc(parts: seq<Bytes>, x: Bytes)
    ensures Joined(parts + [x]) == Joined(parts) + x
  {
    assert (parts + [x])[..|parts|] == parts;
  }

  lemma PaddedsGrow(ms: seq<Message>)
    requires AllSealable(ms) && ms != []
    ensures var m := ms[|ms| - 1];
      Joined(Paddeds(ms)) == Joined(Paddeds(ms[..|ms| - 1])) + Pad(m.clear, m.random).value
  {
    var m := ms[|ms| - 1];
    JoinedSnoc(Paddeds(ms[..|ms| - 1]), Pad(m.clear, m.random).value);
    assert Paddeds(ms) == Paddeds(ms[..|ms| - 1]) + [Pad(m.clear, m.random).value];
  }

  lemma BodiesGrow(k: Keys, dir: Byte, ms: seq<Message>)
    requires AllSealable(ms) && ms != []
    ensures var n := |ms| - 1;
      Joined(Bodies(k, dir, ms))
      == Joined(Bodies(k, dir, ms[..n])) + Ciphertext(k, ChainAfter(k, dir, ms[..n]), ms[n])
  {
    var n := |ms| - 1;
    var ct := Ciphertext(k, ChainAfter(k, dir, ms[..n]), ms[n]);
    FrameShape(k, dir, ChainAfter(k, dir, ms[..n]), ms[n]);
    forall i | 0 <= i < n ensures Bodies(k, dir, ms)[i] == Bodies(k, dir, ms[..n])[i] {
      assert ms[..n][..i] == ms[..i];
    }
    assert Bodies(k, dir, ms) == Bodies(k, dir, ms[..n]) + [ct];
    JoinedSnoc(Bodies(k, dir, ms[..n]), ct);
  }

  /** The frames of one direction carry a single CBC run: joined, their bodies are the padded messages, joined,
      encrypted from the iv - and the chain stands at its last block. */
  lemma {:induction false} StreamIsOneCbcRun(k: Keys, dir: Byte, ms: seq<Message>)
    requires AllSealable(ms)
    ensures Aligned(Joined(Paddeds(ms)))
    ensures Joined(Bodies(k, dir, ms)) == CbcEncrypt(k, k.iv, Joined(Paddeds(ms)))
    ensures ChainAfter(k, dir, ms).cbc == NextIv(k.iv, Joined(Bodies(k, dir, ms)))
    decreases |ms|
  {
    if ms != [] {
      var n := |ms| - 1;
      var padded := Pad(ms[n].clear, ms[n].random).value;
      var before := Joined(Bodies(k, dir, ms[..n]));
      StreamIsOneCbcRun(k, dir, ms[..n]);
      PaddedsGrow(ms);
      BodiesGrow(k, dir, ms);
      CbcContinues(k, k.iv, Joined(Paddeds(ms[..n])), padded);
      NextIvOfTwo(k.iv, before, CbcEncrypt(k, NextIv(k.iv, before), padded));
    }
  }

  lemma NextIvOfTwo(prev: Block, a: Bytes, b: Bytes)
    requires Aligned(a) && Aligned(b)
    ensures NextIv(prev, a + b) == NextIv(NextIv(prev, a), b)
  {
  }

  /** Sealing any messages in order and opening the frames in order returns every message,
      with the CBC state and the tag chain of both ends equal at the end. */
  lemma {:induction false} StreamRoundTrip(k: Keys, dir: Byte, ms: seq<Message>)
    requires k.Valid() && AllSealable(ms)
    ensures Receive(k, dir, Frames(k, dir, ms)) == Receiver(ChainAfter(k, dir, ms), Clears(ms), Frames(k, dir, ms))
    decreases |ms|
  {
    if ms != [] {
      var n := |ms| - 1;
      StreamRoundTrip(k, dir, ms[..n]);
      FramesGrow(k, dir, ms);
      ReceiveSnoc(k, dir, Frames(k, dir, ms[..n]), FrameAt(k, dir, ms, n));
      TakeSealed(k, dir, Receive(k, dir, Frames(k, dir, ms[..n])), ChainAfter(k, dir, ms[..n]), ms[n]);
      SnocClears(ms);
    }
  }

  lemma FramesGrow(k: Keys, dir: Byte, ms: seq<Message>)
    requires AllSealable(ms) && ms != []
    ensures Frames(k, dir, ms) == Frames(k, dir, ms[..|ms| - 1]) + [FrameAt(k, dir, ms, |ms| - 1)]
  {
    FramesPrefix(k, dir, ms, |ms| - 1);
  }

  lemma ReceiveSnoc(k: Keys, dir: Byte, fs: seq<Bytes>, f: Bytes)
    ensures Receive(k, dir, fs + [f]) == Take(k, dir, Receive(k, dir, fs), f)
  {
    assert (fs + [f])[..|fs|] == fs;
  }

  lemma TakeSealed(k: Keys, dir: Byte, r: Receiver, c: Chain, m: Message)
    requires k.Valid() && Sealable(m) && r.chain == c
    ensures Take(k, dir, r, SealFrame(k, dir, c, m))
         == Receiver(SealNext(k, dir, c, m), r.results + [Ok(m.clear)], r.accepted + [SealFrame(k, dir, c, m)])
  {
    OpenSeal(k, dir, c, m);
  }

  lemma SnocClears(ms: seq<Message>)
    requires ms != []
    ensures Clears(ms) == Clears(ms[..|ms| - 1]) + [Ok(ms[|ms| - 1].clear)]
  {
  }

  lemma FramesPrefix(k: Keys, dir: Byte, ms: seq<Message>, n: nat)
    requires AllSealable(ms) && n <= |ms|
    ensures Frames(k, dir, ms)[..n] == Frames(k, dir, ms[..n])
  {
    forall i | 0 <= i < n ensures FrameAt(k, dir, ms, i) == FrameAt(k, dir, ms[..n], i) {
      assert ms[..n][..i] == ms[..i];
    }
  }

  // ----- what a hostile wire can make the receiver accept -----

  /** Every byte string hashed on this connection: by the peer when it seals, and by this end. */
  ghost predicate Hashed(k: Keys, peer: seq<Message>, own: seq<Message>, x: Bytes)
    requires AllSealable(peer) && AllSealable(own)
  {
    || (exists i :: 0 <= i < |peer| && x == InputAt(k, DECRYPT_DIRECTION, peer, i))
    || (exists i :: 0 <= i < |own| && x == InputAt(k, ENCRYPT_DIRECTION, own, i))
  }

  /** No two strings hashed on this connection collide and none hashes to the all-zero tag. */
  ghost predicate CollisionFree(k: Keys, peer: seq<Message>, own: seq<Message>)
    requires AllSealable(peer) && AllSealable(own)
  {
    && (forall x, y {:trigger Hashed(k, peer, own, x), Hashed(k, peer, own, y)} ::
          Hashed(k, peer, own, x) && Hashed(k, peer, own, y) && k.hmac(x) == k.hmac(y) ==> x == y)
    && (forall x {:trigger Hashed(k, peer, own, x)} :: Hashed(k, peer, own, x) ==> k.hmac(x) != ZERO_BLOCK)
  }

  ghost predicate Covered(k: Keys, peer: seq<Message>, own: seq<Message>, delivered: seq<Bytes>, i: nat)
    requires AllSealable(peer) && AllSealable(own) && i < |delivered|
  {
    TagCovered(k, peer, own, Receive(k, DECRYPT_DIRECTION, delivered[..i]).chain, delivered[i])
  }

  /** If the frame's tag is valid here, one of the two ends has hashed what the tag covers. */
  ghost predicate TagCovered(k: Keys, peer: seq<Message>, own: seq<Message>, c: Chain, f: Bytes)
    requires AllSealable(peer) && AllSealable(own)
  {
    Accepts(k, DECRYPT_DIRECTION, c, f) ==>
      Hashed(k, peer, own, k.MacInput(DECRYPT_DIRECTION, c.mac, Body(f)))
  }

  /** No delivered frame carries a tag that neither end computed. */
  ghost predicate Unforged(k: Keys, peer: seq<Message>, own: seq<Message>, delivered: seq<Bytes>)
    requires AllSealable(peer) && AllSealable(own)
  {
    forall i :: 0 <= i < |delivered| ==> Covered(k, peer, own, delivered, i)
  }

  /** What the tag covers: the iv, one byte for the direction, the tag before it and the ciphertext, all of them. */
  lemma MacInputCovers(k: Keys, dir: Byte, last: Block, ct: Bytes)
    ensures var x := k.MacInput(dir, last, ct);
      |x| == 33 + |ct| && k.iv <= x && x[16] == dir && x[17..33] == last && x[33..] == ct
  {
  }

  lemma MacInputInjective(k: Keys, d: Byte, l: Block, ct: Bytes, d': Byte, l': Block, ct': Bytes)
    requires k.MacInput(d, l, ct) == k.MacInput(d', l', ct')
    ensures d == d' && l == l' && ct == ct'
  {
    var x, y := k.MacInput(d, l, ct), k.MacInput(d', l', ct');
    assert x[16] == d && y[16] == d';
    assert x[17..33] == l && y[17..33] == l';
    assert x[33..] == ct && y[33..] == ct';
  }

  /** The value of the peer's tag chain before its i-th message. */
  function TagBefore(k: Keys, peer: seq<Message>, i: nat): Block
    requires AllSealable(peer) && i <= |peer|
  {
    ChainAfter(k, DECRYPT_DIRECTION, peer[..i]).mac
  }

  /** The peer's tag chain never revisits a value, so a tag names one position of the stream. */
  lemma {:induction false} ChainPositionsDistinct(k: Keys, peer: seq<Message>, own: seq<Message>, i: nat, j: nat)
    requires AllSealable(peer) && AllSealable(own) && CollisionFree(k, peer, own)
    requires i <= |peer| && j <= |peer|
    requires TagBefore(k, peer, i) == TagBefore(k, peer, j)
    ensures i == j
    decreases i + j
  {
    if i == 0 || j == 0 {
      StartIsNotRevisited(k, peer, own, if i == 0 then j else i);
    } else {
      SameTagSameChain(k, peer, own, i - 1, j - 1);
      ChainPositionsDistinct(k, peer, own, i - 1, j - 1);
    }
  }

  lemma StartIsNotRevisited(k: Keys, peer: seq<Message>, own: seq<Message>, i: nat)
    requires AllSealable(peer) && AllSealable(own) && CollisionFree(k, peer, own) && i <= |peer|
    ensures TagBefore(k, peer, i) == TagBefore(k, peer, 0) ==> i == 0
  {
    if i > 0 { TagNotZero(k, peer, own, i - 1); }
  }

  lemma TagNotZero(k: Keys, peer: seq<Message>, own: seq<Message>, i: nat)
    requires AllSealable(peer) && AllSealable(own) && CollisionFree(k, peer, own) && i < |peer|
    ensures TagBefore(k, peer, i + 1) != TagBefore(k, peer, 0)
  {
    TagOfPosition(k, peer, own, i);
  }

  lemma SameTagSameChain(k: Keys, peer: seq<Message>, own: seq<Message>, i: nat, j: nat)
    requires AllSealable(peer) && AllSealable(own) && CollisionFree(k, peer, own) && i < |peer| && j < |peer|
    requires TagBefore(k, peer, i + 1) == TagBefore(k, peer, j + 1)
    ensures TagBefore(k, peer, i) == TagBefore(k, peer, j)
  {
    TagOfPosition(k, peer, own, i);
    TagOfPosition(k, peer, own, j);
    InputNamesChain(k, peer, i, j);
  }

  lemma InputNamesChain(k: Keys, peer: seq<Message>, i: nat, j: nat)
    requires AllSealable(peer) && i < |peer| && j < |peer|
    requires InputAt(k, DECRYPT_DIRECTION, peer, i) == InputAt(k, DECRYPT_DIRECTION, peer, j)
    ensures ChainAfter(k, DECRYPT_DIRECTION, peer[..i]).mac == ChainAfter(k, DECRYPT_DIRECTION, peer[..j]).mac
  {
    var ci := ChainAfter(k, DECRYPT_DIRECTION, peer[..i]);
    var cj := ChainAfter(k, DECRYPT_DIRECTION, peer[..j]);
    MacInputInjective(k, DECRYPT_DIRECTION, ci.mac, Ciphertext(k, ci, peer[i]),
                      DECRYPT_DIRECTION, cj.mac, Ciphertext(k, cj, peer[j]));
  }

  lemma TagOfPosition(k: Keys, peer: seq<Message>, own: seq<Message>, i: nat)
    requires AllSealable(peer) && AllSealable(own) && i < |peer|
    ensures ChainAfter(k, DECRYPT_DIRECTION, peer[..i + 1])
         == SealNext(k, DECRYPT_DIRECTION, ChainAfter(k, DECRYPT_DIRECTION, peer[..i]), peer[i])
    ensures ChainAfter(k, DECRYPT_DIRECTION, peer[..i + 1]).mac == k.hmac(InputAt(k, DECRYPT_DIRECTION, peer, i))
    ensures Hashed(k, peer, own, InputAt(k, DECRYPT_DIRECTION, peer, i))
  {
    assert peer[..i + 1][..i] == peer[..i];
  }

  /** Standing at position n of the peer's stream, the receiver takes exactly one frame: the peer's n-th. */
  lemma AcceptsOnlyTheNextFrame(k: Keys, peer: seq<Message>, own: seq<Message>, n: nat, buf: Bytes)
    requires k.Valid() && AllSealable(peer) && AllSealable(own) && CollisionFree(k, peer, own) && n <= |peer|
    requires TagCovered(k, peer, own, ChainAfter(k, DECRYPT_DIRECTION, peer[..n]), buf)
    ensures Accepts(k, DECRYPT_DIRECTION, ChainAfter(k, DECRYPT_DIRECTION, peer[..n]), buf)
       <==> n < |peer| && buf == FrameAt(k, DECRYPT_DIRECTION, peer, n)
  {
    var c := ChainAfter(k, DECRYPT_DIRECTION, peer[..n]);
    if n < |peer| && buf == FrameAt(k, DECRYPT_DIRECTION, peer, n) {
      OpenSeal(k, DECRYPT_DIRECTION, c, peer[n]);
    }
    if Accepts(k, DECRYPT_DIRECTION, c, buf) { AcceptedIsTheNext(k, peer, own, n, buf); }
  }

  lemma AcceptedIsTheNext(k: Keys, peer: seq<Message>, own: seq<Message>, n: nat, buf: Bytes)
    requires AllSealable(peer) && AllSealable(own) && CollisionFree(k, peer, own) && n <= |peer|
    requires TagCovered(k, peer, own, ChainAfter(k, DECRYPT_DIRECTION, peer[..n]), buf)
    requires Accepts(k, DECRYPT_DIRECTION, ChainAfter(k, DECRYPT_DIRECTION, peer[..n]), buf)
    ensures n < |peer| && buf == FrameAt(k, DECRYPT_DIRECTION, peer, n)
  {
    var j := PeerPosition(k, peer, own, ChainAfter(k, DECRYPT_DIRECTION, peer[..n]), buf);
    ChainPositionsDistinct(k, peer, own, n, j);
    BodyAndTag(buf);
  }

  lemma BodyAndTag(buf: Bytes)
    requires WellShaped(buf)
    ensures buf == Body(buf) + Tag(buf)
  {
  }

  /** A frame accepted at some chain value is one the peer sealed at a position with that chain value. */
  lemma PeerPosition(k: Keys, peer: seq<Message>, own: seq<Message>, c: Chain, buf: Bytes) returns (j: nat)
    requires AllSealable(peer) && AllSealable(own)
    requires Accepts(k, DECRYPT_DIRECTION, c, buf) && TagCovered(k, peer, own, c, buf)
    ensures j < |peer| && TagBefore(k, peer, j) == c.mac
    ensures Body(buf) + Tag(buf) == FrameAt(k, DECRYPT_DIRECTION, peer, j)
  {
    var x := k.MacInput(DECRYPT_DIRECTION, c.mac, Body(buf));
    forall i | 0 <= i < |own| ensures x != InputAt(k, ENCRYPT_DIRECTION, own, i) {
      var o := ChainAfter(k, ENCRYPT_DIRECTION, own[..i]);
      if x == InputAt(k, ENCRYPT_DIRECTION, own, i) {
        MacInputInjective(k, DECRYPT_DIRECTION, c.mac, Body(buf), ENCRYPT_DIRECTION, o.mac, Ciphertext(k, o, own[i]));
      }
    }
    j :| 0 <= j < |peer| && x == InputAt(k, DECRYPT_DIRECTION, peer, j);
    var p := ChainAfter(k, DECRYPT_DIRECTION, peer[..j]);
    MacInputInjective(k, DECRYPT_DIRECTION, c.mac, Body(buf), DECRYPT_DIRECTION, p.mac, Ciphertext(k, p, peer[j]));
  }

  /** The messages a caller of Decrypt got, in order, the errors left out. */
  function Delivered(rs: seq<Result<Bytes>>): seq<Bytes> {
    if rs == [] then []
    else
      var d := Delivered(rs[..|rs| - 1]);
      if rs[|rs| - 1].Ok? then d + [rs[|rs| - 1].value] else d
  }

  function ClearPrefix(ms: seq<Message>, n: nat): seq<Bytes>
    requires n <= |ms|
  {
    seq(n, i requires 0 <= i < n => ms[i].clear)
  }

  /** The receiver has accepted exactly the peer's first frames and returned exactly their messages. */
  ghost predicate InStep(k: Keys, peer: seq<Message>, r: Receiver)
    requires AllSealable(peer)
  {
    && |r.accepted| <= |peer|
    && r.accepted == Frames(k, DECRYPT_DIRECTION, peer)[..|r.accepted|]
    && r.chain == ChainAfter(k, DECRYPT_DIRECTION, peer[..|r.accepted|])
    && Delivered(r.results) == ClearPrefix(peer, |r.accepted|)
  }

  lemma SnocPrefix<T>(s: seq<T>, n: nat)
    requires n < |s|
    ensures s[..n + 1] == s[..n] + [s[n]]
  {
  }

  lemma SnocDelivered(rs: seq<Result<Bytes>>, x: Result<Bytes>)
    ensures Delivered(rs + [x]) == if x.Ok? then Delivered(rs) + [x.value] else Delivered(rs)
  {
    assert (rs + [x])[..|rs|] == rs;
  }

  lemma SnocClearPrefix(ms: seq<Message>, n: nat)
    requires n < |ms|
    ensures ClearPrefix(ms, n + 1) == ClearPrefix(ms, n) + [ms[n].clear]
  {
  }

  lemma TakeNextKeepsStep(k: Keys, peer: seq<Message>, r: Receiver)
    requires k.Valid() && AllSealable(peer) && InStep(k, peer, r) && |r.accepted| < |peer|
    ensures InStep(k, peer, Take(k, DECRYPT_DIRECTION, r, FrameAt(k, DECRYPT_DIRECTION, peer, |r.accepted|)))
  {
    var n := |r.accepted|;
    TakeSealed(k, DECRYPT_DIRECTION, r, r.chain, peer[n]);
    TagOfPosition(k, peer, [], n);
    SnocPrefix(Frames(k, DECRYPT_DIRECTION, peer), n);
    SnocDelivered(r.results, Ok(peer[n].clear));
    SnocClearPrefix(peer, n);
  }

  lemma TakeOtherKeepsStep(k: Keys, peer: seq<Message>, r: Receiver, f: Bytes)
    requires AllSealable(peer) && InStep(k, peer, r) && !Accepts(k, DECRYPT_DIRECTION, r.chain, f)
    ensures InStep(k, peer, Take(k, DECRYPT_DIRECTION, r, f))
  {
    SnocDelivered(r.results, OpenResult(k, DECRYPT_DIRECTION, r.chain, f));
  }

  /** Whatever the wire delivers - frames reordered, repeated, skipped, invented or played back from the
      other direction - what the receiver accepts is a prefix of what the peer sealed, and the messages
      returned are exactly the ones the peer sealed into that prefix. */
  lemma {:induction false} AcceptedIsPrefixOfSealed(k: Keys, peer: seq<Message>, own: seq<Message>,
      delivered: seq<Bytes>)
    requires k.Valid() && AllSealable(peer) && AllSealable(own)
    requires CollisionFree(k, peer, own) && Unforged(k, peer, own, delivered)
    ensures InStep(k, peer, Receive(k, DECRYPT_DIRECTION, delivered))
    decreases |delivered|
  {
    if delivered == [] {
      assert peer[..0] == [];
    } else {
      var m := |delivered| - 1;
      var before := delivered[..m];
      UnforgedPrefix(k, peer, own, delivered, m);
      AcceptedIsPrefixOfSealed(k, peer, own, before);
      var r := Receive(k, DECRYPT_DIRECTION, before);
      assert Covered(k, peer, own, delivered, m);
      AcceptsOnlyTheNextFrame(k, peer, own, |r.accepted|, delivered[m]);
      if Accepts(k, DECRYPT_DIRECTION, r.chain, delivered[m]) {
        TakeNextKeepsStep(k, peer, r);
      } else {
        TakeOtherKeepsStep(k, peer, r, delivered[m]);
      }
    }
  }

  lemma UnforgedPrefix(k: Keys, peer: seq<Message>, own: seq<Message>, delivered: seq<Bytes>, m: nat)
    requires AllSealable(peer) && AllSealable(own) && Unforged(k, peer, own, delivered) && m <= |delivered|
    ensures Unforged(k, peer, own, delivered[..m])
  {
    forall i | 0 <= i < m ensures Covered(k, peer, own, delivered[..m], i) {
      assert Covered(k, peer, own, delivered, i);
      assert delivered[..m][..i] == delivered[..i];
    }
  }

  /** A frame refused by the length, alignment or tag check leaves the receive state as it was. */
  lemma RejectedFrameKeepsState(k: Keys, dir: Byte, c: Chain, buf: Bytes)
    requires |buf| < MIN_MESSAGE_LENGTH || !Aligned(buf)
          || Tag(buf) != k.hmac(k.MacInput(dir, c.mac, Body(buf)))
    ensures OpenNext(k, dir, c, buf) == c && OpenResult(k, dir, c, buf).Err?
  {
  }

  // ----- the object -----

  /** AESCrypto with its four rolling fields; the two mutexes make each method one atomic step. */
  class AESCrypto {
    const keys: Keys
    var txCBC: Block
    var lastTXHMAC: Block
    var rxCBC: Block
    var lastRXHMAC: Block

    function Tx(): Chain
      reads this
    {
      Chain(txCBC, lastTXHMAC)
    }

    function Rx(): Chain
      reads this
    {
      Chain(rxCBC, lastRXHMAC)
    }

    constructor (keys: Keys)
      ensures this.keys == keys && Tx() == Start(keys) && Rx() == Start(keys)
    {
      this.keys := keys;
      txCBC, lastTXHMAC := keys.iv, ZERO_BLOCK;
      rxCBC, lastRXHMAC := keys.iv, ZERO_BLOCK;
    }

    method Reset()
      modifies this
      ensures Tx() == Start(keys) && Rx() == Start(keys)
    {
      txCBC := keys.iv;
      lastTXHMAC := ZERO_BLOCK;
      rxCBC := keys.iv;
      lastRXHMAC := ZERO_BLOCK;
    }

    method ChainHMAC(dir: Byte, last: Block, ct: Bytes) returns (mac: Block)
      ensures mac == keys.hmac(keys.MacInput(dir, last, ct))
    {
      var h := keys.iv;
      h := h + [dir];
      h := h + last;
      h := h + ct;
      mac := keys.hmac(h);
    }

    method PadMessage(clear: Bytes, random: Bytes) returns (r: Result<Bytes>)
      ensures r.Ok? == Pad(clear, random).Ok?
      ensures r.Ok? ==> r == Pad(clear, random)
    {
      if |clear| > READ_LIMIT {
        return Err("message exceeds the limit");
      }
      var padLen := BLOCK_SIZE - |clear| % BLOCK_SIZE;
      if padLen == 1 {
        padLen := padLen + BLOCK_SIZE;
      }
      var out := clear;
      out := out + [0];
      if |random| < padLen - 2 {
        return Err("read random padding");
      }
      out := out + random[..padLen - 2];
      out := out + [padLen];
      return Ok(out);
    }

    /** Seals from the transmit chain and advances it; an error leaves everything as it was. */
    method Seal(dir: Byte, m: Message) returns (r: Result<Bytes>)
      modifies this
      ensures Rx() == old(Rx())
      ensures r.Ok? <==> Sealable(m)
      ensures r.Ok? ==> r.value == SealFrame(keys, dir, old(Tx()), m) && Tx() == SealNext(keys, dir, old(Tx()), m)
      ensures r.Err? ==> Tx() == old(Tx())
    {
      var padded := PadMessage(m.clear, m.random);
      if padded.Err? {
        return padded;
      }
      var ct := CbcEncrypt(keys, txCBC, padded.value);
      txCBC := NextIv(txCBC, ct);
      var mac := ChainHMAC(dir, lastTXHMAC, ct);
      lastTXHMAC := mac;
      return Ok(ct + mac);
    }

    /** Verifies, advances the receive chain only on success, decrypts and strips the padding. */
    method Open(dir: Byte, buf: Bytes) returns (r: Result<Bytes>)
      modifies this
      ensures Tx() == old(Tx())
      ensures r == OpenResult(keys, dir, old(Rx()), buf) && Rx() == OpenNext(keys, dir, old(Rx()), buf)
    {
      if |buf| < MIN_MESSAGE_LENGTH {
        return Err("frame too short");
      }
      if |buf| % BLOCK_SIZE != 0 {
        return Err("frame not block-aligned");
      }
      var ct := buf[..|buf| - HMAC_TRUNC];
      var recv := buf[|buf| - HMAC_TRUNC..];
      var expected := ChainHMAC(dir, lastRXHMAC, ct);
      if recv != expected {
        return Err("HMAC mismatch");
      }
      lastRXHMAC := recv;
      var plain := CbcDecrypt(keys, rxCBC, ct);
      rxCBC := NextIv(rxCBC, ct);
      return Unpad(plain);
    }

    method Encrypt(m: Message) returns (r: Result<Bytes>)
      modifies this
      ensures Rx() == old(Rx())
      ensures r.Ok? <==> Sealable(m)
      ensures r.Ok? ==> r.value == SealFrame(keys, ENCRYPT_DIRECTION, old(Tx()), m)
      ensures r.Ok? ==> Tx() == SealNext(keys, ENCRYPT_DIRECTION, old(Tx()), m)
      ensures r.Err? ==> Tx() == old(Tx())
    {
      r := Seal(ENCRYPT_DIRECTION, m);
    }

    method Decrypt(buf: Bytes) returns (r: Result<Bytes>)
      modifies this
      ensures Tx() == old(Tx())
      ensures r == OpenResult(keys, DECRYPT_DIRECTION, old(Rx()), buf)
           && Rx() == OpenNext(keys, DECRYPT_DIRECTION, old(Rx()), buf)
    {
      r := Open(DECRYPT_DIRECTION, buf);
    }
  }
}
