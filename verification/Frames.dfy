/** Sealed frames (packages/crypto/src/frames.ts): a counter and a ciphertext, preceded by the sealer's
  salt on the first frame of a direction.

  The subkey derivation, AES-GCM and the text codec are functions of the model's `Cipher`; what the
  theorems need of them is said where it is needed.
 */
module Frames {
  import opened Options
  import opened Bytes

  type Key = string
  type Subkey = string
  type Salt = s: seq<Byte> | |s| == 16 witness seq(16, i => 0)

  datatype Direction = C2S | S2C

  datatype Cipher = Cipher(
    derive: (Key, Salt, Direction) -> Subkey,
    encrypt: (Subkey, Direction, nat, seq<Byte>) -> seq<Byte>,
    decrypt: (Subkey, Direction, nat, seq<Byte>) -> Option<seq<Byte>>)

  const COUNTER_BYTES := 8
  const SALT_BYTES := 16
  const MAX_COUNTER: nat := 0xFFFF_FFFF_FFFF_FFFF

  datatype Sealer = Sealer(key: Key, direction: Direction, salt: Salt, counter: nat)
  datatype Opener = Opener(key: Key, direction: Direction, salt: Salt, highest: Option<nat>)

  /** `width` bytes, most significant first. */
  function BigEndian(n: nat, width: nat): (r: seq<Byte>)
    ensures |r| == width
  {
    if width == 0 then [] else BigEndian(n / 256, width - 1) + [n % 256]
  }

  function ReadBigEndian(bytes: seq<Byte>): nat {
    if bytes == [] then 0 else ReadBigEndian(bytes[..|bytes| - 1]) * 256 + bytes[|bytes| - 1]
  }

  function Pow256(width: nat): (p: nat)
    ensures p > 0
  {
    if width == 0 then 1 else 256 * Pow256(width - 1)
  }

  lemma {:induction false} ReadsBack(n: nat, width: nat)
    requires n < Pow256(width)
    ensures ReadBigEndian(BigEndian(n, width)) == n
  {
    if width > 0 {
      ReadsBack(n / 256, width - 1);
      var r := BigEndian(n, width);
      assert r[..|r| - 1] == BigEndian(n / 256, width - 1);
    }
  }

  lemma CounterReadsBack(n: nat)
    requires n <= MAX_COUNTER
    ensures ReadBigEndian(BigEndian(n, COUNTER_BYTES)) == n
  {
    assert Pow256(8) == 256 * 256 * 256 * 256 * 256 * 256 * 256 * 256 by {
      assert Pow256(1) == 256;
      assert Pow256(2) == 256 * 256;
      assert Pow256(4) == 256 * 256 * 256 * 256;
      assert Pow256(6) == 256 * 256 * 256 * 256 * 256 * 256;
    }
    ReadsBack(n, 8);
  }

  /** The counter's last byte is its lowest. */
  lemma CountersAreBigEndian(n: nat)
    ensures |BigEndian(n, COUNTER_BYTES)| == 8 && BigEndian(n, COUNTER_BYTES)[7] == n % 256
    ensures BigEndian(n, COUNTER_BYTES)[6] == n / 256 % 256
  {
    assert BigEndian(n, 8) == BigEndian(n / 256, 7) + [n % 256];
    assert BigEndian(n / 256, 7) == BigEndian(n / 256 / 256, 6) + [n / 256 % 256];
  }

  /** The `n`th frame a sealer produces. */
  function FrameAt(c: Cipher, key: Key, direction: Direction, salt: Salt, n: nat, plaintext: seq<Byte>): seq<Byte> {
    (if n == 0 then salt else []) + (BigEndian(n, COUNTER_BYTES) + c.encrypt(c.derive(key, salt, direction), direction, n, plaintext))
  }

  function Seal(c: Cipher, s: Sealer, plaintext: seq<Byte>): Option<(Sealer, seq<Byte>)> {
    if s.counter > MAX_COUNTER then None
    else Some((s.(counter := s.counter + 1), FrameAt(c, s.key, s.direction, s.salt, s.counter, plaintext)))
  }

  function Open(c: Cipher, o: Opener, frame: seq<Byte>): Option<(Opener, seq<Byte>)> {
    if |frame| <= COUNTER_BYTES then None
    else
      var counter := ReadBigEndian(frame[..COUNTER_BYTES]);
      if o.highest.Some? && counter <= o.highest.value then None
      else
        match c.decrypt(c.derive(o.key, o.salt, o.direction), o.direction, counter, frame[COUNTER_BYTES..])
        case None => None
        case Some(plaintext) => Some((o.(highest := Some(counter)), plaintext))
  }

  function Bind(c: Cipher, key: Key, direction: Direction, first: seq<Byte>): Option<(Opener, seq<Byte>)> {
    if |first| <= SALT_BYTES + COUNTER_BYTES then None
    else
      var body := first[SALT_BYTES..];
      if ReadBigEndian(body[..COUNTER_BYTES]) != 0 then None
      else Open(c, Opener(key, direction, first[..SALT_BYTES], None), body)
  }

  // ---------------------------------------------------------------------------
  // A direction's worth of frames
  // ---------------------------------------------------------------------------

  /** Binding to the first frame and opening the rest, in the order given. */
  function OpenAll(c: Cipher, key: Key, direction: Direction, frames: seq<seq<Byte>>): Option<(Opener, seq<seq<Byte>>)>
    requires frames != []
  {
    var last := frames[|frames| - 1];
    if |frames| == 1 then
      match Bind(c, key, direction, last)
      case None => None
      case Some((o, p)) => Some((o, [p]))
    else
      match OpenAll(c, key, direction, frames[..|frames| - 1])
      case None => None
      case Some((o, ps)) =>
        match Open(c, o, last)
        case None => None
        case Some((o2, p)) => Some((o2, ps + [p]))
  }

  function SealedFrames(c: Cipher, key: Key, direction: Direction, salt: Salt, plaintexts: seq<seq<Byte>>): (r: seq<seq<Byte>>)
    ensures |r| == |plaintexts|
  {
    seq(|plaintexts|, i requires 0 <= i < |plaintexts| => FrameAt(c, key, direction, salt, i, plaintexts[i]))
  }

  /** Decryption undoes encryption under the same subkey and counter, and a ciphertext carries a tag. */
  ghost predicate Undoes(c: Cipher) {
    && (forall k, d, n, p :: c.decrypt(k, d, n, c.encrypt(k, d, n, p)) == Some(p))
    && (forall k, d, n, p :: |c.encrypt(k, d, n, p)| > 0)
  }

  lemma FrameLayout(c: Cipher, key: Key, direction: Direction, salt: Salt, n: nat, plaintext: seq<Byte>)
    ensures var f := FrameAt(c, key, direction, salt, n, plaintext);
            var body := if n == 0 then f[SALT_BYTES..] else f;
            && (n == 0 ==> |f| >= SALT_BYTES && f[..SALT_BYTES] == salt)
            && |body| >= COUNTER_BYTES && body[..COUNTER_BYTES] == BigEndian(n, COUNTER_BYTES)
            && body[COUNTER_BYTES..] == c.encrypt(c.derive(key, salt, direction), direction, n, plaintext)
  {
    var f := FrameAt(c, key, direction, salt, n, plaintext);
    var ct := c.encrypt(c.derive(key, salt, direction), direction, n, plaintext);
    var body := BigEndian(n, COUNTER_BYTES) + ct;
    assert n == 0 ==> f[SALT_BYTES..] == body;
    assert n > 0 ==> f == body;
    assert body[COUNTER_BYTES..] == ct;
  }

  /** Main result: the frames a sealer produced, opened in order, give back the plaintexts in order,
    * and leave the opener expecting the next counter. */
  lemma {:induction false} OpeningUndoesSealing(c: Cipher, key: Key, direction: Direction, salt: Salt, plaintexts: seq<seq<Byte>>)
    requires Undoes(c) && 0 < |plaintexts| <= MAX_COUNTER + 1
    ensures OpenAll(c, key, direction, SealedFrames(c, key, direction, salt, plaintexts))
         == Some((Opener(key, direction, salt, Some(|plaintexts| - 1)), plaintexts))
  {
    hide BigEndian, ReadBigEndian, FrameAt;
    var n := |plaintexts| - 1;
    var frames := SealedFrames(c, key, direction, salt, plaintexts);
    FrameLayout(c, key, direction, salt, n, plaintexts[n]);
    CounterReadsBack(n);
    assert frames[n] == FrameAt(c, key, direction, salt, n, plaintexts[n]);
    if n == 0 {
      assert plaintexts == [plaintexts[0]];
    } else {
      OpeningUndoesSealing(c, key, direction, salt, plaintexts[..n]);
      assert frames[..n] == SealedFrames(c, key, direction, salt, plaintexts[..n]);
      assert plaintexts == plaintexts[..n] + [plaintexts[n]];
    }
  }

  /** The counters of the frames in the order an opener took them. */
  function Counters(frames: seq<seq<Byte>>): seq<nat> {
    seq(|frames|, i requires 0 <= i < |frames| =>
      var body := if i == 0 && |frames[0]| >= SALT_BYTES then frames[0][SALT_BYTES..] else frames[i];
      if |body| >= COUNTER_BYTES then ReadBigEndian(body[..COUNTER_BYTES]) else 0)
  }

  /** Main result: whatever bytes arrive, the frames an opener accepts carry strictly increasing counters
    * starting at zero, so none is accepted twice and none after a later one. */
  lemma {:induction false} AcceptedCountersIncrease(c: Cipher, key: Key, direction: Direction, frames: seq<seq<Byte>>)
    requires frames != [] && OpenAll(c, key, direction, frames).Some?
    ensures Counters(frames)[0] == 0
    ensures OpenAll(c, key, direction, frames).value.0.highest == Some(Counters(frames)[|frames| - 1])
    ensures forall i, j | 0 <= i < j < |frames| :: Counters(frames)[i] < Counters(frames)[j]
  {
    hide ReadBigEndian;
    var n := |frames| - 1;
    if n > 0 {
      AcceptedCountersIncrease(c, key, direction, frames[..n]);
      assert Counters(frames)[..n] == Counters(frames[..n]);
      assert forall i | 0 <= i < n :: Counters(frames)[i] == Counters(frames[..n])[i];
    }
  }

  /** What AES-GCM is assumed to guarantee about one subkey: only what was sealed under it opens. */
  ghost predicate Authentic(c: Cipher, key: Key, direction: Direction, salt: Salt, plaintexts: seq<seq<Byte>>) {
    forall n: nat, ct :: c.decrypt(c.derive(key, salt, direction), direction, n, ct).Some? ==>
      n < |plaintexts| && c.decrypt(c.derive(key, salt, direction), direction, n, ct).value == plaintexts[n]
  }

  lemma {:induction false} OpenerKeepsItsSalt(c: Cipher, key: Key, direction: Direction, frames: seq<seq<Byte>>)
    requires frames != [] && OpenAll(c, key, direction, frames).Some?
    ensures |frames[0]| >= SALT_BYTES
    ensures var o := OpenAll(c, key, direction, frames).value.0; o.key == key && o.direction == direction && o.salt == frames[0][..SALT_BYTES]
    ensures |OpenAll(c, key, direction, frames).value.1| == |frames|
  {
    if |frames| > 1 { OpenerKeepsItsSalt(c, key, direction, frames[..|frames| - 1]); }
  }

  /** Main result: what a forwarder can do to a direction, when only genuine ciphertexts open: every opened
    * line is the one its counter names, so with the previous result the lines read are a subsequence of the
    * lines sealed, in order, each at most once, beginning with the first. */
  lemma {:induction false} OpenedLinesAreSealedLines(c: Cipher, key: Key, direction: Direction, salt: Salt, plaintexts: seq<seq<Byte>>, frames: seq<seq<Byte>>)
    requires Authentic(c, key, direction, salt, plaintexts)
    requires frames != [] && OpenAll(c, key, direction, frames).Some?
    requires |frames[0]| >= SALT_BYTES && frames[0][..SALT_BYTES] == salt
    ensures var ps := OpenAll(c, key, direction, frames).value.1;
            |ps| == |frames| && forall i | 0 <= i < |ps| :: Counters(frames)[i] < |plaintexts| && ps[i] == plaintexts[Counters(frames)[i]]
  {
    hide ReadBigEndian;
    var n := |frames| - 1;
    OpenerKeepsItsSalt(c, key, direction, frames);
    if n > 0 {
      OpenedLinesAreSealedLines(c, key, direction, salt, plaintexts, frames[..n]);
      OpenerKeepsItsSalt(c, key, direction, frames[..n]);
      assert forall i | 0 <= i < n :: Counters(frames)[i] == Counters(frames[..n])[i];
    }
  }

  /** The counters need only increase: a frame held back by the forwarder is not missed. */
  lemma OmissionGoesUnnoticed(c: Cipher, key: Key, salt: Salt, a: seq<Byte>, b: seq<Byte>, d: seq<Byte>)
    requires Undoes(c)
    ensures var sealed := SealedFrames(c, key, C2S, salt, [a, b, d]);
            OpenAll(c, key, C2S, [sealed[0], sealed[2]]) == Some((Opener(key, C2S, salt, Some(2)), [a, d]))
  {
    hide BigEndian, ReadBigEndian, FrameAt;
    var sealed := SealedFrames(c, key, C2S, salt, [a, b, d]);
    OpeningUndoesSealing(c, key, C2S, salt, [a]);
    assert SealedFrames(c, key, C2S, salt, [a]) == [sealed[0]];
    assert [sealed[0], sealed[2]][..1] == [sealed[0]];
    FrameLayout(c, key, C2S, salt, 2, d);
    CounterReadsBack(2);
    assert [a, b, d][2] == d && sealed[2] == FrameAt(c, key, C2S, salt, 2, d);
    assert Open(c, Opener(key, C2S, salt, Some(0)), sealed[2]) == Some((Opener(key, C2S, salt, Some(2)), d));
    assert [a] + [d] == [a, d];
  }
}
