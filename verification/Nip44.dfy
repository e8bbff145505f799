/** NIP-44 version 2: padding and envelope of an encrypted message. */
module Nip44 {
  import opened Base64

  const VERSION: Byte := 2
  const NONCE_SIZE := 32
  const MAC_SIZE := 32
  const MIN_PLAINTEXT := 1
  const MAX_PLAINTEXT := 65535
  const MIN_PAYLOAD := 132
  const MIN_DECODED := 99

  datatype Opened = Plain(bytes: seq<Byte>) | Refused

  datatype Sealed = Payload(text: string) | BadInput

  // The padded length of a message.

  function Pow2(k: nat): (p: nat)
    ensures p > 0
  {
    if k == 0 then 1 else 2 * Pow2(k - 1)
  }

  function Log2(n: nat): nat { if n < 2 then 0 else 1 + Log2(n / 2) }

  lemma {:induction false} Log2Bounds(n: nat)
    requires n > 0
    ensures Pow2(Log2(n)) <= n < 2 * Pow2(Log2(n))
  {
    if n >= 2 { Log2Bounds(n / 2); }
  }

  function NextPower(n: nat): nat
    requires n > 1
  {
    Pow2(Log2(n - 1) + 1)
  }

  function ChunkOf(power: nat): nat { if power <= 256 then 32 else power / 8 }

  function CalcPaddedLen(n: nat): nat {
    if n <= 32 then 32
    else
      var chunk := ChunkOf(NextPower(n));
      if chunk == 0 then 0 else chunk * ((n - 1) / chunk + 1)
  }

  lemma {:induction false} Pow2Mono(j: nat, k: nat)
    requires j <= k
    ensures Pow2(j) <= Pow2(k)
    ensures j < k ==> 2 * Pow2(j) <= Pow2(k)
  {
    if j < k { Pow2Mono(j, k - 1); }
  }

  /** The next power is the smallest one not below the length. */
  lemma {:induction false} NextPowerTight(n: nat)
    requires n > 1
    ensures n <= NextPower(n) < 2 * n && NextPower(n) < 2 * (n - 1) + 1
  {
    Log2Bounds(n - 1);
  }

  lemma {:induction false} NextPowerUnique(n: nat, k: nat)
    requires n > 1 && k > 0 && Pow2(k - 1) < n <= Pow2(k)
    ensures NextPower(n) == Pow2(k)
  {
    Log2Bounds(n - 1);
    var j := Log2(n - 1);
    if j + 1 < k { Pow2Mono(j + 1, k - 1); }
    if k < j + 1 { Pow2Mono(k, j); }
  }

  lemma {:induction false} EightDivides(k: nat)
    requires Pow2(k) > 256
    ensures Pow2(k) % 8 == 0 && k >= 3
  {
    assert k >= 3;
    assert Pow2(k) == 2 * Pow2(k - 1) == 4 * Pow2(k - 2) == 8 * Pow2(k - 3);
  }

  /** The chunk divides the power, at most eight times; rounding up to it stays at or below the power. */
  lemma {:induction false} ChunkDivides(k: nat)
    requires Pow2(k) > 32
    ensures var c := ChunkOf(Pow2(k)); c >= 32 && exists m: nat :: m * c == Pow2(k)
  {
    if Pow2(k) > 256 {
      EightDivides(k);
      assert 8 * ChunkOf(Pow2(k)) == Pow2(k);
    } else {
      Pow2Of(k);
      assert Pow2(k) == 64 || Pow2(k) == 128 || Pow2(k) == 256;
      assert 2 * 32 == 64 && 4 * 32 == 128 && 8 * 32 == 256;
    }
  }

  lemma {:induction false} Pow2Of(k: nat)
    requires 32 < Pow2(k) <= 256
    ensures 6 <= k <= 8 && (k == 6 ==> Pow2(k) == 64) && (k == 7 ==> Pow2(k) == 128) && (k == 8 ==> Pow2(k) == 256)
  {
    assert Pow2(5) == 32 && Pow2(6) == 64 && Pow2(7) == 128 && Pow2(8) == 256 && Pow2(9) == 512;
    if k <= 5 { Pow2Mono(k, 5); }
    if k >= 9 { Pow2Mono(9, k); }
  }

  function RoundUp(n: nat, c: nat): nat
    requires n > 0 && c > 0
  {
    c * ((n - 1) / c + 1)
  }

  lemma {:induction false} RoundUpFacts(n: nat, c: nat)
    requires n > 0 && c > 0
    ensures n <= RoundUp(n, c) < n + c
    ensures exists m: nat :: m * c == RoundUp(n, c)
  {
    var q := (n - 1) / c;
    assert q * c <= n - 1 < q * c + c;
    assert RoundUp(n, c) == q * c + c;
    assert (q + 1) * c == q * c + c;
  }

  /** A multiple of c that is at least n is at least n rounded up. */
  lemma {:induction false} RoundUpLeast(n: nat, c: nat, m: nat)
    requires n > 0 && c > 0 && n <= m * c
    ensures RoundUp(n, c) <= m * c
  {
    var q := (n - 1) / c;
    assert q * c <= n - 1;
    if m <= q { MulMono(m, q, c); }
    MulMono(q + 1, m, c);
    assert (q + 1) * c == q * c + c == RoundUp(n, c);
  }

  lemma {:induction false} MulMono(a: int, b: int, c: nat)
    ensures a <= b ==> a * c <= b * c
  {
    if a <= b { assert b * c - a * c == (b - a) * c; }
  }

  /** For a long message: covered, by less than a chunk, and without passing the next power of two. */
  lemma {:induction false} LongPadded(n: nat)
    requires n > 32
    ensures var c := ChunkOf(NextPower(n));
            && c >= 32 && CalcPaddedLen(n) == RoundUp(n, c)
            && n <= CalcPaddedLen(n) < n + c && CalcPaddedLen(n) <= NextPower(n)
  {
    var k := Log2(n - 1) + 1;
    var c := ChunkOf(NextPower(n));
    NextPowerTight(n);
    ChunkDivides(k);
    var m: nat :| m * c == Pow2(k);
    RoundUpFacts(n, c);
    RoundUpLeast(n, c, m);
  }

  /** The chunk a length is rounded up to. */
  function Chunk(n: nat): nat { if n <= 32 then 32 else ChunkOf(NextPower(n)) }

  /** Padding hides the length up to one chunk: never shorter, over by less than a chunk for any non-empty message. */
  lemma {:induction false} PaddedCovers(n: nat)
    ensures CalcPaddedLen(n) >= n && CalcPaddedLen(n) >= 32
    ensures n > 0 ==> CalcPaddedLen(n) < n + Chunk(n)
  {
    if n > 32 { LongPadded(n); }
  }

  /**
   * The padded length in full: up to 256 bytes the least positive multiple of 32
   * that holds the message, and beyond that the least multiple of an eighth of the
   * next power of two.
   */
  lemma {:induction false} PaddedExact(n: nat, k: nat)
    ensures n <= 256 ==> var m := CalcPaddedLen(n); m % 32 == 0 && n <= m && 32 <= m && (m == 32 || m < n + 32)
    ensures 8 <= k && Pow2(k) < n <= Pow2(k + 1) ==>
              var m, chunk := CalcPaddedLen(n), Pow2(k - 2);
              n <= m < n + chunk && exists q: nat :: q * chunk == m
  {
    if 32 < n <= 256 {
      LongPadded(n);
      NextUpto256(n);
    }
    if 8 <= k && Pow2(k) < n <= Pow2(k + 1) { LongExact(n, k); }
  }

  lemma {:induction false} LongExact(n: nat, k: nat)
    requires 8 <= k && Pow2(k) < n <= Pow2(k + 1)
    ensures var m, chunk := CalcPaddedLen(n), Pow2(k - 2);
            n <= m < n + chunk && exists q: nat :: q * chunk == m
  {
    var chunk := Pow2(k - 2);
    assert Pow2(k + 1) == 2 * Pow2(k) == 4 * Pow2(k - 1) == 8 * chunk;
    assert Pow2(8) == 256;
    Pow2Mono(8, k);
    NextPowerUnique(n, k + 1);
    LongPadded(n);
    RoundUpFacts(n, chunk);
  }

  lemma {:induction false} NextUpto256(n: nat)
    requires 1 < n <= 256
    ensures NextPower(n) <= 256
  {
    var j := Log2(n - 1);
    Log2Bounds(n - 1);
    assert Pow2(8) == 256;
    if j >= 8 { Pow2Mono(8, j); }
  }

  /** A padded length is its own padded length. */
  lemma {:induction false} PaddedIdempotent(n: nat)
    ensures CalcPaddedLen(CalcPaddedLen(n)) == CalcPaddedLen(n)
  {
    if n > 32 {
      var p, m := NextPower(n), CalcPaddedLen(n);
      var k := Log2(n - 1) + 1;
      LongPadded(n);
      Log2Bounds(n - 1);
      NextPowerUnique(m, k);
      var c := ChunkOf(p);
      RoundUpFacts(n, c);
      var q: nat :| q * c == m;
      RoundUpLeast(m, c, q);
      LongPadded(m);
    }
  }

  /** Longer messages never have shorter paddings. */
  lemma {:induction false} PaddedMonotone(a: nat, b: nat)
    requires a <= b
    ensures CalcPaddedLen(a) <= CalcPaddedLen(b)
  {
    PaddedCovers(b);
    if a > 32 {
      LongPadded(a);
      LongPadded(b);
      var j, k := Log2(a - 1) + 1, Log2(b - 1) + 1;
      Log2Bounds(a - 1);
      Log2Bounds(b - 1);
      if j < k {
        Pow2Mono(j, k - 1);
      } else if j == k {
        var c := ChunkOf(Pow2(k));
        RoundUpFacts(b, c);
        var q: nat :| q * c == RoundUp(b, c);
        RoundUpLeast(a, c, q);
      } else {
        Pow2Mono(k, j - 1);
      }
    }
  }

  // Padding and unpadding.

  function U16(n: nat): seq<Byte> { [n / 256 % 256, n % 256] }

  function BigEndian16(b: seq<Byte>): nat
    requires |b| >= 2
  {
    b[0] as int * 256 + b[1] as int
  }

  function BigEndian32(b: seq<Byte>): nat
    requires |b| >= 4
  {
    ((b[0] as int * 256 + b[1] as int) * 256 + b[2] as int) * 256 + b[3] as int
  }

  function Zeroes(n: nat): seq<Byte> { seq(n, _ => 0) }

  /** Sixteen bits of length, the message, and zeroes up to the padded length. */
  function Padded(p: seq<Byte>): (r: seq<Byte>)
    ensures |r| == 2 + CalcPaddedLen(|p|)
  {
    PaddedCovers(|p|);
    U16(|p|) + p + Zeroes(CalcPaddedLen(|p|) - |p|)
  }

  function Unpadded(padded: seq<Byte>): Opened {
    if |padded| < 2 then Refused
    else
      var firstTwo := BigEndian16(padded);
      if firstTwo != 0 then Sliced(padded, 2, firstTwo)
      else if |padded| < 6 then Refused
      else
        var n := BigEndian32(padded[2..6]);
        if n < 65536 then Refused else Sliced(padded, 6, n)
  }

  function Sliced(padded: seq<Byte>, prefix: nat, n: nat): Opened {
    if n == 0 || prefix + n > |padded| || |padded| != prefix + CalcPaddedLen(n) then Refused
    else Plain(padded[prefix..prefix + n])
  }

  /** Unpadding gives the message back exactly for lengths 1 to 65535; no other message survives. */
  lemma {:induction false} UnpadExact(p: seq<Byte>)
    ensures Unpadded(Padded(p)) == Plain(p) <==> MIN_PLAINTEXT <= |p| <= MAX_PLAINTEXT
  {
    var n := |p|;
    if n == 0 { EmptyRefused(p); } else if n < 65536 { ShortUnpads(p); } else { LongRefused(p, Padded(p), n % 65536); }
  }

  lemma {:induction false} EmptyRefused(p: seq<Byte>)
    requires p == []
    ensures Unpadded(Padded(p)) == Refused
  {
    PaddedStart(p);
  }

  lemma {:induction false} ShortUnpads(p: seq<Byte>)
    requires 0 < |p| < 65536
    ensures Unpadded(Padded(p)) == Plain(p)
  {
    var n, padded := |p|, Padded(p);
    PaddedStart(p);
    PaddedCovers(n);
    assert BigEndian16(padded) == n;
    assert Unpadded(padded) == Sliced(padded, 2, n);
  }

  /** The length of a longer message does not fit its two bytes, so another length is read, or none. */
  lemma {:induction false} LongRefused(p: seq<Byte>, padded: seq<Byte>, low: nat)
    requires 65536 <= |p| && padded == Padded(p) && low == |p| % 65536 < 65536
    ensures Unpadded(padded) != Plain(p)
  {
    PaddedStart(p);
    assert BigEndian16(padded) == low;
    if low != 0 {
      SlicedLength(padded, 2, low);
    } else {
      SlicedLength(padded, 6, BigEndian32(padded[2..6]));
    }
  }

  /** What is cut out has the length asked for, after which only the padding of that length is left. */
  lemma {:induction false} SlicedLength(padded: seq<Byte>, prefix: nat, n: nat)
    ensures Sliced(padded, prefix, n).Plain? ==>
              |Sliced(padded, prefix, n).bytes| == n && |padded| == prefix + CalcPaddedLen(n)
  {
  }

  /** What the padded message starts with. */
  lemma {:induction false} PaddedStart(p: seq<Byte>)
    ensures BigEndian16(Padded(p)) == |p| % 65536
    ensures Padded(p)[2..2 + |p|] == p
    ensures p == [] ==> BigEndian32(Padded(p)[2..6]) == 0
  {
    var n, padded := |p|, Padded(p);
    PaddedCovers(n);
    assert padded[0] == n / 256 % 256 && padded[1] == n % 256;
    HighAndLow(n);
    if n == 0 { assert padded[2..6] == [0, 0, 0, 0]; }
  }

  lemma {:induction false} HighAndLow(n: nat)
    ensures n / 256 % 256 * 256 + n % 256 == n % 65536
  {
    var q := n / 65536;
    assert n == q * 65536 + n % 65536;
    assert n / 256 == q * 256 + n % 65536 / 256;
  }

  /** Copies the message between its length and the zeroes. */
  method Pad(plaintext: seq<Byte>) returns (result: array<Byte>)
    ensures fresh(result) && result[..] == Padded(plaintext)
  {
    var n := |plaintext|;
    var paddedLen := CalcPaddedLen(n);
    PaddedCovers(n);
    result := new Byte[2 + paddedLen](_ => 0);
    result[0], result[1] := n / 256 % 256, n % 256;
    forall i | 0 <= i < n { result[2 + i] := plaintext[i]; }
  }

  method Unpad(padded: array<Byte>) returns (r: Opened)
    ensures r == Unpadded(padded[..])
  {
    if padded.Length < 2 { return Refused; }
    var firstTwo := padded[0] as int * 256 + padded[1] as int;
    var n, prefix := firstTwo, 2;
    if firstTwo == 0 {
      if padded.Length < 6 { return Refused; }
      n, prefix := BigEndian32(padded[2..6]), 6;
      assert padded[..][2..6] == padded[2..6];
      if n < 65536 { return Refused; }
    }
    if n == 0 { return Refused; }
    if prefix + n > padded.Length { return Refused; }
    if padded.Length != prefix + CalcPaddedLen(n) { return Refused; }
    assert padded[..][prefix..prefix + n] == padded[prefix..prefix + n];
    return Plain(padded[prefix..prefix + n]);
  }

  // The envelope.

  /** Key derivation, stream cipher and authenticator, as ideal functions. */
  datatype Primitives = Primitives(
    expand: (seq<Byte>, seq<Byte>) -> seq<Byte>,
    cipher: (seq<Byte>, seq<Byte>, seq<Byte>) -> seq<Byte>,
    mac: (seq<Byte>, seq<Byte>) -> seq<Byte>)

  /** The cipher keeps lengths and undoes itself; keys and tags have their sizes. */
  ghost predicate Ideal(f: Primitives) {
    && (forall k, n :: |f.expand(k, n)| == 76)
    && (forall k, n, d :: |f.cipher(k, n, d)| == |d|)
    && (forall k, n, d :: f.cipher(k, n, f.cipher(k, n, d)) == d)
    && (forall k, d :: |f.mac(k, d)| == MAC_SIZE)
  }

  function Crypted(f: Primitives, key: seq<Byte>, nonce: seq<Byte>, data: seq<Byte>): seq<Byte> {
    var keys := f.expand(key, nonce);
    if |keys| != 76 then data else f.cipher(keys[..32], keys[32..44], data)
  }

  function Tag(f: Primitives, key: seq<Byte>, nonce: seq<Byte>, ciphertext: seq<Byte>): seq<Byte> {
    var keys := f.expand(key, nonce);
    if |keys| != 76 then [] else f.mac(keys[44..76], nonce + ciphertext)
  }

  function Envelope(f: Primitives, key: seq<Byte>, nonce: seq<Byte>, padded: seq<Byte>): seq<Byte> {
    var ciphertext := Crypted(f, key, nonce, padded);
    [VERSION] + nonce + ciphertext + Tag(f, key, nonce, ciphertext)
  }

  /** What an encoded payload must be to be opened, and what it then opens to. */
  function Opening(f: Primitives, key: seq<Byte>, data: seq<Byte>): Opened {
    if |data| < MIN_DECODED || data[0] != VERSION then Refused
    else
      var nonce, ciphertext, tag := data[1..33], data[33..|data| - 32], data[|data| - 32..];
      if tag != Tag(f, key, nonce, ciphertext) then Refused
      else Unpadded(Crypted(f, key, nonce, ciphertext))
  }

  function Decrypted(f: Primitives, key: seq<Byte>, payload: string): Opened {
    if |key| != 32 || payload == [] || payload[0] == '#' || |payload| < MIN_PAYLOAD then Refused
    else
      var data := Decode(payload);
      if data.Garbage? then Refused else Opening(f, key, data.bytes)
  }

  lemma {:induction false} EnvelopeParts(f: Primitives, key: seq<Byte>, nonce: seq<Byte>, padded: seq<Byte>)
    requires Ideal(f) && |nonce| == NONCE_SIZE
    ensures var data, ciphertext := Envelope(f, key, nonce, padded), Crypted(f, key, nonce, padded);
            && |data| == 1 + 32 + |padded| + 32 && data[0] == VERSION && data[1..33] == nonce
            && data[33..|data| - 32] == ciphertext && data[|data| - 32..] == Tag(f, key, nonce, ciphertext)
            && Crypted(f, key, nonce, ciphertext) == padded
  {
    var keys := f.expand(key, nonce);
    assert |f.expand(key, nonce)| == 76;
    assert f.cipher(keys[..32], keys[32..44], f.cipher(keys[..32], keys[32..44], padded)) == padded;
    assert |f.cipher(keys[..32], keys[32..44], padded)| == |padded|;
    var ciphertext := Crypted(f, key, nonce, padded);
    assert |f.mac(keys[44..76], nonce + ciphertext)| == MAC_SIZE;
  }

  /** Everything encrypted passes the gates and opens to what was encrypted. */
  lemma {:induction false} EncryptDecrypt(f: Primitives, key: seq<Byte>, nonce: seq<Byte>, p: seq<Byte>)
    requires Ideal(f) && |key| == 32 && |nonce| == NONCE_SIZE && MIN_PLAINTEXT <= |p| <= MAX_PLAINTEXT
    ensures var payload := Encode(Envelope(f, key, nonce, Padded(p)));
            && |payload| >= MIN_PAYLOAD && payload[0] != '#'
            && Decrypted(f, key, payload) == Plain(p)
  {
    var padded := Padded(p);
    var data := Envelope(f, key, nonce, padded);
    EnvelopeParts(f, key, nonce, padded);
    PaddedCovers(|p|);
    RoundTrip(data);
    EncodedShape(data);
    UnpadExact(p);
  }

  /** Only what carries the sender's tag over the nonce and the ciphertext is ever opened. */
  lemma {:induction false} OnlyTaggedOpens(f: Primitives, key: seq<Byte>, payload: string)
    requires Decrypted(f, key, payload).Plain?
    ensures Decode(payload).Bytes?
    ensures var data := Decode(payload).bytes;
            && |data| >= MIN_DECODED && data[0] == VERSION
            && data[|data| - 32..] == Tag(f, key, data[1..33], data[33..|data| - 32])
  {
  }

  /** A tag that does not belong to the nonce and ciphertext in front of it is refused, whatever the rest. */
  lemma {:induction false} TamperedIsRefused(f: Primitives, key: seq<Byte>, nonce: seq<Byte>, ciphertext: seq<Byte>,
                                             tag: seq<Byte>)
    requires |nonce| == NONCE_SIZE && |tag| == MAC_SIZE && tag != Tag(f, key, nonce, ciphertext)
    ensures Decrypted(f, key, Encode([VERSION] + nonce + ciphertext + tag)) == Refused
  {
    var data := [VERSION] + nonce + ciphertext + tag;
    RoundTrip(data);
    EncodedShape(data);
    if |data| >= MIN_DECODED {
      assert data[1..33] == nonce && data[33..|data| - 32] == ciphertext && data[|data| - 32..] == tag;
    }
  }

  method EncryptWithNonce(f: Primitives, plaintext: seq<Byte>, key: seq<Byte>, nonce: seq<Byte>)
    returns (payload: string)
    requires |f.expand(key, nonce)| == 76
    ensures payload == Encode(Envelope(f, key, nonce, Padded(plaintext)))
  {
    var padded := Pad(plaintext);
    var keys := f.expand(key, nonce);
    var ciphertext := f.cipher(keys[..32], keys[32..44], padded[..]);
    var tag := f.mac(keys[44..76], nonce + ciphertext);
    payload := Encode([VERSION] + nonce + ciphertext + tag);
  }

  /** Only messages of a size that can be given back are encrypted. */
  method Encrypt(f: Primitives, plaintext: seq<Byte>, key: seq<Byte>, nonce: seq<Byte>) returns (r: Sealed)
    requires Ideal(f) && |nonce| == NONCE_SIZE
    ensures r.Payload? <==> |key| == 32 && MIN_PLAINTEXT <= |plaintext| <= MAX_PLAINTEXT
    ensures r.Payload? ==> Decrypted(f, key, r.text) == Plain(plaintext)
  {
    if |key| != 32 { return BadInput; }
    if |plaintext| < MIN_PLAINTEXT || |plaintext| > MAX_PLAINTEXT { return BadInput; }
    assert |f.expand(key, nonce)| == 76;
    var payload := EncryptWithNonce(f, plaintext, key, nonce);
    EncryptDecrypt(f, key, nonce, plaintext);
    return Payload(payload);
  }

  method Decrypt(f: Primitives, payload: string, key: seq<Byte>) returns (r: Opened)
    requires forall n :: |f.expand(key, n)| == 76
    ensures r == Decrypted(f, key, payload)
  {
    if |key| != 32 { return Refused; }
    if |payload| == 0 { return Refused; }
    if payload[0] == '#' { return Refused; }
    if |payload| < MIN_PAYLOAD { return Refused; }
    var decoded := Decode(payload);
    if decoded.Garbage? { return Refused; }
    var data := decoded.bytes;
    if |data| < MIN_DECODED { return Refused; }
    if data[0] != VERSION { return Refused; }
    var nonce, ciphertext, tag := data[1..33], data[33..|data| - 32], data[|data| - 32..];
    var keys := f.expand(key, nonce);
    assert |f.expand(key, nonce)| == 76;
    if tag != f.mac(keys[44..76], nonce + ciphertext) { return Refused; }
    var plain := f.cipher(keys[..32], keys[32..44], ciphertext);
    var padded := new Byte[|plain|](i requires 0 <= i < |plain| => plain[i]);
    assert padded[..] == plain;
    r := Unpad(padded);
  }
}
