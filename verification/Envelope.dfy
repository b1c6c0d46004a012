/** The encrypted envelope shared by the Go and the Kotlin runners: a symmetric key under RSA,
    the length of the IV, the IV, and the text under AES-GCM. RSA, AES and base64 are taken as
    correct; only the framing is modelled. */
module Envelope {
  import opened Snapshots

  type Byte = b: int | 0 <= b < 256
  type Bytes = seq<Byte>

  const RSK_LENGTH := 16
  const IV_LENGTH := 12
  const INT_LENGTH_IN_BYTES := 4

  /** RSA-OAEP under one key pair, AES-GCM and base64. The randomness of OAEP is its `seed`. */
  datatype Lib = Lib(
    modulusBits: nat,
    oaepEncrypt: (Bytes, nat) -> Bytes,
    oaepDecrypt: Bytes -> Option<Bytes>,
    seal: (Bytes, Bytes, Bytes) -> Bytes,
    open: (Bytes, Bytes, Bytes) -> Option<Bytes>,
    encode: Bytes -> string,
    decode: string -> Option<Bytes>)

  /** The byte length of the modulus, rounded up. */
  function Size(lib: Lib): nat {
    (lib.modulusBits + 7) / 8
  }

  /** What is asked of the libraries. OAEP ciphertexts are as long as the modulus and any other
      length is an error, as section 7.1 of RFC 8017 says. */
  ghost predicate Correct(lib: Lib) {
    && lib.modulusBits > 0
    && (forall m, seed :: |m| == RSK_LENGTH ==> |lib.oaepEncrypt(m, seed)| == Size(lib) && lib.oaepDecrypt(lib.oaepEncrypt(m, seed)) == Some(m))
    && (forall c :: lib.oaepDecrypt(c).Some? ==> |c| == Size(lib))
    && (forall k, iv, p :: |k| == RSK_LENGTH && |iv| == IV_LENGTH ==> lib.open(k, iv, lib.seal(k, iv, p)) == Some(p))
    && (forall b :: lib.decode(lib.encode(b)) == Some(b))
    && lib.decode("") == Some([])
  }

  // ----- a number in four bytes -----

  function BigEndian(n: nat): (b: Bytes)
    requires n < 0x1_0000_0000
    ensures |b| == INT_LENGTH_IN_BYTES
  {
    [n / 0x100_0000, n / 0x1_0000 % 0x100, n / 0x100 % 0x100, n % 0x100]
  }

  function Unsigned(b: Bytes): nat
    requires |b| == INT_LENGTH_IN_BYTES
  {
    (b[0] as int) * 0x100_0000 + (b[1] as int) * 0x1_0000 + (b[2] as int) * 0x100 + b[3] as int
  }

  /** The same bytes as a 32-bit two's complement number. */
  function Signed(b: Bytes): int
    requires |b| == INT_LENGTH_IN_BYTES
  {
    if b[0] >= 0x80 then Unsigned(b) - 0x1_0000_0000 else Unsigned(b)
  }

  lemma LengthRoundTrip(n: nat)
    requires n < 0x1_0000_0000
    ensures Unsigned(BigEndian(n)) == n
    ensures Signed(BigEndian(n)) == n <==> n < 0x8000_0000
  {
  }

  // ----- what an envelope holds -----

  /** How opening ends; a crash is a Go panic. */
  datatype Opened = Plain(text: Bytes) | Rejected | Crashed

  function Sealed(lib: Lib, rsk: Bytes, iv: Bytes, plain: Bytes): Bytes
    requires |iv| == IV_LENGTH
  {
    BigEndian(IV_LENGTH) + iv + lib.seal(rsk, iv, plain)
  }

  /** How each side reads the symmetric part under a key. */
  function GoReads(lib: Lib, key: Bytes, data: Bytes): Opened {
    if |key| != 16 && |key| != 24 && |key| != 32 then Rejected
    else if |data| < INT_LENGTH_IN_BYTES then Crashed
    else
      var ivLen := Unsigned(data[..INT_LENGTH_IN_BYTES]);
      if INT_LENGTH_IN_BYTES + ivLen > |data| || ivLen != IV_LENGTH then Crashed
      else
        var plain := lib.open(key, data[INT_LENGTH_IN_BYTES..INT_LENGTH_IN_BYTES + ivLen], data[INT_LENGTH_IN_BYTES + ivLen..]);
        if plain.None? then Rejected else Plain(plain.value)
  }

  function KotlinReads(lib: Lib, key: Bytes, data: Bytes): Opened {
    if |data| < INT_LENGTH_IN_BYTES then Rejected
    else
      var ivLen := Signed(data[..INT_LENGTH_IN_BYTES]);
      if ivLen < 12 || ivLen >= 16 || INT_LENGTH_IN_BYTES + ivLen > |data| || |key| != 16 then Rejected
      else
        var plain := lib.open(key, data[INT_LENGTH_IN_BYTES..INT_LENGTH_IN_BYTES + ivLen], data[INT_LENGTH_IN_BYTES + ivLen..]);
        if plain.None? then Rejected else Plain(plain.value)
  }

  /** How each side opens an envelope. */
  function GoOpens(lib: Lib, encrypted: string): Opened {
    var data := lib.decode(encrypted);
    if data.None? || |data.value| < Size(lib) then Rejected
    else
      var rsk := lib.oaepDecrypt(data.value[..Size(lib)]);
      if rsk.None? then Rejected else GoReads(lib, rsk.value, data.value[Size(lib)..])
  }

  function KotlinOpens(lib: Lib, secret: string): Opened {
    if secret == "" then Plain([])
    else
      var data := lib.decode(secret);
      if data.None? || |data.value| < lib.modulusBits / 8 then Rejected
      else
        var rsk := lib.oaepDecrypt(data.value[..lib.modulusBits / 8]);
        if rsk.None? then Rejected else KotlinReads(lib, rsk.value, data.value[lib.modulusBits / 8..])
  }

  // ----- the Go side -----

  method PutUint32(b: array<Byte>, n: nat)
    requires b.Length >= INT_LENGTH_IN_BYTES && n < 0x1_0000_0000
    modifies b
    ensures b[..INT_LENGTH_IN_BYTES] == BigEndian(n) && b[INT_LENGTH_IN_BYTES..] == old(b[INT_LENGTH_IN_BYTES..])
  {
    b[0], b[1], b[2], b[3] := n / 0x100_0000, n / 0x1_0000 % 0x100, n / 0x100 % 0x100, n % 0x100;
  }

  method EncryptSymmetric(lib: Lib, rsk: Bytes, iv: Bytes, plain: Bytes) returns (cipher: Bytes)
    requires |iv| == IV_LENGTH
    ensures cipher == Sealed(lib, rsk, iv, plain)
  {
    var data := lib.seal(rsk, iv, plain);
    var length := new Byte[INT_LENGTH_IN_BYTES](_ => 0);
    PutUint32(length, IV_LENGTH);
    cipher := length[..];
    cipher := cipher + iv;
    cipher := cipher + data;
  }

  /** Every envelope is opened by Go to its text, whatever the length of the modulus; Kotlin
      opens it exactly if that length is a whole number of bytes. */
  method EncryptMeshCertBased(lib: Lib, rsk: Bytes, iv: Bytes, seed: nat, plain: Bytes) returns (encrypted: string)
    requires Correct(lib) && |rsk| == RSK_LENGTH && |iv| == IV_LENGTH
    ensures GoOpens(lib, encrypted) == Plain(plain)
    ensures KotlinOpens(lib, encrypted) == Plain(plain) <==> lib.modulusBits % 8 == 0
    ensures KotlinOpens(lib, encrypted) != Plain(plain) ==> KotlinOpens(lib, encrypted).Rejected?
  {
    var data := EncryptSymmetric(lib, rsk, iv, plain);
    var encryptedRSK := lib.oaepEncrypt(rsk, seed);
    encrypted := lib.encode(encryptedRSK + data);
    BothReadWhatIsSealed(lib, rsk, iv, plain);
    GoOpensWhatIsSealed(lib, rsk, iv, seed, plain);
    KotlinOpensWhatIsSealedIff(lib, rsk, iv, seed, plain);
  }

  lemma BothReadWhatIsSealed(lib: Lib, rsk: Bytes, iv: Bytes, plain: Bytes)
    requires Correct(lib) && |rsk| == RSK_LENGTH && |iv| == IV_LENGTH
    ensures GoReads(lib, rsk, Sealed(lib, rsk, iv, plain)) == Plain(plain)
    ensures KotlinReads(lib, rsk, Sealed(lib, rsk, iv, plain)) == Plain(plain)
  {
    LengthRoundTrip(IV_LENGTH);
    var data := Sealed(lib, rsk, iv, plain);
    assert data[..4] == BigEndian(IV_LENGTH);
    assert data[4..4 + IV_LENGTH] == iv;
    assert data[4 + IV_LENGTH..] == lib.seal(rsk, iv, plain);
  }

  lemma GoOpensWhatIsSealed(lib: Lib, rsk: Bytes, iv: Bytes, seed: nat, plain: Bytes)
    requires Correct(lib) && |rsk| == RSK_LENGTH && |iv| == IV_LENGTH
    ensures GoOpens(lib, lib.encode(lib.oaepEncrypt(rsk, seed) + Sealed(lib, rsk, iv, plain))) == Plain(plain)
  {
    BothReadWhatIsSealed(lib, rsk, iv, plain);
    var all := lib.oaepEncrypt(rsk, seed) + Sealed(lib, rsk, iv, plain);
    assert all[..Size(lib)] == lib.oaepEncrypt(rsk, seed) && all[Size(lib)..] == Sealed(lib, rsk, iv, plain);
  }

  /** The two splits of an envelope are the same exactly for a whole number of bytes; otherwise
      Kotlin takes one byte of the key too few. */
  lemma SplitsAgreeIff(lib: Lib)
    ensures lib.modulusBits / 8 == Size(lib) <==> lib.modulusBits % 8 == 0
    ensures lib.modulusBits % 8 != 0 ==> lib.modulusBits / 8 == Size(lib) - 1
  {
  }

  lemma KotlinOpensWhatIsSealedIff(lib: Lib, rsk: Bytes, iv: Bytes, seed: nat, plain: Bytes)
    requires Correct(lib) && |rsk| == RSK_LENGTH && |iv| == IV_LENGTH
    ensures KotlinOpens(lib, lib.encode(lib.oaepEncrypt(rsk, seed) + Sealed(lib, rsk, iv, plain)))
         == if lib.modulusBits % 8 == 0 then Plain(plain) else Rejected
  {
    var all := lib.oaepEncrypt(rsk, seed) + Sealed(lib, rsk, iv, plain);
    SplitsAgreeIff(lib);
    BothReadWhatIsSealed(lib, rsk, iv, plain);
    assert lib.decode(lib.encode(all)) == Some(all) && |all| > 0;
    assert lib.encode(all) != "";
    assert all[..Size(lib)] == lib.oaepEncrypt(rsk, seed) && all[Size(lib)..] == Sealed(lib, rsk, iv, plain);
    if lib.modulusBits % 8 != 0 {
      assert |all[..lib.modulusBits / 8]| != Size(lib);
    }
  }

  // ----- the Kotlin side -----

  class ByteBuffer {
    const bytes: Bytes
    var position: nat

    ghost predicate Valid()
      reads this
    {
      position <= |bytes|
    }

    constructor Wrap(bytes: Bytes)
      ensures Valid() && this.bytes == bytes && position == 0
    {
      this.bytes, position := bytes, 0;
    }

    /** None is a buffer underflow, which leaves the position. */
    method Get(n: nat) returns (b: Option<Bytes>)
      requires Valid()
      modifies this
      ensures Valid()
      ensures b == if old(position) + n <= |bytes| then Some(bytes[old(position)..old(position) + n]) else None
      ensures position == old(position) + if b.Some? then n else 0
    {
      if n > |bytes| - position {
        return None;
      }
      b := Some(bytes[position..position + n]);
      position := position + n;
    }
  }

  method DecryptSymmetricPayload(lib: Lib, encryptedBytes: ByteBuffer, key: Bytes) returns (r: Opened)
    requires encryptedBytes.Valid() && encryptedBytes.position == 0
    modifies encryptedBytes
    ensures r == KotlinReads(lib, key, encryptedBytes.bytes)
  {
    var length := encryptedBytes.Get(INT_LENGTH_IN_BYTES);
    if length.None? {
      return Rejected;
    }
    assert length.value == encryptedBytes.bytes[..INT_LENGTH_IN_BYTES];
    var ivLength := Signed(length.value);
    if ivLength < 12 || ivLength >= 16 {
      return Rejected;
    }
    var iv := encryptedBytes.Get(ivLength);
    if iv.None? {
      return Rejected;
    }
    var cipherText := encryptedBytes.Get(|encryptedBytes.bytes| - encryptedBytes.position);
    if |key| != 16 {
      return Rejected;
    }
    assert cipherText.value == encryptedBytes.bytes[INT_LENGTH_IN_BYTES + ivLength..];
    var plain := lib.open(key, iv.value, cipherText.value);
    r := if plain.None? then Rejected else Plain(plain.value);
  }

  method Decrypt(lib: Lib, secret: string) returns (r: Opened)
    ensures r == KotlinOpens(lib, secret)
  {
    if secret == "" {
      return Plain([]);
    }
    var encryptedBytes := lib.decode(secret);
    if encryptedBytes.None? {
      return Rejected;
    }
    var encryptedRandomKeyLength := lib.modulusBits / 8;
    if |encryptedBytes.value| < encryptedRandomKeyLength {
      return Rejected;
    }
    var symmetricKey := lib.oaepDecrypt(encryptedBytes.value[..encryptedRandomKeyLength]);
    if symmetricKey.None? {
      return Rejected;
    }
    var buffer := new ByteBuffer.Wrap(encryptedBytes.value[encryptedRandomKeyLength..]);
    r := DecryptSymmetricPayload(lib, buffer, symmetricKey.value);
  }

  // ----- the two sides on any input whatever -----

  /** What the readers take: Go a key of 16, 24 or 32 bytes and an IV of 12, and it crashes on any
      other IV; Kotlin a key of 16 bytes and an IV of 12 to 15, and it rejects everything else. */
  lemma WhatTheReadersTake(lib: Lib, key: Bytes, iv: Bytes, cipher: Bytes)
    requires |iv| < 0x1_0000_0000
    ensures var go := GoReads(lib, key, BigEndian(|iv|) + iv + cipher);
      if |key| !in {16, 24, 32} then go == Rejected
      else if |iv| != 12 then go == Crashed
      else go == OpenedAs(lib.open(key, iv, cipher))
    ensures var kotlin := KotlinReads(lib, key, BigEndian(|iv|) + iv + cipher);
      if |key| == 16 && |iv| in {12, 13, 14, 15} then kotlin == OpenedAs(lib.open(key, iv, cipher)) else kotlin == Rejected
  {
    LengthRoundTrip(|iv|);
    var data := BigEndian(|iv|) + iv + cipher;
    assert data[..4] == BigEndian(|iv|) && data[4..4 + |iv|] == iv && data[4 + |iv|..] == cipher;
  }

  function OpenedAs(plain: Option<Bytes>): Opened {
    if plain.None? then Rejected else Plain(plain.value)
  }

  /** Without a length there is nothing to read: Go crashes, Kotlin rejects. */
  lemma WhatIsTooShort(lib: Lib, key: Bytes, data: Bytes)
    requires |data| < 4
    ensures GoReads(lib, key, data) == if |key| in {16, 24, 32} then Crashed else Rejected
    ensures KotlinReads(lib, key, data) == Rejected
  {
  }

  lemma TheEmptySecret(lib: Lib)
    requires Correct(lib)
    ensures KotlinOpens(lib, "") == Plain([]) && GoOpens(lib, "") == Rejected
  {
    assert Size(lib) > 0;
  }

  /** With the same key and data, Kotlin reads what Go does not only for an IV of 13 to 15 bytes,
      and Go reads what Kotlin does not only under a longer AES key. */
  lemma TheReadersAgree(lib: Lib, key: Bytes, data: Bytes)
    ensures KotlinReads(lib, key, data).Plain? && GoReads(lib, key, data) != KotlinReads(lib, key, data) <==>
      |data| >= 4 && 13 <= Unsigned(data[..4]) <= 15 && KotlinReads(lib, key, data).Plain?
    ensures GoReads(lib, key, data).Plain? && KotlinReads(lib, key, data) != GoReads(lib, key, data) <==>
      (|key| == 24 || |key| == 32) && GoReads(lib, key, data).Plain?
  {
  }

  /** With a whole number of bytes the two sides hand the same key and data to their readers:
      what both open is the same text. */
  lemma TheSidesAgree(lib: Lib, secret: string)
    requires lib.modulusBits % 8 == 0 && secret != "" && KotlinOpens(lib, secret).Plain? && GoOpens(lib, secret).Plain?
    ensures KotlinOpens(lib, secret) == GoOpens(lib, secret)
  {
    SplitsAgreeIff(lib);
    var data := lib.decode(secret).value;
    hide GoReads, KotlinReads;
    TheReadersAgree(lib, lib.oaepDecrypt(data[..Size(lib)]).value, data[Size(lib)..]);
  }

  // ----- a modulus that is no whole number of bytes -----

  function AsText(b: Bytes): string {
    seq(|b|, i requires 0 <= i < |b| => b[i] as char)
  }

  function ByteOf(c: char): Byte {
    if c < 256 as char then c as int else 0
  }

  function AsBytes(text: string): Option<Bytes> {
    if forall c :: c in text ==> c < 256 as char then Some(seq(|text|, i requires 0 <= i < |text| => ByteOf(text[i]))) else None
  }

  function Padded(m: Bytes, size: nat): Bytes {
    seq(size, i requires 0 <= i => if i < |m| then m[i] else 0)
  }

  /** A stand-in for the libraries that meets all that is asked of them, and protects nothing. */
  function Plainly(bits: nat): Lib {
    Lib(bits,
        (m: Bytes, seed: nat) => Padded(m, (bits + 7) / 8),
        (c: Bytes) => if |c| == (bits + 7) / 8 && |c| >= RSK_LENGTH then Some(c[..RSK_LENGTH]) else None,
        (k: Bytes, iv: Bytes, p: Bytes) => p,
        (k: Bytes, iv: Bytes, c: Bytes) => Some(c),
        AsText, AsBytes)
  }

  lemma PlainlyIsCorrect(bits: nat)
    requires bits >= 8 * RSK_LENGTH
    ensures Correct(Plainly(bits))
  {
    var lib := Plainly(bits);
    forall m: Bytes, seed: nat | |m| == RSK_LENGTH
      ensures lib.oaepDecrypt(lib.oaepEncrypt(m, seed)) == Some(m)
    {
      assert Padded(m, Size(lib))[..RSK_LENGTH] == m;
    }
    forall b: Bytes
      ensures lib.decode(lib.encode(b)) == Some(b)
    {
      assert AsBytes(AsText(b)).value == b;
    }
  }

  /** With 1025 bits Kotlin rejects what Go encrypted. */
  lemma KotlinRejectsAnOddModulus(rsk: Bytes, iv: Bytes, plain: Bytes)
    requires |rsk| == RSK_LENGTH && |iv| == IV_LENGTH
    ensures var lib := Plainly(1025); var envelope := lib.encode(lib.oaepEncrypt(rsk, 0) + Sealed(lib, rsk, iv, plain));
      Correct(lib) && GoOpens(lib, envelope) == Plain(plain) && KotlinOpens(lib, envelope) == Rejected
  {
    PlainlyIsCorrect(1025);
    hide Plainly;
    GoOpensWhatIsSealed(Plainly(1025), rsk, iv, 0, plain);
    KotlinOpensWhatIsSealedIff(Plainly(1025), rsk, iv, 0, plain);
  }
}
