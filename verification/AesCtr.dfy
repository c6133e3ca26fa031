/**
 Counter mode over the cipher: Encrypt and Decrypt of pkg/security/aes.go on bytes
 (section 6.5 of NIST SP 800-38A), and the range on which one takes the other back.
 */
module AesCtr {
  import opened Basics
  import opened ByteCodes
  import opened AesField
  import opened AesCode
  import T = TextCodec

  const WORD_RANGE: nat := 0x1_0000_0000

  /** x >> 8c. */
  function Shift(x: nat, c: nat): nat
    requires c < 4
  {
    if c == 0 then x else if c == 1 then x / 0x100 else if c == 2 then x / 0x1_0000 else x / 0x100_0000
  }

  /** The byte (x >> 8c) & 0xff. */
  function ByteOf(x: nat, c: nat): bv8
    requires c < 4
  {
    (Shift(x, c) % 256) as bv8
  }

  function BigEndian(x: nat): (r: seq<bv8>)
    ensures |r| == 4
  {
    [ByteOf(x, 3), ByteOf(x, 2), ByteOf(x, 1), ByteOf(x, 0)]
  }

  type Nonce = n: seq<bv8> | |n| == 8 witness [0, 0, 0, 0, 0, 0, 0, 0]

  /** The eight nonce bytes that Encrypt makes of the time and a random number. */
  function NonceOf(ms: nat, rnd: nat, sec: nat): Nonce
  {
    [ByteOf(ms, 0), ByteOf(ms, 1), ByteOf(rnd, 0), ByteOf(rnd, 1), ByteOf(sec, 0), ByteOf(sec, 1), ByteOf(sec, 2), ByteOf(sec, 3)]
  }

  /**
   The counter block of block b. The low word is b; Encrypt takes the high word from b
   (ahead 0) and Decrypt from b + 1 (ahead 1).
   */
  function CounterBlock(nonce: Nonce, b: nat, ahead: nat): F.Block
  {
    nonce + BigEndian((b + ahead) / WORD_RANGE) + BigEndian(b)
  }

  function KeyStream(nonce: Nonce, w: seq<F.Word>, b: nat, ahead: nat): F.Block
    requires F.IsSchedule(w)
  {
    F.Cipher(CounterBlock(nonce, b, ahead), w)
  }

  /** Text under the key stream, byte by byte. */
  function Masked(text: seq<bv8>, nonce: Nonce, w: seq<F.Word>, ahead: nat): (r: seq<bv8>)
    requires F.IsSchedule(w)
    ensures |r| == |text|
  {
    seq(|text|, i requires 0 <= i < |text| => Add(KeyStream(nonce, w, i / 16, ahead)[i % 16], text[i]))
  }

  predicate IsKeySize(bits: nat)
  {
    bits == 128 || bits == 192 || bits == 256
  }

  /** charCodeAt: the code of the nth character, 0 past the end. */
  function CharCode(s: string, n: nat): nat
  {
    if n < |s| then s[n] as nat else 0
  }

  /** The characters that become key bytes have codes that are bytes. */
  predicate KeyFits(key: string, bits: nat)
  {
    forall i :: 0 <= i < bits / 8 ==> CharCode(key, i) < 256
  }

  function PasswordBytes(key: string, bits: nat): (r: seq<bv8>)
    requires IsKeySize(bits) && KeyFits(key, bits)
    ensures |r| == bits / 8
    ensures forall i :: 0 <= i < |r| ==> r[i] == if i < |key| && key[i] as int < 256 then key[i] as bv8 else 0
  {
    seq(bits / 8, i requires 0 <= i < bits / 8 => CharCode(key, i) as bv8)
  }

  /** The password enciphered under itself, repeated to the key length. */
  function SessionKey(pw: seq<bv8>): (r: seq<bv8>)
    requires |pw| == 16 || |pw| == 24 || |pw| == 32
    ensures |r| == |pw|
  {
    hide F.CipherState;
    var head: seq<bv8> := F.Cipher(pw[..16], F.KeySchedule(KeyWords(pw)));
    head + head[..|pw| - 16]
  }

  /**
   What the session key is: the inverse cipher, under the schedule of the password itself, takes its
   first sixteen bytes back to the password's, and the rest repeats its beginning.
   */
  ghost predicate IsSessionKey(sk: seq<bv8>, pw: seq<bv8>, w: seq<F.Word>)
    requires F.IsSchedule(w) && |pw| >= 16
  {
    |sk| == |pw| <= 32 && F.InvCipher(sk[..16], w) == pw[..16] && sk[16..] == sk[..|pw| - 16]
  }

  lemma SessionKeyIs(pw: seq<bv8>, w: seq<F.Word>)
    requires |pw| == 16 || |pw| == 24 || |pw| == 32
    requires w == F.KeySchedule(KeyWords(pw))
    ensures IsSessionKey(SessionKey(pw), pw, w)
  {
    hide F.Cipher, F.InvCipher, F.KeySchedule, KeyWords;
    F.CipherInverse(pw[..16], w);
    var head: seq<bv8> := F.Cipher(pw[..16], w);
    assert SessionKey(pw) == head + head[..|pw| - 16];
  }

  /** The first words of a schedule are the key. */
  lemma ScheduleBegins(key: seq<F.Word>)
    requires F.IsKey(key)
    ensures |F.KeySchedule(key)| >= |key| && F.KeySchedule(key)[..|key|] == key
  {
    forall i | 0 <= i < |key|
      ensures F.KeySchedule(key)[i] == key[i]
    {
      F.FirstWord(key, i);
    }
  }

  function SessionSchedule(key: string, bits: nat): (w: seq<F.Word>)
    requires IsKeySize(bits) && KeyFits(key, bits)
    ensures F.IsSchedule(w)
  {
    hide SessionKey;
    F.KeySchedule(KeyWords(SessionKey(PasswordBytes(key, bits))))
  }

  /** A schedule whose first words are a session key of the password, and which is expanded from them. */
  ghost predicate MadeFrom(w: seq<F.Word>, pw: seq<bv8>)
    requires |pw| == 16 || |pw| == 24 || |pw| == 32
  {
    exists sk: seq<bv8> :: MadeFromKey(w, sk, pw)
  }

  ghost predicate MadeFromKey(w: seq<F.Word>, sk: seq<bv8>, pw: seq<bv8>)
    requires |pw| == 16 || |pw| == 24 || |pw| == 32
  {
    && IsSessionKey(sk, pw, F.KeySchedule(KeyWords(pw)))
    && |w| >= |pw| / 4 && w[..|pw| / 4] == KeyWords(sk) && w == F.KeySchedule(KeyWords(sk))
  }

  lemma ScheduleIs(key: string, bits: nat)
    requires IsKeySize(bits) && KeyFits(key, bits)
    ensures MadeFrom(SessionSchedule(key, bits), PasswordBytes(key, bits))
  {
    hide F.KeySchedule, IsSessionKey, SessionKey, KeyWords;
    var pw := PasswordBytes(key, bits);
    SessionKeyIs(pw, F.KeySchedule(KeyWords(pw)));
    ScheduleBegins(KeyWords(SessionKey(pw)));
    assert MadeFromKey(SessionSchedule(key, bits), SessionKey(pw), pw);
  }

  /** What Encrypt puts under base64. */
  function Encrypted(plain: seq<bv8>, nonce: Nonce, w: seq<F.Word>): seq<bv8>
    requires F.IsSchedule(w)
  {
    nonce + Masked(plain, nonce, w, 0)
  }

  /** What Decrypt makes of the bytes under base64. */
  function Decrypted(cipherBytes: seq<bv8>, w: seq<F.Word>): seq<bv8>
    requires F.IsSchedule(w)
  {
    if |cipherBytes| <= 8 then [] else Masked(cipherBytes[8..], cipherBytes[..8], w, 1)
  }

  /** Every byte of the text meets its byte of the enciphered counter block of its block. */
  ghost predicate UnderStream(r: seq<bv8>, text: seq<bv8>, nonce: Nonce, w: seq<F.Word>, ahead: nat)
    requires F.IsSchedule(w)
  {
    |r| == |text| && forall i :: 0 <= i < |text| ==> r[i] == F.Cipher(CounterBlock(nonce, i / 16, ahead), w)[i % 16] ^ text[i]
  }

  lemma EncryptedIs(plain: seq<bv8>, nonce: Nonce, w: seq<F.Word>)
    requires F.IsSchedule(w)
    ensures
      var r := Encrypted(plain, nonce, w);
      |r| == 8 + |plain| && r[..8] == nonce && UnderStream(r[8..], plain, nonce, w, 0)
  {
    hide CounterBlock, F.Cipher;
  }

  /** What is left of bytes that begin with a nonce; nothing of eight or fewer. */
  ghost predicate UnderNonce(r: seq<bv8>, cipherBytes: seq<bv8>, w: seq<F.Word>)
    requires F.IsSchedule(w)
  {
    if |cipherBytes| <= 8 then r == [] else UnderStream(r, cipherBytes[8..], cipherBytes[..8], w, 1)
  }

  lemma DecryptedIs(cipherBytes: seq<bv8>, w: seq<F.Word>)
    requires F.IsSchedule(w)
    ensures UnderNonce(Decrypted(cipherBytes, w), cipherBytes, w)
  {
    hide CounterBlock, F.Cipher;
  }

  /** The longest text for which no counter byte of Encrypt exceeds 255. */
  const MAX_BLOCKS: nat := 0x100_0000_0000

  lemma BlockSlice(cipherBytes: seq<bv8>, b: nat)
    requires 8 + 16 * b < |cipherBytes|
    ensures cipherBytes[8..][16 * b..Least(16 * b + 16, |cipherBytes| - 8)] ==
            if 8 + b * 16 + 16 <= |cipherBytes| then cipherBytes[8 + b * 16..8 + b * 16 + 16] else cipherBytes[8 + b * 16..]
  {}

  /** The loop of Decrypt that cuts the text after the nonce into blocks. */
  method Blocks(cipherBytes: seq<bv8>) returns (ct: array<seq<bv8>>)
    requires |cipherBytes| > 8
    ensures fresh(ct) && ct.Length == (|cipherBytes| + 7) / 16
    ensures forall k :: 0 <= k < ct.Length ==>
      ct[k] == cipherBytes[8..][16 * k..Least(16 * k + 16, |cipherBytes| - 8)]
  {
    var nBlocks := (|cipherBytes| - 8 + 15) / 16;
    ct := new seq<bv8>[nBlocks];
    for b := 0 to nBlocks
      invariant forall k :: 0 <= k < b ==> ct[k] == cipherBytes[8..][16 * k..Least(16 * k + 16, |cipherBytes| - 8)]
    {
      var start := 8 + b * 16;
      var end := 8 + b * 16 + 16;
      BlockSlice(cipherBytes, b);
      ct[b] := if end <= |cipherBytes| then cipherBytes[start..end] else cipherBytes[start..];
    }
  }

  /** The three loops of Encrypt that lay the nonce into the first eight bytes. */
  method SetNonce(counterBlock: array<bv8>, nonceMs: nat, nonceRnd: nat, nonceSec: nat)
    requires counterBlock.Length == 16
    modifies counterBlock
    ensures counterBlock[..8] == NonceOf(nonceMs, nonceRnd, nonceSec)
  {
    hide ByteOf;
    ghost var nonce := NonceOf(nonceMs, nonceRnd, nonceSec);
    for i := 0 to 2
      invariant forall k :: 0 <= k < i ==> counterBlock[k] == nonce[k]
    {
      counterBlock[i] := ByteOf(nonceMs, i);
    }
    for i := 0 to 2
      invariant forall k :: 0 <= k < i + 2 ==> counterBlock[k] == nonce[k]
    {
      counterBlock[i + 2] := ByteOf(nonceRnd, i);
    }
    for i := 0 to 4
      invariant forall k :: 0 <= k < i + 4 ==> counterBlock[k] == nonce[k]
    {
      counterBlock[i + 4] := ByteOf(nonceSec, i);
    }
  }

  /** First loop over c: the low word of the counter, in the last four bytes. */
  method SetLow(counterBlock: array<bv8>, b: nat)
    requires counterBlock.Length == 16
    modifies counterBlock
    ensures counterBlock[..8] == old(counterBlock[..8]) && counterBlock[12..] == BigEndian(b)
  {
    for c := 0 to 4
      invariant counterBlock[..8] == old(counterBlock[..8])
      invariant forall k :: 0 <= k < c ==> counterBlock[15 - k] == ByteOf(b, k)
    {
      counterBlock[15 - c] := ByteOf(b, c);
    }
  }

  /** Second loop over c in Decrypt: the high word, each byte masked with 0xff. */
  method SetHigh(counterBlock: array<bv8>, high: nat)
    requires counterBlock.Length == 16
    modifies counterBlock
    ensures counterBlock[..8] == old(counterBlock[..8]) && counterBlock[12..] == old(counterBlock[12..])
    ensures counterBlock[8..12] == BigEndian(high)
  {
    for c := 0 to 4
      invariant counterBlock[..8] == old(counterBlock[..8]) && counterBlock[12..] == old(counterBlock[12..])
      invariant forall k :: 0 <= k < c ==> counterBlock[11 - k] == ByteOf(high, k)
    {
      counterBlock[15 - c - 4] := ByteOf(high, c);
    }
  }

  /** The same loop in Encrypt has no mask; a larger word would leave the S-box. */
  method SetHighUnmasked(counterBlock: array<bv8>, high: nat)
    requires counterBlock.Length == 16 && high < 256
    modifies counterBlock
    ensures counterBlock[..8] == old(counterBlock[..8]) && counterBlock[12..] == old(counterBlock[12..])
    ensures counterBlock[8..12] == BigEndian(high)
  {
    for c := 0 to 4
      invariant counterBlock[..8] == old(counterBlock[..8]) && counterBlock[12..] == old(counterBlock[12..])
      invariant forall k :: 0 <= k < c ==> counterBlock[11 - k] == ByteOf(high, k)
    {
      counterBlock[15 - c - 4] := Shift(high, c) as bv8;
    }
  }

  lemma BlockIs(block: seq<bv8>, nonce: Nonce, b: nat, ahead: nat)
    requires |block| == 16 && block[..8] == nonce
    requires block[8..12] == BigEndian((b + ahead) / WORD_RANGE) && block[12..] == BigEndian(b)
    ensures block == CounterBlock(nonce, b, ahead) && block[..16] == block
  {
    assert block == block[..8] + block[8..12] + block[12..];
  }

  /** The two loops over c in Encrypt. */
  method SetEncryptCounter(counterBlock: array<bv8>, b: nat, ghost nonce: Nonce)
    requires counterBlock.Length == 16 && counterBlock[..8] == nonce && b < MAX_BLOCKS
    modifies counterBlock
    ensures counterBlock[..8] == nonce
    ensures counterBlock[..] == CounterBlock(nonce, b, 0) && counterBlock[..][..16] == counterBlock[..]
  {
    hide CounterBlock, BigEndian;
    SetLow(counterBlock, b);
    SetHighUnmasked(counterBlock, b / WORD_RANGE);
    BlockIs(counterBlock[..], nonce, b, 0);
  }

  /** The two loops over c in Decrypt. */
  method SetDecryptCounter(counterBlock: array<bv8>, b: nat, ghost nonce: Nonce)
    requires counterBlock.Length == 16 && counterBlock[..8] == nonce
    modifies counterBlock
    ensures counterBlock[..8] == nonce
    ensures counterBlock[..] == CounterBlock(nonce, b, 1) && counterBlock[..][..16] == counterBlock[..]
  {
    hide CounterBlock, BigEndian;
    SetLow(counterBlock, b);
    SetHigh(counterBlock, (b + 1) / WORD_RANGE);
    BlockIs(counterBlock[..], nonce, b, 1);
  }

  function MaskedBlock(cntr: F.Block, text: seq<bv8>): (r: seq<bv8>)
    requires |text| <= 16
    ensures |r| == |text|
  {
    seq(|text|, i requires 0 <= i < |text| => Add(cntr[i], text[i]))
  }

  /** The inner loop of both methods: one block, the last of them possibly short. */
  method MaskBlock(cntr: F.Block, text: seq<bv8>) returns (r: seq<bv8>)
    requires |text| <= 16
    ensures r == MaskedBlock(cntr, text)
  {
    hide Add;
    r := [];
    for i := 0 to |text|
      invariant r == MaskedBlock(cntr, text)[..i]
    {
      r := r + [Add(cntr[i], text[i])];
    }
  }

  lemma NextBlock(text: seq<bv8>, nonce: Nonce, w: seq<F.Word>, ahead: nat, b: nat, len: nat)
    requires F.IsSchedule(w) && len <= 16 && 16 * b + len <= |text|
    ensures Masked(text, nonce, w, ahead)[..16 * b] + MaskedBlock(KeyStream(nonce, w, b, ahead), text[16 * b..16 * b + len]) ==
            Masked(text, nonce, w, ahead)[..16 * b + len]
  {
    hide Add, KeyStream;
    var masked := Masked(text, nonce, w, ahead);
    var block := MaskedBlock(KeyStream(nonce, w, b, ahead), text[16 * b..16 * b + len]);
    forall i | 0 <= i < len
      ensures masked[16 * b + i] == block[i]
    {
      assert (16 * b + i) / 16 == b && (16 * b + i) % 16 == i;
    }
    assert masked[..16 * b + len] == masked[..16 * b] + masked[16 * b..16 * b + len];
    assert masked[16 * b..16 * b + len] == block;
  }

  class AesCipher {
    const key: string
    const nBits: nat

    constructor (key: string, nBits: nat)
      requires IsKeySize(nBits)
      ensures this.key == key && this.nBits == nBits
    {
      this.key := key;
      this.nBits := nBits;
    }

    /** The opening lines of Encrypt and of Decrypt. */
    method MakeSchedule() returns (w: array2<bv8>)
      requires IsKeySize(nBits) && KeyFits(key, nBits)
      ensures fresh(w) && w.Length1 == 4 && Words(w) == SessionSchedule(key, nBits)
      ensures MadeFrom(Words(w), PasswordBytes(key, nBits))
    {
      hide F.KeySchedule, F.Cipher, Words, MadeFrom;
      ScheduleIs(key, nBits);
      var nBytes := nBits / 8;
      var pwBytes := new bv8[nBytes];
      for i := 0 to nBytes
        invariant forall k :: 0 <= k < i ==> pwBytes[k] == CharCode(key, k) as bv8
      {
        pwBytes[i] := CharCode(key, i) as bv8;
      }
      assert pwBytes[..] == PasswordBytes(key, nBits);
      var first := KeyExpansion(pwBytes[..]);
      var keys := Cipher(pwBytes[..], first);
      var sk := keys[0..nBytes - 16];
      keys := keys + sk;
      w := KeyExpansion(keys);
    }

    method Encrypt(plainBytes: seq<bv8>, nonceMs: nat, nonceRnd: nat, nonceSec: nat) returns (r: seq<bv8>)
      requires IsKeySize(nBits) && KeyFits(key, nBits)
      requires |plainBytes| <= 16 * MAX_BLOCKS
      ensures r == Encrypted(plainBytes, NonceOf(nonceMs, nonceRnd, nonceSec), SessionSchedule(key, nBits))
      ensures
        var nonce := NonceOf(nonceMs, nonceRnd, nonceSec);
        |r| == 8 + |plainBytes| && r[..8] == nonce && UnderStream(r[8..], plainBytes, nonce, SessionSchedule(key, nBits), 0)
    {
      hide F.KeySchedule, F.Cipher, Words, SessionSchedule, MadeFrom, PasswordBytes, UnderStream, ByteOf, Add, Masked, MaskedBlock, NonceOf, CounterBlock;
      EncryptedIs(plainBytes, NonceOf(nonceMs, nonceRnd, nonceSec), SessionSchedule(key, nBits));
      ghost var nonce := NonceOf(nonceMs, nonceRnd, nonceSec);
      ghost var w := SessionSchedule(key, nBits);
      var counterBlock := new bv8[16];
      var keySchedule := MakeSchedule();
      SetNonce(counterBlock, nonceMs, nonceRnd, nonceSec);
      var ctrTxt := [];
      for i := 0 to 8
        modifies {}
        invariant ctrTxt == nonce[..i]
      {
        ctrTxt := ctrTxt + [counterBlock[i]];
      }
      var blockCount := (|plainBytes| + 15) / 16;
      var cipherBytes := [];
      ghost var masked := Masked(plainBytes, nonce, w, 0);
      for b := 0 to blockCount
        modifies counterBlock
        invariant counterBlock[..8] == nonce
        invariant cipherBytes == masked[..Least(16 * b, |plainBytes|)]
      {
        SetEncryptCounter(counterBlock, b, nonce);
        var cipherCntr := Cipher(counterBlock[..], keySchedule);
        var blockLength := if b < blockCount - 1 then 16 else (|plainBytes| - 1) % 16 + 1;
        var cipherChar := MaskBlock(cipherCntr, plainBytes[b * 16..b * 16 + blockLength]);
        NextBlock(plainBytes, nonce, w, 0, b, blockLength);
        assert 16 * b + blockLength == Least(16 * (b + 1), |plainBytes|);
        cipherBytes := cipherBytes + cipherChar;
      }
      r := ctrTxt + cipherBytes;
    }

    method Decrypt(cipherBytes: seq<bv8>) returns (r: seq<bv8>)
      requires IsKeySize(nBits) && KeyFits(key, nBits)
      ensures r == Decrypted(cipherBytes, SessionSchedule(key, nBits))
      ensures UnderNonce(r, cipherBytes, SessionSchedule(key, nBits))
    {
      hide F.KeySchedule, F.Cipher, Words, SessionSchedule, MadeFrom, PasswordBytes, UnderNonce, ByteOf, Add, Masked, MaskedBlock, CounterBlock;
      DecryptedIs(cipherBytes, SessionSchedule(key, nBits));
      if |cipherBytes| <= 8 {
        return [];
      }
      ghost var w := SessionSchedule(key, nBits);
      ghost var nonce: Nonce := cipherBytes[..8];
      ghost var text := cipherBytes[8..];
      ghost var masked := Masked(text, nonce, w, 1);
      var keySchedule := MakeSchedule();
      var counterBlock := new bv8[16];
      var ctrTxt := cipherBytes[0..8];
      for i := 0 to 8
        modifies counterBlock
        invariant forall k :: 0 <= k < i ==> counterBlock[k] == ctrTxt[k]
      {
        counterBlock[i] := ctrTxt[i];
      }
      assert counterBlock[..8] == nonce;
      var ct := Blocks(cipherBytes);
      var plainBytes := [];
      for b := 0 to ct.Length
        modifies counterBlock
        invariant counterBlock[..8] == nonce
        invariant plainBytes == masked[..Least(16 * b, |text|)]
      {
        SetDecryptCounter(counterBlock, b, nonce);
        var cipherCntr := Cipher(counterBlock[..], keySchedule);
        var plaintextByte := MaskBlock(cipherCntr, ct[b]);
        assert ct[b] == text[16 * b..16 * b + |ct[b]|];
        NextBlock(text, nonce, w, 1, b, |ct[b]|);
        assert 16 * b + |ct[b]| == Least(16 * (b + 1), |text|);
        plainBytes := plainBytes + plaintextByte;
      }
      r := plainBytes;
    }
  }

  // ----- which counters agree, and what follows -----

  lemma SameByte(x: nat, y: nat, c: nat)
    requires c < 4 && ByteOf(x, c) == ByteOf(y, c)
    ensures Shift(x, c) % 256 == Shift(y, c) % 256
  {
    ByteRoundTrip(Shift(x, c) % 256);
    ByteRoundTrip(Shift(y, c) % 256);
  }

  /** The four bytes are the digits of x modulo 2^32. */
  lemma WordDigits(x: nat)
    ensures x % WORD_RANGE ==
            Shift(x, 0) % 256 + 0x100 * (Shift(x, 1) % 256) + 0x1_0000 * (Shift(x, 2) % 256) + 0x100_0000 * (Shift(x, 3) % 256)
  {
    var x1, x2, x3 := x / 0x100, x / 0x1_0000, x / 0x100_0000;
    assert x == 0x100 * x1 + x % 256;
    assert x1 == 0x100 * x2 + x1 % 256;
    assert x2 == 0x100 * x3 + x2 % 256;
    var q, low := x3 / 256, x % 256 + 0x100 * (x1 % 256) + 0x1_0000 * (x2 % 256) + 0x100_0000 * (x3 % 256);
    assert x == WORD_RANGE * q + low;
  }

  /** The number that bytes write, the first of them the highest. */
  function Number(bytes: seq<bv8>): nat
  {
    if bytes == [] then 0 else 256 * Number(bytes[..|bytes| - 1]) + bytes[|bytes| - 1] as int
  }

  lemma NumberOfFour(a: bv8, b: bv8, c: bv8, d: bv8)
    ensures Number([a, b, c, d]) == 0x100_0000 * (a as int) + 0x1_0000 * (b as int) + 0x100 * (c as int) + d as int
  {
    NumberOfTwo(a, b);
    assert [a, b, c, d][..3] == [a, b, c] && [a, b, c][..2] == [a, b];
    assert Number([a, b, c]) == 256 * Number([a, b]) + c as int;
  }

  lemma NumberOfTwo(a: bv8, b: bv8)
    ensures Number([a, b]) == 0x100 * (a as int) + b as int
  {
    assert [a, b][..1] == [a] && [a][..0] == [];
    assert Number([a]) == a as int;
  }

  lemma ByteIs(x: nat, c: nat)
    requires c < 4
    ensures ByteOf(x, c) as int == Shift(x, c) % 256
  {
    ByteRoundTrip(Shift(x, c) % 256);
  }

  lemma BigEndianIs(x: nat)
    ensures Number(BigEndian(x)) == x % WORD_RANGE
  {
    hide ByteOf, Number, Shift;
    NumberOfFour(ByteOf(x, 3), ByteOf(x, 2), ByteOf(x, 1), ByteOf(x, 0));
    ByteIs(x, 0);
    ByteIs(x, 1);
    ByteIs(x, 2);
    ByteIs(x, 3);
    WordDigits(x);
  }

  /** The last eight bytes of the counter block of Encrypt write the number of the block; the others are the nonce. */
  lemma CounterIsNumber(nonce: Nonce, b: nat)
    requires b < WORD_RANGE * WORD_RANGE
    ensures CounterBlock(nonce, b, 0)[..8] == nonce
    ensures WORD_RANGE * Number(CounterBlock(nonce, b, 0)[8..12]) + Number(CounterBlock(nonce, b, 0)[12..]) == b
  {
    hide BigEndian, Number;
    BigEndianIs(b / WORD_RANGE);
    BigEndianIs(b);
    HighWord(b);
    assert CounterBlock(nonce, b, 0)[8..12] == BigEndian(b / WORD_RANGE) && CounterBlock(nonce, b, 0)[12..] == BigEndian(b);
  }

  lemma HighWord(b: nat)
    requires b < WORD_RANGE * WORD_RANGE
    ensures b / WORD_RANGE % WORD_RANGE == b / WORD_RANGE && WORD_RANGE * (b / WORD_RANGE) + b % WORD_RANGE == b
  {}

  /** Milliseconds, random number and seconds lie in the nonce with the low byte first. */
  lemma NonceIs(ms: nat, rnd: nat, sec: nat)
    ensures
      var n := NonceOf(ms, rnd, sec);
      Number([n[1], n[0]]) == ms % 0x1_0000 && Number([n[3], n[2]]) == rnd % 0x1_0000 && Number([n[7], n[6], n[5], n[4]]) == sec % WORD_RANGE
  {
    hide ByteOf, Number;
    var n := NonceOf(ms, rnd, sec);
    BigEndianIs(sec);
    assert [n[7], n[6], n[5], n[4]] == BigEndian(sec);
    LowTwo(ms);
    LowTwo(rnd);
  }

  lemma LowTwo(x: nat)
    ensures Number([ByteOf(x, 1), ByteOf(x, 0)]) == x % 0x1_0000
  {
    NumberOfTwo(ByteOf(x, 1), ByteOf(x, 0));
    hide Number, ByteOf;
    ByteIs(x, 0);
    ByteIs(x, 1);
    assert x == 0x1_0000 * (x / 0x1_0000) + 0x100 * (x / 0x100 % 256) + x % 256;
  }

  lemma SameDigits(x: nat, y: nat, c: nat)
    requires c < 4 && x % WORD_RANGE == y % WORD_RANGE
    ensures Shift(x, c) % 256 == Shift(y, c) % 256
  {
    LowDigits(x, c);
    LowDigits(y, c);
  }

  lemma LowDigits(x: nat, c: nat)
    requires c < 4
    ensures Shift(x, c) % 256 == Shift(x % WORD_RANGE, c) % 256
  {
    var q, m := x / WORD_RANGE, x % WORD_RANGE;
    assert x / 0x100 == 0x100_0000 * q + m / 0x100;
    assert x / 0x1_0000 == 0x1_0000 * q + m / 0x1_0000;
    assert x / 0x100_0000 == 0x100 * q + m / 0x100_0000;
  }

  /** Four bytes determine a word, modulo 2^32. */
  lemma BigEndianInjective(x: nat, y: nat)
    ensures BigEndian(x) == BigEndian(y) <==> x % WORD_RANGE == y % WORD_RANGE
  {
    if x % WORD_RANGE == y % WORD_RANGE {
      SameDigits(x, y, 0);
      SameDigits(x, y, 1);
      SameDigits(x, y, 2);
      SameDigits(x, y, 3);
    }
    if BigEndian(x) == BigEndian(y) {
      EqualBytesEqualWords(x, y);
    }
  }

  lemma EqualBytesEqualWords(x: nat, y: nat)
    requires BigEndian(x) == BigEndian(y)
    ensures x % WORD_RANGE == y % WORD_RANGE
  {
    hide ByteOf;
    assert ByteOf(x, 0) == BigEndian(x)[3] && ByteOf(x, 1) == BigEndian(x)[2];
    assert ByteOf(x, 2) == BigEndian(x)[1] && ByteOf(x, 3) == BigEndian(x)[0];
    SameByte(x, y, 0);
    SameByte(x, y, 1);
    SameByte(x, y, 2);
    SameByte(x, y, 3);
    WordDigits(x);
    WordDigits(y);
  }

  lemma SameBlock(nonce: Nonce, b: nat, ahead: nat, b': nat, ahead': nat)
    ensures CounterBlock(nonce, b, ahead) == CounterBlock(nonce, b', ahead') <==>
            (b + ahead) / WORD_RANGE % WORD_RANGE == (b' + ahead') / WORD_RANGE % WORD_RANGE && b % WORD_RANGE == b' % WORD_RANGE
  {
    hide BigEndian;
    var x, x' := (b + ahead) / WORD_RANGE, (b' + ahead') / WORD_RANGE;
    BigEndianInjective(x, x');
    BigEndianInjective(b, b');
    var p, q := CounterBlock(nonce, b, ahead), CounterBlock(nonce, b', ahead');
    assert p[8..12] == BigEndian(x) && p[12..] == BigEndian(b);
    assert q[8..12] == BigEndian(x') && q[12..] == BigEndian(b');
  }

  /** The two formulas for the high word agree on block b unless b + 1 starts a new high word. */
  lemma CountersAgree(nonce: Nonce, b: nat)
    requires b < MAX_BLOCKS
    ensures CounterBlock(nonce, b, 0) == CounterBlock(nonce, b, 1) <==> (b + 1) % WORD_RANGE != 0
  {
    hide CounterBlock;
    SameBlock(nonce, b, 0, b, 1);
  }

  /** Section 6.5 of SP 800-38A: no counter block of a message occurs twice. */
  lemma CountersDistinct(nonce: Nonce, b: nat, b': nat)
    requires b < MAX_BLOCKS && b' < MAX_BLOCKS && b != b'
    ensures CounterBlock(nonce, b, 0) != CounterBlock(nonce, b', 0)
  {
    hide CounterBlock;
    SameBlock(nonce, b, 0, b', 0);
  }

  /** So no two blocks of a message are masked with the same key stream block. */
  lemma KeyStreamDistinct(nonce: Nonce, w: seq<F.Word>, b: nat, b': nat)
    requires F.IsSchedule(w)
    requires b < MAX_BLOCKS && b' < MAX_BLOCKS && b != b'
    ensures KeyStream(nonce, w, b, 0) != KeyStream(nonce, w, b', 0)
  {
    hide CounterBlock, F.Cipher;
    CountersDistinct(nonce, b, b');
    F.CipherInjective(CounterBlock(nonce, b, 0), CounterBlock(nonce, b', 0), w);
  }

  lemma MaskTwice(k: bv8, k': bv8, x: bv8)
    ensures Add(k, Add(k', x)) == x <==> k == k'
  {
    hide Add;
    F.AddLaws(k, Add(k', x), x);
    F.AddLaws(k, x, x);
    F.AddLaws(k', x, x);
    F.AddLaws(x, x, k);
    F.AddLaws(x, k, k);
    F.AddLaws(x, k', k');
  }

  /** Decrypt returns the text exactly when every byte meets the same key stream byte both times. */
  lemma RoundTripWhenStreamsAgree(plain: seq<bv8>, nonce: Nonce, w: seq<F.Word>)
    requires F.IsSchedule(w)
    ensures Decrypted(Encrypted(plain, nonce, w), w) == plain <==>
            forall i :: 0 <= i < |plain| ==> KeyStream(nonce, w, i / 16, 0)[i % 16] == KeyStream(nonce, w, i / 16, 1)[i % 16]
  {
    hide KeyStream, Add;
    var c := Encrypted(plain, nonce, w);
    if plain != [] {
      assert c[..8] == nonce && c[8..] == Masked(plain, nonce, w, 0);
      var back := Masked(c[8..], nonce, w, 1);
      forall i | 0 <= i < |plain|
        ensures back[i] == plain[i] <==> KeyStream(nonce, w, i / 16, 0)[i % 16] == KeyStream(nonce, w, i / 16, 1)[i % 16]
      {
        MaskTwice(KeyStream(nonce, w, i / 16, 1)[i % 16], KeyStream(nonce, w, i / 16, 0)[i % 16], plain[i]);
      }
    }
  }

  /** Up to 2^32 - 1 blocks, Decrypt takes Encrypt back, for every nonce and every schedule. */
  lemma RoundTrip(plain: seq<bv8>, nonce: Nonce, w: seq<F.Word>)
    requires F.IsSchedule(w)
    requires |plain| <= 16 * (WORD_RANGE - 1)
    ensures Decrypted(Encrypted(plain, nonce, w), w) == plain
  {
    hide Encrypted, Decrypted, CounterBlock, F.Cipher;
    forall i | 0 <= i < |plain|
      ensures KeyStream(nonce, w, i / 16, 0)[i % 16] == KeyStream(nonce, w, i / 16, 1)[i % 16]
    {
      CountersAgree(nonce, i / 16);
    }
    RoundTripWhenStreamsAgree(plain, nonce, w);
  }

  /** From 2^32 full blocks on it does not: block 2^32 - 1 meets two different key streams. */
  lemma NoRoundTripBeyond(plain: seq<bv8>, nonce: Nonce, w: seq<F.Word>)
    requires F.IsSchedule(w)
    requires 16 * WORD_RANGE <= |plain| <= 16 * MAX_BLOCKS
    ensures Decrypted(Encrypted(plain, nonce, w), w) != plain
  {
    hide Encrypted, Decrypted, CounterBlock, F.Cipher;
    var b := WORD_RANGE - 1;
    CountersAgree(nonce, b);
    F.CipherInjective(CounterBlock(nonce, b, 0), CounterBlock(nonce, b, 1), w);
    var k, k' := KeyStream(nonce, w, b, 0), KeyStream(nonce, w, b, 1);
    var j :| 0 <= j < 16 && k[j] != k'[j];
    var i := 16 * b + j;
    assert i / 16 == b && i % 16 == j;
    RoundTripWhenStreamsAgree(plain, nonce, w);
  }

  // ----- texts -----

  /** Encrypt: the escaped text under the key stream, in base64. */
  function EncryptText(plain: Bytes, nonce: Nonce, key: string, bits: nat): string
    requires IsKeySize(bits) && KeyFits(key, bits)
  {
    T.Encode64(Encrypted(T.Escape(plain), nonce, SessionSchedule(key, bits)))
  }

  /** Decrypt; None for a text that is not base64. */
  function DecryptText(text: string, key: string, bits: nat): Option<Bytes>
    requires IsKeySize(bits) && KeyFits(key, bits)
  {
    var bytes := T.Decode64(text);
    if bytes.None? then None
    else if |bytes.value| <= 8 then Some([])
    else Some(T.DecodeURIComponent(Decrypted(bytes.value, SessionSchedule(key, bits))))
  }

  lemma EncryptedLength(plain: seq<bv8>, nonce: Nonce, w: seq<F.Word>)
    requires F.IsSchedule(w)
    ensures |Encrypted(plain, nonce, w)| == 8 + |plain|
  {
    hide KeyStream, Add;
  }

  lemma EscapedBack(plain: Bytes, sent: seq<bv8>)
    requires sent == T.Escape(plain)
    ensures T.DecodeURIComponent(sent) == plain && (sent == [] ==> plain == [])
  {
    T.EscapeRoundTrip(plain);
  }

  /** Decrypt takes Encrypt back for every key, nonce and text whose escaped form has fewer than 2^32 blocks. */
  lemma TextRoundTrip(plain: Bytes, nonce: Nonce, key: string, bits: nat)
    requires IsKeySize(bits) && KeyFits(key, bits)
    requires |T.Escape(plain)| <= 16 * (WORD_RANGE - 1)
    ensures DecryptText(EncryptText(plain, nonce, key, bits), key, bits) == Some(plain)
  {
    hide Encrypted, Decrypted, SessionSchedule, T.Encode64, T.Decode64, T.Escape, T.DecodeURIComponent, F.IsSchedule, F.Cipher, KeyFits;
    var w, text := SessionSchedule(key, bits), T.Escape(plain);
    var sent := Encrypted(text, nonce, w);
    EncryptedLength(text, nonce, w);
    T.Base64RoundTrip(sent);
    EscapedBack(plain, text);
    RoundTrip(text, nonce, w);
  }
}
