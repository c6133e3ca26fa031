/**
 RSA over texts of any length, piece by piece (pkg/security/rsa.go). The encryption of one piece is
 that of section 7.2 of RFC 8017; it is a parameter here.
 */
module Rsa {
  import opened Basics
  import opened TextCodec

  /** k is the length of the modulus in bytes; seal takes the random bytes used for the padding as a number. */
  datatype KeyPair = KeyPair(k: int, seal: (nat, Bytes) -> Bytes, unseal: Bytes -> Option<Bytes>)

  /** Section 7.2 of RFC 8017, for keys that belong together: messages of up to k - 11 bytes become k bytes, and come back. */
  ghost predicate Matched(keys: KeyPair)
  {
    forall r: nat, m: Bytes :: |m| <= keys.k - 11 ==> |keys.seal(r, m)| == keys.k && keys.unseal(keys.seal(r, m)) == Some(m)
  }

  // ----- cutting a text into pieces -----

  function Chunks(buf: Bytes, lim: int): (r: seq<Bytes>)
    requires lim > 0
  {
    if |buf| >= lim then [buf[..lim]] + Chunks(buf[lim..], lim) else if |buf| > 0 then [buf] else []
  }

  function Flat(chunks: seq<Bytes>): Bytes
  {
    if chunks == [] then [] else chunks[0] + Flat(chunks[1..])
  }

  /** A partition: nothing is lost or moved, and all pieces but the last have the length asked for. */
  lemma {:induction false} ChunksPartition(buf: Bytes, lim: int)
    requires lim > 0
    ensures Flat(Chunks(buf, lim)) == buf
    ensures forall i :: 0 <= i < |Chunks(buf, lim)| ==> 1 <= |Chunks(buf, lim)[i]| <= lim
    ensures forall i :: 0 <= i < |Chunks(buf, lim)| - 1 ==> |Chunks(buf, lim)[i]| == lim
    ensures (|Chunks(buf, lim)| - 1) * lim < |buf| <= |Chunks(buf, lim)| * lim || (buf == [] && Chunks(buf, lim) == [])
  {
    ChunksCount(buf, lim);
    if buf == [] {
    } else if |buf| >= lim {
      ChunksPartition(buf[lim..], lim);
      assert buf == buf[..lim] + buf[lim..];
    } else {
      assert Chunks(buf, lim)[1..] == [];
    }
  }

  lemma {:induction false} ChunksCount(buf: Bytes, lim: int)
    requires lim > 0
    ensures (|Chunks(buf, lim)| - 1) * lim < |buf| <= |Chunks(buf, lim)| * lim || (buf == [] && Chunks(buf, lim) == [])
  {
    if buf == [] {
    } else if |buf| >= lim {
      ChunksCount(buf[lim..], lim);
      OneMore(|Chunks(buf[lim..], lim)|, lim);
    } else {
    }
  }

  lemma OneMore(n: int, lim: int)
    ensures (n + 1) * lim == n * lim + lim && (n - 1) * lim == n * lim - lim
  {}

  /** Pieces of one length are found again when their concatenation is cut at that length. */
  lemma {:induction false} ChunksOfBlocks(blocks: seq<Bytes>, k: int)
    requires k > 0 && forall i :: 0 <= i < |blocks| ==> |blocks[i]| == k
    ensures Chunks(Flat(blocks), k) == blocks
  {
    if blocks == [] {
    } else {
      ChunksOfBlocks(blocks[1..], k);
      var all := Flat(blocks);
      assert all[..k] == blocks[0] && all[k..] == Flat(blocks[1..]);
    }
  }

  /** Piece i of a text cut at every lim bytes. */
  function Piece(buf: Bytes, lim: int, i: nat): Bytes
    requires lim > 0 && i * lim < |buf|
  {
    buf[i * lim..Least(i * lim + lim, |buf|)]
  }

  /** Piece i is what lies between i * lim and (i + 1) * lim. */
  lemma {:induction false} ChunkAt(buf: Bytes, lim: int, i: nat)
    requires lim > 0
    ensures i < |Chunks(buf, lim)| <==> i * lim < |buf|
    ensures i * lim < |buf| ==> Chunks(buf, lim)[i] == Piece(buf, lim, i)
  {
    if i == 0 {
      assert 0 * lim == 0;
    } else if |buf| < lim {
      Times(1, i, lim);
    } else {
      ChunkAt(buf[lim..], lim, i - 1);
      assert (i - 1) * lim == i * lim - lim;
      assert Chunks(buf, lim)[1..] == Chunks(buf[lim..], lim);
      if i * lim < |buf| {
        PieceLater(buf, lim, i);
      }
      hide Piece;
    }
  }

  lemma Times(x: int, y: int, m: int)
    requires x <= y && m >= 0
    ensures x * m <= y * m
  {}

  lemma PieceLater(buf: Bytes, lim: int, i: nat)
    requires lim > 0 && i > 0 && |buf| >= lim && i * lim < |buf| && (i - 1) * lim == i * lim - lim
    ensures Piece(buf[lim..], lim, i - 1) == Piece(buf, lim, i)
  {
    var at := i * lim;
    Times(1, i, lim);
    assert buf[lim..][at - lim..Least(at, |buf| - lim)] == buf[at..Least(at + lim, |buf|)];
  }

  lemma FlatNone()
    ensures Flat([]) == []
  {}

  lemma {:induction false} FlatMore(chunks: seq<Bytes>, more: Bytes)
    ensures Flat(chunks + [more]) == Flat(chunks) + more
  {
    if chunks == [] {
      assert [more][1..] == [];
    } else {
      assert (chunks + [more])[1..] == chunks[1..] + [more];
      FlatMore(chunks[1..], more);
    }
  }

  lemma ChunksMore(done: seq<Bytes>, buf: Bytes, lim: int)
    requires lim > 0 && |buf| >= lim
    ensures done + Chunks(buf, lim) == done + [buf[..lim]] + Chunks(buf[lim..], lim)
  {}

  /** split. A lim of 0 or less, for a key of 11 bytes or fewer, is outside what it can be called with. */
  method Split(buf: Bytes, lim: int) returns (chunks: seq<Bytes>)
    requires lim > 0
    ensures chunks == Chunks(buf, lim)
  {
    var rest := buf;
    chunks := [];
    while |rest| >= lim
      invariant chunks + Chunks(rest, lim) == Chunks(buf, lim)
      decreases |rest|
    {
      ChunksMore(chunks, rest, lim);
      var chunk := rest[..lim];
      rest := rest[lim..];
      chunks := chunks + [chunk];
    }
    if |rest| > 0 {
      chunks := chunks + [rest[..]];
    }
  }

  // ----- Encrypt and Decrypt -----

  /** random gives the padding of each piece. */
  function Sealed(keys: KeyPair, random: nat -> nat, chunks: seq<Bytes>): seq<Bytes>
  {
    seq(|chunks|, i requires 0 <= i < |chunks| => keys.seal(random(i), chunks[i]))
  }

  function Unsealed(keys: KeyPair, chunks: seq<Bytes>): Option<Bytes>
  {
    if chunks == [] then Some([])
    else
      var n := |chunks| - 1;
      var before, last := Unsealed(keys, chunks[..n]), keys.unseal(chunks[n]);
      if before.None? || last.None? then None else Some(before.value + last.value)
  }

  function Encrypted(keys: KeyPair, random: nat -> nat, plain: Bytes): string
    requires keys.k > 11
  {
    Encode64(Flat(Sealed(keys, random, Chunks(Escape(plain), keys.k - 11))))
  }

  function Decrypted(keys: KeyPair, text: string): Option<Bytes>
    requires keys.k > 0
  {
    var bytes := Decode64(text);
    if bytes.None? then None
    else
      var r := Unsealed(keys, Chunks(bytes.value, keys.k));
      if r.None? then None else Some(DecodeURIComponent(r.value))
  }

  /** Every piece of k - 11 bytes of the escaped text is sealed by itself, with its own random bytes, in order. */
  ghost predicate SealedPieces(keys: KeyPair, random: nat -> nat, sent: Bytes, sealed: seq<Bytes>)
    requires keys.k > 11
  {
    forall i: nat :: SealedAt(keys, random, sent, sealed, i)
  }

  predicate SealedAt(keys: KeyPair, random: nat -> nat, sent: Bytes, sealed: seq<Bytes>, i: nat)
    requires keys.k > 11
  {
    && (i < |sealed| <==> i * (keys.k - 11) < |sent|)
    && (i < |sealed| ==> sealed[i] == keys.seal(random(i), Piece(sent, keys.k - 11, i)))
  }

  /** The text is such pieces, one after the other, in base64. */
  ghost predicate InPieces(keys: KeyPair, random: nat -> nat, plain: Bytes, text: string)
    requires keys.k > 11
  {
    exists sealed :: SealedPieces(keys, random, Escape(plain), sealed) && text == Encode64(Flat(sealed))
  }

  lemma SealedIs(keys: KeyPair, random: nat -> nat, sent: Bytes, i: nat)
    requires keys.k > 11
    ensures SealedAt(keys, random, sent, Sealed(keys, random, Chunks(sent, keys.k - 11)), i)
  {
    hide Chunks;
    ChunkAt(sent, keys.k - 11, i);
  }

  lemma EncryptedMeans(keys: KeyPair, random: nat -> nat, plain: Bytes)
    requires keys.k > 11
    ensures InPieces(keys, random, plain, Encrypted(keys, random, plain))
  {
    hide Encode64, Escape, Flat, Chunks, Sealed, SealedAt;
    var sealed := Sealed(keys, random, Chunks(Escape(plain), keys.k - 11));
    forall i: nat
      ensures SealedAt(keys, random, Escape(plain), sealed, i)
    {
      SealedIs(keys, random, Escape(plain), i);
    }
    assert SealedPieces(keys, random, Escape(plain), sealed);
  }

  /** Piece i of the received bytes does not unseal. */
  predicate BrokenAt(keys: KeyPair, received: Bytes, i: nat)
    requires keys.k > 0
  {
    i * keys.k < |received| && keys.unseal(Piece(received, keys.k, i)).None?
  }

  /** Pieces of k bytes, each of which unseals to its part of the text, in order. */
  ghost predicate UnsealedPieces(keys: KeyPair, received: Bytes, parts: seq<Bytes>)
    requires keys.k > 0
  {
    forall i: nat :: UnsealedAt(keys, received, parts, i)
  }

  predicate UnsealedAt(keys: KeyPair, received: Bytes, parts: seq<Bytes>, i: nat)
    requires keys.k > 0
  {
    && (i < |parts| <==> i * keys.k < |received|)
    && (i < |parts| ==> keys.unseal(Piece(received, keys.k, i)) == Some(parts[i]))
  }

  lemma {:induction false} UnsealedMeans(keys: KeyPair, chunks: seq<Bytes>) returns (parts: seq<Bytes>)
    ensures Unsealed(keys, chunks).None? <==> exists i :: 0 <= i < |chunks| && keys.unseal(chunks[i]).None?
    ensures Unsealed(keys, chunks).Some? ==>
              && |parts| == |chunks| && Unsealed(keys, chunks) == Some(Flat(parts))
              && forall i :: 0 <= i < |chunks| ==> keys.unseal(chunks[i]) == Some(parts[i])
  {
    parts := [];
    if chunks == [] {
    } else {
      var n := |chunks| - 1;
      parts := UnsealedMeans(keys, chunks[..n]);
      assert forall i :: 0 <= i < n ==> chunks[..n][i] == chunks[i];
      if Unsealed(keys, chunks).Some? {
        FlatMore(parts, keys.unseal(chunks[n]).value);
        parts := parts + [keys.unseal(chunks[n]).value];
      }
    }
  }

  /** Decrypt fails exactly when the text is not base64 or one of its pieces does not unseal. */
  lemma DecryptedMeans(keys: KeyPair, text: string)
    requires keys.k > 0
    ensures Decrypted(keys, text).None? <==>
              Decode64(text).None? || exists i: nat :: BrokenAt(keys, Decode64(text).value, i)
    ensures Decrypted(keys, text).Some? ==>
              && Decode64(text).Some?
              && exists parts ::
                   UnsealedPieces(keys, Decode64(text).value, parts) && Decrypted(keys, text) == Some(DecodeURIComponent(Flat(parts)))
  {
    hide Decode64, DecodeURIComponent, Chunks, Unsealed, Flat, Piece;
    if Decode64(text).Some? {
      var received := Decode64(text).value;
      var chunks := Chunks(received, keys.k);
      forall i: nat
        ensures i < |chunks| <==> i * keys.k < |received|
        ensures i < |chunks| ==> chunks[i] == Piece(received, keys.k, i)
      {
        ChunkAt(received, keys.k, i);
      }
      var parts := UnsealedMeans(keys, chunks);
      if i :| 0 <= i < |chunks| && keys.unseal(chunks[i]).None? {
        assert BrokenAt(keys, received, i);
      }
      if Unsealed(keys, chunks).Some? {
        forall i: nat
          ensures UnsealedAt(keys, received, parts, i)
        {
          ChunkAt(received, keys.k, i);
        }
        assert UnsealedPieces(keys, received, parts);
      }
    }
  }

  method Encrypt(keys: KeyPair, random: nat -> nat, plain: Bytes) returns (text: string)
    requires keys.k > 11
    ensures text == Encrypted(keys, random, plain)
    ensures InPieces(keys, random, plain, text)
  {
    EncryptedMeans(keys, random, plain);
    hide InPieces, Encode64, Escape, Chunks, Flat, Sealed;
    var chunks := Split(Escape(plain), keys.k - 11);
    var buffer := SealAll(keys, random, chunks);
    text := Encode64(buffer);
  }

  /** The loop of Encrypt. */
  method SealAll(keys: KeyPair, random: nat -> nat, chunks: seq<Bytes>) returns (buffer: Bytes)
    ensures buffer == Flat(Sealed(keys, random, chunks))
  {
    hide Flat;
    FlatNone();
    buffer := [];
    var i := 0;
    ghost var sealed := Sealed(keys, random, chunks);
    while i < |chunks|
      invariant 0 <= i <= |chunks| && buffer == Flat(sealed[..i])
    {
      FlatMore(sealed[..i], sealed[i]);
      assert sealed[..i + 1] == sealed[..i] + [sealed[i]];
      buffer := buffer + keys.seal(random(i), chunks[i]);
      i := i + 1;
    }
    assert sealed[..i] == sealed;
  }

  method Decrypt(keys: KeyPair, text: string) returns (r: Option<Bytes>)
    requires keys.k > 0
    ensures r == Decrypted(keys, text)
    ensures r.None? <==> Decode64(text).None? || exists i: nat :: BrokenAt(keys, Decode64(text).value, i)
    ensures r.Some? ==>
              && Decode64(text).Some?
              && exists parts :: UnsealedPieces(keys, Decode64(text).value, parts) && r == Some(DecodeURIComponent(Flat(parts)))
  {
    DecryptedMeans(keys, text);
    hide BrokenAt, UnsealedPieces, Decode64, DecodeURIComponent;
    var bytes := Decode64(text);
    if bytes.None? {
      return None;
    }
    var chunks := Split(bytes.value, keys.k);
    var buffer := [];
    var i := 0;
    while i < |chunks|
      invariant 0 <= i <= |chunks| && Unsealed(keys, chunks[..i]) == Some(buffer)
    {
      var chunk := keys.unseal(chunks[i]);
      assert chunks[..i + 1][..i] == chunks[..i];
      if chunk.None? {
        UnsealedFails(keys, chunks, i + 1);
        return None;
      }
      buffer := buffer + chunk.value;
      i := i + 1;
    }
    assert chunks[..i] == chunks;
    return Some(DecodeURIComponent(buffer));
  }

  /** One piece that does not come back, and the text does not. */
  lemma {:induction false} UnsealedFails(keys: KeyPair, chunks: seq<Bytes>, i: nat)
    requires i <= |chunks| && Unsealed(keys, chunks[..i]).None?
    ensures Unsealed(keys, chunks).None?
    decreases |chunks| - i
  {
    if i == |chunks| {
      assert chunks[..i] == chunks;
    } else {
      assert chunks[..i + 1][..i] == chunks[..i];
      UnsealedFails(keys, chunks, i + 1);
    }
  }

  lemma {:induction false} UnsealSealed(keys: KeyPair, random: nat -> nat, chunks: seq<Bytes>, i: nat)
    requires Matched(keys) && i <= |chunks| && forall j :: 0 <= j < |chunks| ==> |chunks[j]| <= keys.k - 11
    ensures Unsealed(keys, Sealed(keys, random, chunks)[..i]) == Some(Flat(chunks[..i]))
  {
    if i == 0 {
    } else {
      UnsealSealed(keys, random, chunks, i - 1);
      var sealed := Sealed(keys, random, chunks);
      assert sealed[..i][..i - 1] == sealed[..i - 1];
      assert chunks[..i] == chunks[..i - 1] + [chunks[i - 1]];
      FlatMore(chunks[..i - 1], chunks[i - 1]);
    }
  }

  lemma SealedLengths(keys: KeyPair, random: nat -> nat, chunks: seq<Bytes>)
    requires Matched(keys) && forall j :: 0 <= j < |chunks| ==> |chunks[j]| <= keys.k - 11
    ensures forall i :: 0 <= i < |chunks| ==> |Sealed(keys, random, chunks)[i]| == keys.k
  {
    forall i | 0 <= i < |chunks|
      ensures |Sealed(keys, random, chunks)[i]| == keys.k
    {
      assert |keys.seal(random(i), chunks[i])| == keys.k;
    }
  }

  /** The sealed pieces, put together and cut again, unseal to what was cut. */
  lemma UnsealsAll(keys: KeyPair, random: nat -> nat, chunks: seq<Bytes>)
    requires Matched(keys) && keys.k > 0 && forall j :: 0 <= j < |chunks| ==> |chunks[j]| <= keys.k - 11
    ensures Unsealed(keys, Chunks(Flat(Sealed(keys, random, chunks)), keys.k)) == Some(Flat(chunks))
  {
    var sealed := Sealed(keys, random, chunks);
    SealedLengths(keys, random, chunks);
    hide Chunks, Flat, Unsealed, Matched, Sealed;
    ChunksOfBlocks(sealed, keys.k);
    UnsealSealed(keys, random, chunks, |chunks|);
    assert sealed[..|chunks|] == sealed && chunks[..|chunks|] == chunks;
  }

  /** With keys that belong together, Decrypt takes Encrypt back, for every text and all random bytes. */
  lemma RoundTrip(keys: KeyPair, random: nat -> nat, plain: Bytes)
    requires Matched(keys) && keys.k > 11
    ensures Decrypted(keys, Encrypted(keys, random, plain)) == Some(plain)
  {
    hide Encode64, Decode64, Escape, Unescape, Chunks, Flat, Unsealed, Matched, Sealed;
    var chunks := Chunks(Escape(plain), keys.k - 11);
    ChunksPartition(Escape(plain), keys.k - 11);
    Base64RoundTrip(Flat(Sealed(keys, random, chunks)));
    UnsealsAll(keys, random, chunks);
    EscapeRoundTrip(plain);
  }
}
