/**
 The cipher of pkg/security/aes.go as the code runs it: nested loops over a 4x4 state and a
 schedule of words, all changed in place. Every method computes its Fips197 function.
 */
module AesCode {
  import opened AesField
  import F = Fips197

  ghost predicate IsState(s: array2<bv8>)
  {
    s.Length0 == 4 && s.Length1 == 4
  }

  /** The 4x4 array as its columns: row r and column c are s[r, c]. */
  ghost function Columns(s: array2<bv8>): F.State
    requires IsState(s)
    reads s
  {
    F.State(F.Word(s[0, 0], s[1, 0], s[2, 0], s[3, 0]), F.Word(s[0, 1], s[1, 1], s[2, 1], s[3, 1]),
            F.Word(s[0, 2], s[1, 2], s[2, 2], s[3, 2]), F.Word(s[0, 3], s[1, 3], s[2, 3], s[3, 3]))
  }

  /** A key schedule held as an array of four-byte rows. */
  ghost function Words(w: array2<bv8>): (r: seq<F.Word>)
    requires w.Length1 == 4
    reads w
    ensures |r| == w.Length0
  {
    seq(w.Length0, i requires 0 <= i < w.Length0 reads w => F.Word(w[i, 0], w[i, 1], w[i, 2], w[i, 3]))
  }

  method AddRoundKey(state: array2<bv8>, w: array2<bv8>, rnd: nat)
    requires IsState(state) && w.Length1 == 4 && 4 * rnd + 4 <= w.Length0 && state != w
    modifies state
    ensures Columns(state) == F.AddRoundKey(old(Columns(state)), Words(w), rnd)
  {
    hide Add;
    for r := 0 to 4
      invariant forall i, j :: 0 <= i < 4 && 0 <= j < 4 ==>
        state[i, j] == if i < r then Add(old(state[i, j]), w[rnd * 4 + j, i]) else old(state[i, j])
    {
      for c := 0 to 4
        invariant forall i, j :: 0 <= i < 4 && 0 <= j < 4 ==>
          state[i, j] == if i < r || (i == r && j < c) then Add(old(state[i, j]), w[rnd * 4 + j, i])
                         else old(state[i, j])
      {
        state[r, c] := Add(state[r, c], w[rnd * 4 + c, r]);
      }
    }
  }

  method SubBytes(state: array2<bv8>)
    requires IsState(state)
    modifies state
    ensures Columns(state) == F.SubBytes(old(Columns(state)))
  {
    hide SubByte;
    for r := 0 to 4
      invariant forall i, j :: 0 <= i < 4 && 0 <= j < 4 ==>
        state[i, j] == if i < r then SubByte(old(state[i, j])) else old(state[i, j])
    {
      for c := 0 to 4
        invariant forall i, j :: 0 <= i < 4 && 0 <= j < 4 ==>
          state[i, j] == if i < r || (i == r && j < c) then SubByte(old(state[i, j])) else old(state[i, j])
      {
        state[r, c] := SubByte(state[r, c]);
      }
    }
  }

  method ShiftRows(state: array2<bv8>)
    requires IsState(state)
    modifies state
    ensures Columns(state) == F.ShiftRows(old(Columns(state)))
  {
    var t := new bv8[4];
    for r := 1 to 4
      invariant forall i, j {:trigger state[i, j]} :: 0 <= i < 4 && 0 <= j < 4 ==>
        state[i, j] == if i < r then old(state[i, (j + i) % 4]) else old(state[i, j])
    {
      for c := 0 to 4
        modifies t
        invariant forall j :: 0 <= j < c ==> t[j] == old(state[r, (j + r) % 4])
      {
        t[c] := state[r, (c + r) % 4];
      }
      for c := 0 to 4
        modifies state
        invariant forall i, j {:trigger state[i, j]} :: 0 <= i < 4 && 0 <= j < 4 ==>
          state[i, j] == if i < r || (i == r && j < c) then old(state[i, (j + i) % 4]) else old(state[i, j])
      {
        state[r, c] := t[c];
      }
    }
  }

  /** Five terms joined by ^, as the lines of mixColumns join them. */
  function Sum5(p: bv8, q: bv8, r: bv8, s: bv8, t: bv8): bv8
  {
    Add(Add(Add(Add(p, q), r), s), t)
  }

  lemma Rotate5(p: bv8, q: bv8, r: bv8, s: bv8, t: bv8)
    ensures Sum5(p, q, r, s, t) == Sum5(q, r, s, t, p)
  {
    hide Add;
    F.AddLaws(p, q, r);
    F.AddLaws(p, Add(q, r), s);
    F.AddLaws(p, Add(Add(q, r), s), t);
    F.AddLaws(p, Add(Add(Add(q, r), s), t), t);
  }

  /** A row of mixColumns as it is written, and as the polynomial product groups it. */
  lemma RowAsWritten(p: bv8, q: bv8, xq: bv8, r: bv8, s: bv8)
    ensures Sum5(p, q, xq, r, s) == F.Sum4(p, Add(xq, q), r, s)
  {
    hide Add;
    F.AddLaws(p, q, xq);
    F.AddLaws(q, xq, p);
  }

  /** The four lines of mixColumns, over a column a and its double b. */
  function MixLines(a: F.Word, b: F.Word): F.Word
  {
    F.Word(Sum5(b.b0, a.b1, b.b1, a.b2, a.b3), Sum5(a.b0, b.b1, a.b2, b.b2, a.b3),
           Sum5(a.b0, a.b1, b.b2, a.b3, b.b3), Sum5(a.b0, b.b0, a.b1, a.b2, b.b3))
  }

  lemma MixLinesMultiply(a: F.Word)
    ensures MixLines(a, F.Word(Xtime(a.b0), Xtime(a.b1), Xtime(a.b2), Xtime(a.b3))) == F.PolyMul(F.MIX, a)
  {
    hide GfMul, Xtime, Add, F.PolyMul, F.Sum4, Sum5;
    var a0, a1, a2, a3 := a.b0, a.b1, a.b2, a.b3;
    var b0, b1, b2, b3 := Xtime(a0), Xtime(a1), Xtime(a2), Xtime(a3);
    F.MixColumnRows(a);
    RowAsWritten(b0, a1, b1, a2, a3);
    Rotate5(a0, b1, a2, b2, a3);
    RowAsWritten(b1, a2, b2, a3, a0);
    Rotate5(a0, a1, b2, a3, b3);
    Rotate5(a1, b2, a3, b3, a0);
    RowAsWritten(b2, a3, b3, a0, a1);
    Rotate5(b3, a0, b0, a1, a2);
    RowAsWritten(b3, a0, b0, a1, a2);
  }

  ghost function Column(s: array2<bv8>, c: nat): F.Word
    requires IsState(s) && c < 4
    reads s
  {
    F.Word(s[0, c], s[1, c], s[2, c], s[3, c])
  }

  method MixColumn(s: array2<bv8>, c: nat)
    requires IsState(s) && c < 4
    modifies s
    ensures Column(s, c) == F.PolyMul(F.MIX, old(Column(s, c)))
    ensures forall j {:trigger Column(s, j)} :: 0 <= j < 4 && j != c ==> Column(s, j) == old(Column(s, j))
  {
    hide Xtime, Double, F.PolyMul, Sum5;
    var a, b := new bv8[4], new bv8[4];
    for i := 0 to 4
      modifies a, b
      invariant forall k :: 0 <= k < i ==> a[k] == s[k, c] && b[k] == Xtime(a[k])
    {
      a[i] := s[i, c];
      b[i] := Double(s[i, c]);
      DoubleIsXtime(s[i, c]);
    }
    MixLinesMultiply(Column(s, c));
    s[0, c] := Sum5(b[0], a[1], b[1], a[2], a[3]);
    s[1, c] := Sum5(a[0], b[1], a[2], b[2], a[3]);
    s[2, c] := Sum5(a[0], a[1], b[2], a[3], b[3]);
    s[3, c] := Sum5(a[0], b[0], a[1], a[2], b[3]);
  }

  method MixColumns(s: array2<bv8>)
    requires IsState(s)
    modifies s
    ensures Columns(s) == F.MixColumns(old(Columns(s)))
  {
    hide F.PolyMul;
    for c := 0 to 4
      invariant forall j {:trigger Column(s, j)} :: 0 <= j < 4 ==>
        Column(s, j) == if j < c then F.PolyMul(F.MIX, old(Column(s, j))) else old(Column(s, j))
    {
      MixColumn(s, c);
    }
    assert forall j {:trigger Column(s, j)} :: 0 <= j < 4 ==> Column(s, j) == F.PolyMul(F.MIX, old(Column(s, j)));
    assert Column(s, 0) == Columns(s).c0 && Column(s, 1) == Columns(s).c1;
    assert Column(s, 2) == Columns(s).c2 && Column(s, 3) == Columns(s).c3;
  }

  method Cipher(input: seq<bv8>, w: array2<bv8>) returns (output: seq<bv8>)
    requires |input| >= 16 && w.Length1 == 4 && w.Length0 >= 8 && w.Length0 % 4 == 0
    ensures |output| == 16 && output == F.Cipher(input[..16], Words(w))
  {
    hide F.AddRoundKey, F.SubBytes, F.ShiftRows, F.MixColumns, Words;
    var nr := w.Length0 / 4 - 1;
    var state := new bv8[4, 4];
    for i := 0 to 16
      invariant forall r, c :: 0 <= r < 4 && 0 <= c < 4 && 4 * c + r < i ==> state[r, c] == input[4 * c + r]
    {
      state[i % 4, i / 4] := input[i];
    }
    ghost var loaded := F.Load(input[..16]);
    assert Columns(state) == loaded;
    AddRoundKey(state, w, 0);
    for round := 1 to nr
      invariant Columns(state) == F.Rounds(loaded, Words(w), round - 1)
    {
      SubBytes(state);
      ShiftRows(state);
      MixColumns(state);
      AddRoundKey(state, w, round);
    }
    SubBytes(state);
    ShiftRows(state);
    AddRoundKey(state, w, nr);
    assert Columns(state) == F.CipherState(loaded, Words(w));
    output := StoreBlock(state);
  }

  /** The closing loop of cipher: the state laid out as sixteen bytes again. */
  method StoreBlock(state: array2<bv8>) returns (output: seq<bv8>)
    requires IsState(state)
    ensures output == F.Store(Columns(state))
  {
    var out := new bv8[16];
    for i := 0 to 16
      modifies out
      invariant forall r, c :: 0 <= r < 4 && 0 <= c < 4 && 4 * c + r < i ==> out[4 * c + r] == state[r, c]
    {
      out[i] := state[i % 4, i / 4];
    }
    output := out[..];
    ghost var s := Columns(state);
    forall c | 0 <= c < 4
      ensures output[4 * c] == state[0, c] && output[4 * c + 1] == state[1, c]
      ensures output[4 * c + 2] == state[2, c] && output[4 * c + 3] == state[3, c]
    {
      assert out[4 * c + 0] == state[0, c];
    }
    StoreCells(output, s);
  }

  lemma StoreCells(b: seq<bv8>, s: F.State)
    requires |b| == 16
    requires b[0] == s.c0.b0 && b[1] == s.c0.b1 && b[2] == s.c0.b2 && b[3] == s.c0.b3
    requires b[4] == s.c1.b0 && b[5] == s.c1.b1 && b[6] == s.c1.b2 && b[7] == s.c1.b3
    requires b[8] == s.c2.b0 && b[9] == s.c2.b1 && b[10] == s.c2.b2 && b[11] == s.c2.b3
    requires b[12] == s.c3.b0 && b[13] == s.c3.b1 && b[14] == s.c3.b2 && b[15] == s.c3.b3
    ensures b == F.Store(s)
  {}

  // ----- key expansion -----

  /** The bytes of a cipher key, four to a word. */
  function KeyWords(key: seq<bv8>): (r: seq<F.Word>)
    ensures |r| == |key| / 4
  {
    seq(|key| / 4, i requires 0 <= i < |key| / 4 => F.Word(key[4 * i], key[4 * i + 1], key[4 * i + 2], key[4 * i + 3]))
  }

  /** The first bytes of the rows of rCon; the other three are zero. */
  const RCON: seq<bv8> := [0x00, 0x01, 0x02, 0x04, 0x08, 0x10, 0x20, 0x40, 0x80, 0x1b, 0x36]

  /** Every row after the first is the power of {02} that section 5.2 asks for. */
  lemma RconIsPower(j: nat)
    requires 1 <= j <= 10
    ensures |RCON| == 11 && RCON[j] == F.PowerOf2(j)
  {
    assert F.PowerOf2(1) == 0x01;
    assert F.PowerOf2(2) == 0x02;
    assert F.PowerOf2(3) == 0x04;
    assert F.PowerOf2(4) == 0x08;
    assert F.PowerOf2(5) == 0x10;
    assert F.PowerOf2(6) == 0x20;
    assert F.PowerOf2(7) == 0x40;
    assert F.PowerOf2(8) == 0x80;
    assert F.PowerOf2(9) == 0x1b;
    assert F.PowerOf2(10) == 0x36;
  }

  /** The index into rCon never leaves the table. */
  lemma RconIndex(nk: nat, i: nat)
    requires nk == 4 || nk == 6 || nk == 8
    requires nk <= i < 4 * (nk + 7) && i % nk == 0
    ensures 1 <= i / nk <= 10
  {}

  ghost function AsWord(a: array<bv8>): F.Word
    requires a.Length == 4
    reads a
  {
    F.Word(a[0], a[1], a[2], a[3])
  }

  method RotWord(w: array<bv8>)
    requires w.Length == 4
    modifies w
    ensures AsWord(w) == F.RotWord(old(AsWord(w)))
  {
    var tmp := w[0];
    for i := 0 to 3
      invariant forall k :: 0 <= k < i ==> w[k] == old(w[k + 1])
      invariant forall k :: i <= k < 4 ==> w[k] == old(w[k])
    {
      w[i] := w[i + 1];
    }
    w[3] := tmp;
  }

  method SubWord(w: array<bv8>)
    requires w.Length == 4
    modifies w
    ensures AsWord(w) == F.SubWord(old(AsWord(w)))
  {
    hide SubByte;
    for i := 0 to 4
      invariant forall k :: 0 <= k < 4 ==> w[k] == if k < i then SubByte(old(w[k])) else old(w[k])
    {
      w[i] := SubByte(w[i]);
    }
  }

  ghost function Row(w: array2<bv8>, i: nat): F.Word
    requires w.Length1 == 4 && i < w.Length0
    reads w
  {
    F.Word(w[i, 0], w[i, 1], w[i, 2], w[i, 3])
  }

  /** What temp holds when word i is formed: word i - 1, transformed where section 5.2 says. */
  ghost function Temp(key: seq<F.Word>, i: nat): F.Word
    requires F.IsKey(key) && |key| <= i
  {
    F.Mixed(F.KeyWord(key, i - 1), |key|, i)
  }

  method Transform(temp: array<bv8>, i: nat, nk: nat, ghost key: seq<F.Word>)
    requires temp.Length == 4 && F.IsKey(key) && nk == |key|
    requires nk <= i < 4 * (nk + 7) && AsWord(temp) == F.KeyWord(key, i - 1)
    modifies temp
    ensures AsWord(temp) == Temp(key, i)
  {
    hide F.SubWord, F.RotWord, F.KeyWord, F.PowerOf2, Add;
    if i % nk == 0 {
      RotWord(temp);
      SubWord(temp);
      RconIndex(nk, i);
      RconIsPower(i / nk);
      F.AddSelf(temp[1]);
      F.AddSelf(temp[2]);
      F.AddSelf(temp[3]);
      temp[0] := Add(temp[0], RCON[i / nk]);
    } else if nk > 6 && i % nk == 4 {
      SubWord(temp);
    }
  }

  /** The body of the main loop of keyExpansion: row i from rows i - 1 and i - nk. */
  method ExpandRow(w: array2<bv8>, temp: array<bv8>, i: nat, nk: nat, ghost key: seq<F.Word>)
    requires w.Length1 == 4 && temp.Length == 4 && F.IsKey(key) && nk == |key|
    requires nk <= i < w.Length0 == 4 * (nk + 7)
    requires forall k :: 0 <= k < i ==> Row(w, k) == F.KeyWord(key, k)
    modifies w, temp
    ensures forall k :: 0 <= k <= i ==> Row(w, k) == F.KeyWord(key, k)
  {
    hide F.KeyWord, F.AddWord, Add, Temp;
    for t := 0 to 4
      modifies temp
      invariant forall k :: 0 <= k < t ==> temp[k] == w[i - 1, k]
    {
      temp[t] := w[i - 1, t];
    }
    assert AsWord(temp) == Row(w, i - 1);
    Transform(temp, i, nk, key);
    for t := 0 to 4
      modifies w
      invariant forall k, j :: 0 <= k < i && 0 <= j < 4 ==> w[k, j] == old(w[k, j])
      invariant forall j :: 0 <= j < t ==> w[i, j] == Add(w[i - nk, j], temp[j])
    {
      w[i, t] := Add(w[i - nk, t], temp[t]);
    }
    KeyWordCases(key, i);
    assert forall k :: 0 <= k < i ==> Row(w, k) == old(Row(w, k));
    assert Row(w, i) == AddRows(Row(w, i - nk), AsWord(temp));
  }

  /** keyExpansion: the loops fill the schedule of section 5.2, row by row. */
  method KeyExpansion(key: seq<bv8>) returns (w: array2<bv8>)
    requires |key| == 16 || |key| == 24 || |key| == 32
    ensures fresh(w) && w.Length1 == 4
    ensures Words(w) == F.KeySchedule(KeyWords(key))
  {
    hide F.KeyWord, F.AddWord;
    ghost var words := KeyWords(key);
    var nb := 4;
    var nk := |key| / 4;
    var nr := nk + 6;
    w := new bv8[nb * (nr + 1), 4];
    var temp := new bv8[4];
    for i := 0 to nk
      invariant forall k :: 0 <= k < i ==> Row(w, k) == words[k]
    {
      w[i, 0], w[i, 1], w[i, 2], w[i, 3] := key[4 * i], key[4 * i + 1], key[4 * i + 2], key[4 * i + 3];
    }
    forall k | 0 <= k < nk
      ensures Row(w, k) == F.KeyWord(words, k)
    {
      KeyWordCases(words, k);
    }
    for i := nk to nb * (nr + 1)
      invariant forall k :: 0 <= k < i ==> Row(w, k) == F.KeyWord(words, k)
    {
      ExpandRow(w, temp, i, nk, words);
    }
    assert forall k :: 0 <= k < w.Length0 ==> Words(w)[k] == Row(w, k);
  }

  ghost function AddRows(v: F.Word, w: F.Word): (r: F.Word)
    ensures r == F.AddWord(v, w)
  {
    F.Word(Add(v.b0, w.b0), Add(v.b1, w.b1), Add(v.b2, w.b2), Add(v.b3, w.b3))
  }

  lemma KeyWordCases(key: seq<F.Word>, i: nat)
    requires F.IsKey(key)
    ensures F.KeyWord(key, i) == if i < |key| then key[i] else F.AddWord(F.KeyWord(key, i - |key|), Temp(key, i))
  {
    hide F.AddWord, F.Mixed;
  }
}
