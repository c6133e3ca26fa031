/**
 The cipher and its inverse as FIPS 197 defines them in sections 5.1 and 5.3, and the key
 schedule of section 5.2, on values. The methods of module AesCode compute these functions.
 */
module Fips197 {
  import opened AesField

  /** Four bytes: a column of the state, or a word of the key schedule. */
  datatype Word = Word(b0: bv8, b1: bv8, b2: bv8, b3: bv8)
  {
    function At(r: nat): bv8
      requires r < 4
    {
      if r == 0 then b0 else if r == 1 then b1 else if r == 2 then b2 else b3
    }
  }

  /** The state as its four columns. */
  datatype State = State(c0: Word, c1: Word, c2: Word, c3: Word)
  {
    function At(c: nat): Word
      requires c < 4
    {
      if c == 0 then c0 else if c == 1 then c1 else if c == 2 then c2 else c3
    }
  }

  function Sum4(p: bv8, q: bv8, r: bv8, s: bv8): bv8
  {
    Add(Add(Add(p, q), r), s)
  }

  /** Section 4.3: the product of two four-term polynomials modulo x^4 + 1. */
  function PolyMul(a: Word, b: Word): Word
  {
    Word(Sum4(GfMul(a.b0, b.b0), GfMul(a.b3, b.b1), GfMul(a.b2, b.b2), GfMul(a.b1, b.b3)),
         Sum4(GfMul(a.b1, b.b0), GfMul(a.b0, b.b1), GfMul(a.b3, b.b2), GfMul(a.b2, b.b3)),
         Sum4(GfMul(a.b2, b.b0), GfMul(a.b1, b.b1), GfMul(a.b0, b.b2), GfMul(a.b3, b.b3)),
         Sum4(GfMul(a.b3, b.b0), GfMul(a.b2, b.b1), GfMul(a.b1, b.b2), GfMul(a.b0, b.b3)))
  }

  /** {03}x^3 + {01}x^2 + {01}x + {02}, and its inverse {0b}x^3 + {0d}x^2 + {09}x + {0e}. */
  const MIX := Word(0x02, 0x01, 0x01, 0x03)
  const UNMIX := Word(0x0e, 0x09, 0x0d, 0x0b)

  function AddWord(v: Word, w: Word): Word
  {
    Word(Add(v.b0, w.b0), Add(v.b1, w.b1), Add(v.b2, w.b2), Add(v.b3, w.b3))
  }

  function SubWord(w: Word): Word
  {
    Word(SubByte(w.b0), SubByte(w.b1), SubByte(w.b2), SubByte(w.b3))
  }

  function InvSubWord(w: Word): Word
  {
    Word(InvSubByte(w.b0), InvSubByte(w.b1), InvSubByte(w.b2), InvSubByte(w.b3))
  }

  function RotWord(w: Word): Word
  {
    Word(w.b1, w.b2, w.b3, w.b0)
  }

  function SubBytes(s: State): State
  {
    State(SubWord(s.c0), SubWord(s.c1), SubWord(s.c2), SubWord(s.c3))
  }

  function InvSubBytes(s: State): State
  {
    State(InvSubWord(s.c0), InvSubWord(s.c1), InvSubWord(s.c2), InvSubWord(s.c3))
  }

  /** Row r moves r columns to the left. */
  function ShiftRows(s: State): State
  {
    State(Word(s.c0.b0, s.c1.b1, s.c2.b2, s.c3.b3),
          Word(s.c1.b0, s.c2.b1, s.c3.b2, s.c0.b3),
          Word(s.c2.b0, s.c3.b1, s.c0.b2, s.c1.b3),
          Word(s.c3.b0, s.c0.b1, s.c1.b2, s.c2.b3))
  }

  function InvShiftRows(s: State): State
  {
    State(Word(s.c0.b0, s.c3.b1, s.c2.b2, s.c1.b3),
          Word(s.c1.b0, s.c0.b1, s.c3.b2, s.c2.b3),
          Word(s.c2.b0, s.c1.b1, s.c0.b2, s.c3.b3),
          Word(s.c3.b0, s.c2.b1, s.c1.b2, s.c0.b3))
  }

  function MixColumns(s: State): State
  {
    State(PolyMul(MIX, s.c0), PolyMul(MIX, s.c1), PolyMul(MIX, s.c2), PolyMul(MIX, s.c3))
  }

  function InvMixColumns(s: State): State
  {
    State(PolyMul(UNMIX, s.c0), PolyMul(UNMIX, s.c1), PolyMul(UNMIX, s.c2), PolyMul(UNMIX, s.c3))
  }

  function AddRoundKey(s: State, w: seq<Word>, round: nat): State
    requires 4 * round + 4 <= |w|
  {
    State(AddWord(s.c0, w[4 * round]), AddWord(s.c1, w[4 * round + 1]),
          AddWord(s.c2, w[4 * round + 2]), AddWord(s.c3, w[4 * round + 3]))
  }

  function Round(s: State, w: seq<Word>, n: nat): State
    requires 4 * n + 4 <= |w|
  {
    AddRoundKey(MixColumns(ShiftRows(SubBytes(s))), w, n)
  }

  function UndoRound(s: State, w: seq<Word>, n: nat): State
    requires 4 * n + 4 <= |w|
  {
    InvSubBytes(InvShiftRows(InvMixColumns(AddRoundKey(s, w, n))))
  }

  /** The state after the initial key addition and the first n full rounds. */
  function Rounds(s: State, w: seq<Word>, n: nat): State
    requires 4 * n + 4 <= |w|
  {
    if n == 0 then AddRoundKey(s, w, 0) else Round(Rounds(s, w, n - 1), w, n)
  }

  /** The full rounds n..1 and the initial key addition, taken back. */
  function UndoRounds(s: State, w: seq<Word>, n: nat): State
    requires 4 * n + 4 <= |w|
    decreases n
  {
    if n == 0 then AddRoundKey(s, w, 0) else UndoRounds(UndoRound(s, w, n), w, n - 1)
  }

  type Block = b: seq<bv8> | |b| == 16 witness seq(16, _ => 0)

  /** Section 3.4: byte r + 4c of a block is in row r and column c. */
  function Load(b: Block): State
  {
    State(Word(b[0], b[1], b[2], b[3]), Word(b[4], b[5], b[6], b[7]),
          Word(b[8], b[9], b[10], b[11]), Word(b[12], b[13], b[14], b[15]))
  }

  function Store(s: State): Block
  {
    [ s.c0.b0, s.c0.b1, s.c0.b2, s.c0.b3, s.c1.b0, s.c1.b1, s.c1.b2, s.c1.b3,
      s.c2.b0, s.c2.b1, s.c2.b2, s.c2.b3, s.c3.b0, s.c3.b1, s.c3.b2, s.c3.b3 ]
  }

  /** A schedule of one round or more: 44, 52 or 60 words for the three key lengths. */
  predicate IsSchedule(w: seq<Word>)
  {
    |w| >= 8 && |w| % 4 == 0
  }

  function LastRound(s: State, w: seq<Word>, n: nat): State
    requires 4 * n + 4 <= |w|
  {
    AddRoundKey(ShiftRows(SubBytes(s)), w, n)
  }

  function CipherState(s: State, w: seq<Word>): State
    requires IsSchedule(w)
  {
    var last := |w| / 4 - 1;
    LastRound(Rounds(s, w, last - 1), w, last)
  }

  function UncipherState(s: State, w: seq<Word>): State
    requires IsSchedule(w)
  {
    var last := |w| / 4 - 1;
    UndoRounds(InvSubBytes(InvShiftRows(AddRoundKey(s, w, last))), w, last - 1)
  }

  function Cipher(b: Block, w: seq<Word>): Block
    requires IsSchedule(w)
  {
    Store(CipherState(Load(b), w))
  }

  function InvCipher(b: Block, w: seq<Word>): Block
    requires IsSchedule(w)
  {
    Store(UncipherState(Load(b), w))
  }

  // ----- the key schedule -----

  /** x^(j-1) as a field element: the first byte of Rcon[j] in section 5.2. */
  function PowerOf2(j: nat): bv8
    requires 0 < j
  {
    if j == 1 then 0x01 else Xtime(PowerOf2(j - 1))
  }

  /** A cipher key of 4, 6 or 8 words. */
  predicate IsKey(key: seq<Word>)
  {
    |key| == 4 || |key| == 6 || |key| == 8
  }

  function ScheduleLength(key: seq<Word>): nat
  {
    4 * (|key| + 7)
  }

  /** What becomes of word i - 1 before it goes into word i. */
  function Mixed(prev: Word, nk: nat, i: nat): Word
    requires 0 < nk <= i
  {
    if i % nk == 0 then AddWord(SubWord(RotWord(prev)), Word(PowerOf2(i / nk), 0, 0, 0))
    else if nk > 6 && i % nk == 4 then SubWord(prev)
    else prev
  }

  /** Word i of the expanded key. */
  function KeyWord(key: seq<Word>, i: nat): Word
    requires IsKey(key)
  {
    if i < |key| then key[i] else AddWord(KeyWord(key, i - |key|), Mixed(KeyWord(key, i - 1), |key|, i))
  }

  function KeySchedule(key: seq<Word>): (w: seq<Word>)
    requires IsKey(key)
    ensures |w| == ScheduleLength(key) && IsSchedule(w)
  {
    seq(ScheduleLength(key), i requires 0 <= i < ScheduleLength(key) => KeyWord(key, i))
  }

  // ----- every step has its inverse -----

  lemma AddTwice(x: bv8, k: bv8)
    ensures Add(Add(x, k), k) == x
  {}

  lemma AddWordTwice(v: Word, k: Word)
    ensures AddWord(AddWord(v, k), k) == v
  {
    hide Add;
    AddTwice(v.b0, k.b0);
    AddTwice(v.b1, k.b1);
    AddTwice(v.b2, k.b2);
    AddTwice(v.b3, k.b3);
  }

  lemma WordBack(key: seq<Word>, i: nat)
    requires IsKey(key) && i >= |key|
    ensures KeyWord(key, i - |key|) == AddWord(KeyWord(key, i), Mixed(KeyWord(key, i - 1), |key|, i))
  {
    hide AddWord, Mixed;
    AddWordTwice(KeyWord(key, i - |key|), Mixed(KeyWord(key, i - 1), |key|, i));
  }

  lemma FirstWord(key: seq<Word>, k: nat)
    requires IsKey(key) && k < |key|
    ensures KeyWord(key, k) == key[k]
  {}

  /** Any Nk consecutive words of a schedule lead back to the key: the expansion loses nothing. */
  lemma {:induction false} ScheduleDeterminesKey(key: seq<Word>, other: seq<Word>, j: nat)
    requires IsKey(key) && |other| == |key|
    requires forall k :: j <= k < j + |key| ==> KeyWord(key, k) == KeyWord(other, k)
    ensures key == other
    decreases j
  {
    hide KeyWord, Mixed, AddWord;
    if j == 0 {
      forall k | 0 <= k < |key|
        ensures key[k] == other[k]
      {
        FirstWord(key, k);
        FirstWord(other, k);
      }
    } else {
      var i := j - 1 + |key|;
      assert KeyWord(key, i) == KeyWord(other, i) && KeyWord(key, i - 1) == KeyWord(other, i - 1);
      WordBack(key, i);
      WordBack(other, i);
      ScheduleDeterminesKey(key, other, j - 1);
    }
  }

  lemma AddRoundKeyTwice(s: State, w: seq<Word>, round: nat)
    requires 4 * round + 4 <= |w|
    ensures AddRoundKey(AddRoundKey(s, w, round), w, round) == s
  {
    hide AddWord;
    AddWordTwice(s.c0, w[4 * round]);
    AddWordTwice(s.c1, w[4 * round + 1]);
    AddWordTwice(s.c2, w[4 * round + 2]);
    AddWordTwice(s.c3, w[4 * round + 3]);
  }

  lemma SubWordInverse(w: Word)
    ensures InvSubWord(SubWord(w)) == w
  {
    hide SubByte, InvSubByte;
    SubByteInverse(w.b0);
    SubByteInverse(w.b1);
    SubByteInverse(w.b2);
    SubByteInverse(w.b3);
  }

  lemma SubShiftInverse(s: State)
    ensures InvSubBytes(InvShiftRows(ShiftRows(SubBytes(s)))) == s
  {
    hide SubWord, InvSubWord;
    SubWordInverse(s.c0);
    SubWordInverse(s.c1);
    SubWordInverse(s.c2);
    SubWordInverse(s.c3);
  }

  lemma XtimeSum(x: bv8, y: bv8)
    ensures Xtime(Add(x, y)) == Add(Xtime(x), Xtime(y))
  {
    hide Xtime;
    XtimeAdds(x, y);
  }

  function Times4(x: bv8): bv8
  {
    Xtime(Xtime(x))
  }

  function Times8(x: bv8): bv8
  {
    Xtime(Xtime(Xtime(x)))
  }

  lemma TimesSum(x: bv8, y: bv8)
    ensures Times4(Add(x, y)) == Add(Times4(x), Times4(y))
    ensures Times8(Add(x, y)) == Add(Times8(x), Times8(y))
  {
    hide Xtime, Add;
    XtimeSum(x, y);
    XtimeSum(Xtime(x), Xtime(y));
    XtimeSum(Xtime(Xtime(x)), Xtime(Xtime(y)));
  }

  lemma UnmixProducts(x: bv8)
    ensures GfMul(0x0e, x) == Add(Add(Times8(x), Times4(x)), Xtime(x))
    ensures GfMul(0x0b, x) == Add(Add(Times8(x), Xtime(x)), x)
    ensures GfMul(0x0d, x) == Add(Add(Times8(x), Times4(x)), x)
    ensures GfMul(0x09, x) == Add(Times8(x), x)
  {
    hide Xtime, GfMul, Add;
    MulE(x);
    MulB(x);
    MulD(x);
    Mul9(x);
  }

  lemma AddCommutes(p: bv8, q: bv8)
    ensures Add(p, q) == Add(q, p)
  {}

  lemma AddAssociates(p: bv8, q: bv8, r: bv8)
    ensures Add(Add(p, q), r) == Add(p, Add(q, r))
  {}

  lemma AddSelf(p: bv8)
    ensures Add(p, 0) == p && Add(p, p) == 0
  {}

  lemma AddLaws(p: bv8, q: bv8, r: bv8)
    ensures Add(p, q) == Add(q, p)
    ensures Add(Add(p, q), r) == Add(p, Add(q, r))
    ensures Add(Add(p, q), Add(q, r)) == Add(p, r)
    ensures Add(p, Add(p, q)) == q
    ensures Add(p, 0) == p && Add(p, p) == 0
  {
    hide Add;
    AddSelf(p);
    AddSelf(q);
    AddSelf(r);
    AddCommutes(p, q);
    AddCommutes(q, 0);
    AddCommutes(r, 0);
    AddAssociates(p, q, r);
    AddAssociates(p, p, q);
    AddAssociates(p, q, Add(q, r));
    AddAssociates(q, q, r);
  }

  lemma Interchange(a: bv8, b: bv8, c: bv8, d: bv8)
    ensures Add(Add(a, b), Add(c, d)) == Add(Add(a, c), Add(b, d))
  {
    hide Add;
    AddLaws(Add(a, b), c, d);
    AddLaws(a, b, c);
    AddLaws(b, c, a);
    AddLaws(a, c, b);
    AddLaws(Add(a, c), b, d);
  }

  lemma SumOfSums(a: bv8, b: bv8, c: bv8, d: bv8, p: bv8, q: bv8, r: bv8, s: bv8)
    ensures Sum4(Add(a, p), Add(b, q), Add(c, r), Add(d, s)) == Add(Sum4(a, b, c, d), Sum4(p, q, r, s))
  {
    hide Add;
    Interchange(a, p, b, q);
    Interchange(Add(a, b), Add(p, q), c, r);
    Interchange(Add(Add(a, b), c), Add(Add(p, q), r), d, s);
  }

  lemma GatherLow(a4: bv8, a2: bv8, b2: bv8, b1: bv8, c4: bv8, c1: bv8, d1: bv8)
    ensures Sum4(Add(a4, a2), Add(b2, b1), Add(c4, c1), d1) ==
            Add(Add(Add(a4, c4), Add(a2, b2)), Add(Add(b1, c1), d1))
  {
    hide Add;
    var m := Add(a2, b2);
    AddLaws(Add(a4, a2), b2, b1);
    AddLaws(a4, a2, b2);
    Interchange(Add(a4, m), b1, c4, c1);
    AddLaws(a4, m, c4);
    AddLaws(m, c4, a4);
    AddLaws(a4, c4, m);
    AddLaws(Add(Add(a4, c4), m), Add(b1, c1), d1);
  }

  lemma GatherPowers(a8: bv8, a4: bv8, a2: bv8, b8: bv8, b2: bv8, b1: bv8,
                     c8: bv8, c4: bv8, c1: bv8, d8: bv8, d1: bv8)
    ensures Sum4(Add(Add(a8, a4), a2), Add(Add(b8, b2), b1), Add(Add(c8, c4), c1), Add(d8, d1)) ==
            Sum4(Sum4(a8, b8, c8, d8), Add(a4, c4), Add(a2, b2), Add(Add(b1, c1), d1))
  {
    hide Add;
    AddLaws(a8, a4, a2);
    AddLaws(b8, b2, b1);
    AddLaws(c8, c4, c1);
    SumOfSums(a8, b8, c8, d8, Add(a4, a2), Add(b2, b1), Add(c4, c1), d1);
    GatherLow(a4, a2, b2, b1, c4, c1, d1);
    var top := Sum4(a8, b8, c8, d8);
    AddLaws(top, Add(a4, c4), Add(a2, b2));
    AddLaws(top, Add(Add(a4, c4), Add(a2, b2)), Add(Add(b1, c1), d1));
  }

  /** The four products of a row of UNMIX, gathered by powers of {02}. */
  lemma UnmixByPowers(u0: bv8, u1: bv8, u2: bv8, u3: bv8)
    ensures
      Sum4(GfMul(0x0e, u0), GfMul(0x0b, u1), GfMul(0x0d, u2), GfMul(0x09, u3)) ==
      Sum4(Times8(Sum4(u0, u1, u2, u3)), Times4(Add(u0, u2)), Xtime(Add(u0, u1)), Add(Add(u1, u2), u3))
  {
    hide Xtime, GfMul, Add, Times4, Times8;
    UnmixProducts(u0);
    UnmixProducts(u1);
    UnmixProducts(u2);
    UnmixProducts(u3);
    TimesSum(u0, u1);
    TimesSum(Add(u0, u1), u2);
    TimesSum(Add(Add(u0, u1), u2), u3);
    TimesSum(u0, u2);
    XtimeSum(u0, u1);
    GatherPowers(Times8(u0), Times4(u0), Xtime(u0), Times8(u1), Xtime(u1), u1,
                 Times8(u2), Times4(u2), u2, Times8(u3), u3);
  }

  /** A row of a mixed column: {02}p + {03}q + r + s. */
  function MixedRow(p: bv8, q: bv8, r: bv8, s: bv8): bv8
  {
    Sum4(Xtime(p), Add(Xtime(q), q), r, s)
  }

  lemma TurnOnce(p: bv8, q: bv8, r: bv8, s: bv8)
    ensures Sum4(p, q, r, s) == Sum4(s, p, q, r)
  {
    hide Add;
    AddLaws(Add(Add(p, q), r), s, s);
    AddLaws(s, Add(p, q), r);
    AddLaws(s, p, q);
  }

  lemma Turn4(p: bv8, q: bv8, r: bv8, s: bv8)
    ensures Sum4(p, q, r, s) == Sum4(s, p, q, r)
    ensures Sum4(p, q, r, s) == Sum4(r, s, p, q)
    ensures Sum4(p, q, r, s) == Sum4(q, r, s, p)
  {
    hide Add;
    TurnOnce(p, q, r, s);
    TurnOnce(s, p, q, r);
    TurnOnce(r, s, p, q);
  }

  /** A row of a mixed column through the sum of the whole column. */
  lemma MixedRowForm(p: bv8, q: bv8, r: bv8, s: bv8)
    ensures MixedRow(p, q, r, s) == Add(Add(Xtime(p), Xtime(q)), Add(Sum4(p, q, r, s), p))
  {
    hide Add, Xtime;
    var xp, xq := Xtime(p), Xtime(q);
    var rest := Add(Add(q, r), s);
    AddLaws(p, q, r);
    AddLaws(p, Add(q, r), s);
    AddLaws(p, rest, p);
    AddLaws(rest, p, p);
    AddLaws(xp, xq, q);
    AddLaws(Add(xp, xq), q, r);
    AddLaws(Add(xp, xq), Add(q, r), s);
  }

  lemma PairOfRows(xp: bv8, xq: bv8, xr: bv8, t: bv8, p: bv8, q: bv8)
    ensures Add(Add(Add(xp, xq), Add(t, p)), Add(Add(xq, xr), Add(t, q))) == Add(Add(xp, xr), Add(p, q))
  {
    hide Add;
    Interchange(Add(xp, xq), Add(t, p), Add(xq, xr), Add(t, q));
    AddLaws(xp, xq, xr);
    AddLaws(t, p, q);
    AddLaws(p, t, q);
  }

  /** The sums that the gathered powers are taken of. */
  lemma MixedSums(a: bv8, b: bv8, c: bv8, d: bv8)
    ensures
      var xa, xb, xc, xd := Xtime(a), Xtime(b), Xtime(c), Xtime(d);
      var u0, u1, u2, u3 := MixedRow(a, b, c, d), MixedRow(b, c, d, a), MixedRow(c, d, a, b), MixedRow(d, a, b, c);
      && Sum4(u0, u1, u2, u3) == Sum4(a, b, c, d)
      && Add(u0, u2) == Add(Sum4(xa, xb, xc, xd), Add(a, c))
      && Add(u0, u1) == Add(Add(xa, xc), Add(a, b))
      && Add(Add(u1, u2), u3) == Add(Add(xa, xb), a)
  {
    hide Add, Xtime, MixedRow;
    var xa, xb, xc, xd := Xtime(a), Xtime(b), Xtime(c), Xtime(d);
    var u0, u1, u2, u3 := MixedRow(a, b, c, d), MixedRow(b, c, d, a), MixedRow(c, d, a, b), MixedRow(d, a, b, c);
    var t := Sum4(a, b, c, d);
    MixedRowForm(a, b, c, d);
    MixedRowForm(b, c, d, a);
    MixedRowForm(c, d, a, b);
    MixedRowForm(d, a, b, c);
    Turn4(a, b, c, d);
    PairOfRows(xa, xb, xc, t, a, b);
    PairOfRows(xc, xd, xa, t, c, d);
    Interchange(Add(xa, xb), Add(t, a), Add(xc, xd), Add(t, c));
    AddLaws(t, a, c);
    AddLaws(a, t, c);
    AddLaws(Add(xa, xb), xc, xd);
    Interchange(Add(xa, xc), Add(a, b), Add(xc, xa), Add(c, d));
    AddLaws(xa, xc, xa);
    AddLaws(xa, xa, xa);
    AddLaws(Add(a, b), c, d);
    AddLaws(t, 0, t);
    AddLaws(0, t, t);
    AddLaws(Add(u0, u1), u2, u3);
    AddLaws(u0, u1, u2);
    AddLaws(u0, Add(u1, u2), u3);
    AddLaws(u0, Add(Add(u1, u2), u3), u3);
    AddLaws(Add(xa, xb), Add(t, a), t);
    AddLaws(t, a, t);
    AddLaws(Add(t, a), t, t);
  }

  lemma PowersCancel(t3: bv8, ac2: bv8, xa: bv8, xb: bv8, a: bv8)
    ensures Sum4(t3, Add(t3, ac2), Add(ac2, Add(xa, xb)), Add(Add(xa, xb), a)) == a
  {}

  /** One row of {0e 0b 0d 09} times {02 03 01 01}: only the first byte remains. */
  lemma UnmixRow(a: bv8, b: bv8, c: bv8, d: bv8)
    ensures
      Sum4(GfMul(0x0e, MixedRow(a, b, c, d)), GfMul(0x0b, MixedRow(b, c, d, a)),
           GfMul(0x0d, MixedRow(c, d, a, b)), GfMul(0x09, MixedRow(d, a, b, c))) == a
  {
    hide Xtime, GfMul, Add;
    var xa, xb, xc, xd := Xtime(a), Xtime(b), Xtime(c), Xtime(d);
    var t, ac := Sum4(a, b, c, d), Add(a, c);
    UnmixByPowers(MixedRow(a, b, c, d), MixedRow(b, c, d, a), MixedRow(c, d, a, b), MixedRow(d, a, b, c));
    MixedSums(a, b, c, d);
    XtimeSum(a, b);
    XtimeSum(Add(a, b), c);
    XtimeSum(Add(Add(a, b), c), d);
    XtimeSum(a, c);
    TimesSum(Xtime(t), ac);
    XtimeSum(Xtime(ac), Add(a, b));
    PowersCancel(Times8(t), Times4(ac), xa, xb, a);
  }

  lemma MixRow(p: bv8, q: bv8, r: bv8, s: bv8)
    ensures Sum4(GfMul(0x02, p), GfMul(0x03, q), GfMul(0x01, r), GfMul(0x01, s)) == MixedRow(p, q, r, s)
  {
    hide Xtime, GfMul;
    MulSmall(p);
    MulSmall(q);
    MulSmall(r);
    MulSmall(s);
  }

  lemma MixColumnRows(w: Word)
    ensures PolyMul(MIX, w) ==
            Word(MixedRow(w.b0, w.b1, w.b2, w.b3), MixedRow(w.b1, w.b2, w.b3, w.b0),
                 MixedRow(w.b2, w.b3, w.b0, w.b1), MixedRow(w.b3, w.b0, w.b1, w.b2))
  {
    hide GfMul, Sum4, MixedRow;
    MixRow(w.b0, w.b1, w.b2, w.b3);
    MixRow(w.b1, w.b2, w.b3, w.b0);
    MixRow(w.b2, w.b3, w.b0, w.b1);
    MixRow(w.b3, w.b0, w.b1, w.b2);
    Turn4(GfMul(0x02, w.b1), GfMul(0x03, w.b2), GfMul(0x01, w.b3), GfMul(0x01, w.b0));
    Turn4(GfMul(0x02, w.b2), GfMul(0x03, w.b3), GfMul(0x01, w.b0), GfMul(0x01, w.b1));
    Turn4(GfMul(0x02, w.b3), GfMul(0x03, w.b0), GfMul(0x01, w.b1), GfMul(0x01, w.b2));
  }

  lemma UnmixColumn(w: Word)
    ensures PolyMul(UNMIX, PolyMul(MIX, w)) == w
  {
    var u := PolyMul(MIX, w);
    hide GfMul, Sum4, MixedRow;
    MixColumnRows(w);
    UnmixRow(w.b0, w.b1, w.b2, w.b3);
    UnmixRow(w.b1, w.b2, w.b3, w.b0);
    UnmixRow(w.b2, w.b3, w.b0, w.b1);
    UnmixRow(w.b3, w.b0, w.b1, w.b2);
    Turn4(GfMul(0x0e, u.b1), GfMul(0x0b, u.b2), GfMul(0x0d, u.b3), GfMul(0x09, u.b0));
    Turn4(GfMul(0x0e, u.b2), GfMul(0x0b, u.b3), GfMul(0x0d, u.b0), GfMul(0x09, u.b1));
    Turn4(GfMul(0x0e, u.b3), GfMul(0x0b, u.b0), GfMul(0x0d, u.b1), GfMul(0x09, u.b2));
  }

  lemma MixColumnsInverse(s: State)
    ensures InvMixColumns(MixColumns(s)) == s
  {
    hide PolyMul;
    UnmixColumn(s.c0);
    UnmixColumn(s.c1);
    UnmixColumn(s.c2);
    UnmixColumn(s.c3);
  }

  lemma RoundInverse(s: State, w: seq<Word>, n: nat)
    requires 4 * n + 4 <= |w|
    ensures UndoRound(Round(s, w, n), w, n) == s
  {
    hide AddRoundKey, MixColumns, InvMixColumns, SubBytes, InvSubBytes, ShiftRows, InvShiftRows;
    AddRoundKeyTwice(MixColumns(ShiftRows(SubBytes(s))), w, n);
    MixColumnsInverse(ShiftRows(SubBytes(s)));
    SubShiftInverse(s);
  }

  lemma {:induction false} RoundsInverse(s: State, w: seq<Word>, n: nat)
    requires 4 * n + 4 <= |w|
    ensures UndoRounds(Rounds(s, w, n), w, n) == s
  {
    hide AddRoundKey, Round, UndoRound;
    if n == 0 {
      AddRoundKeyTwice(s, w, 0);
    } else {
      RoundInverse(Rounds(s, w, n - 1), w, n);
      RoundsInverse(s, w, n - 1);
    }
  }

  lemma CipherStateInverse(s: State, w: seq<Word>)
    requires IsSchedule(w)
    ensures UncipherState(CipherState(s, w), w) == s
  {
    hide AddRoundKey, SubBytes, InvSubBytes, ShiftRows, InvShiftRows, Rounds, UndoRounds;
    var last := |w| / 4 - 1;
    var before := Rounds(s, w, last - 1);
    AddRoundKeyTwice(ShiftRows(SubBytes(before)), w, last);
    SubShiftInverse(before);
    RoundsInverse(s, w, last - 1);
  }

  lemma LoadStore(s: State)
    ensures Load(Store(s)) == s
  {}

  lemma StoreLoad(b: Block)
    ensures Store(Load(b)) == b
  {}

  /** Deciphering takes enciphering back, for every block and every schedule. */
  lemma CipherInverse(b: Block, w: seq<Word>)
    requires IsSchedule(w)
    ensures InvCipher(Cipher(b, w), w) == b
  {
    hide CipherState, UncipherState, Load, Store;
    LoadStore(CipherState(Load(b), w));
    CipherStateInverse(Load(b), w);
    StoreLoad(b);
  }

  /** No two blocks have the same image under one schedule. */
  lemma CipherInjective(a: Block, b: Block, w: seq<Word>)
    requires IsSchedule(w)
    requires a != b
    ensures Cipher(a, w) != Cipher(b, w)
  {
    hide Cipher, InvCipher;
    CipherInverse(a, w);
    CipherInverse(b, w);
  }
}
