/** The worked example of FIPS 197: the key schedule of Appendix A.1 and the encryption of Appendix B. */
module AesKnownAnswers {
  import opened AesField
  import opened Fips197

  const KEY: seq<Word> := [Word(0x2b, 0x7e, 0x15, 0x16), Word(0x28, 0xae, 0xd2, 0xa6), Word(0xab, 0xf7, 0x15, 0x88), Word(0x09, 0xcf, 0x4f, 0x3c)]

  // Round keys, words 4n to 4n + 3, as Appendix A.1 lists them.
  const KEY_0 := State(Word(0x2b, 0x7e, 0x15, 0x16), Word(0x28, 0xae, 0xd2, 0xa6), Word(0xab, 0xf7, 0x15, 0x88), Word(0x09, 0xcf, 0x4f, 0x3c))
  const KEY_1 := State(Word(0xa0, 0xfa, 0xfe, 0x17), Word(0x88, 0x54, 0x2c, 0xb1), Word(0x23, 0xa3, 0x39, 0x39), Word(0x2a, 0x6c, 0x76, 0x05))
  const KEY_2 := State(Word(0xf2, 0xc2, 0x95, 0xf2), Word(0x7a, 0x96, 0xb9, 0x43), Word(0x59, 0x35, 0x80, 0x7a), Word(0x73, 0x59, 0xf6, 0x7f))
  const KEY_3 := State(Word(0x3d, 0x80, 0x47, 0x7d), Word(0x47, 0x16, 0xfe, 0x3e), Word(0x1e, 0x23, 0x7e, 0x44), Word(0x6d, 0x7a, 0x88, 0x3b))
  const KEY_4 := State(Word(0xef, 0x44, 0xa5, 0x41), Word(0xa8, 0x52, 0x5b, 0x7f), Word(0xb6, 0x71, 0x25, 0x3b), Word(0xdb, 0x0b, 0xad, 0x00))
  const KEY_5 := State(Word(0xd4, 0xd1, 0xc6, 0xf8), Word(0x7c, 0x83, 0x9d, 0x87), Word(0xca, 0xf2, 0xb8, 0xbc), Word(0x11, 0xf9, 0x15, 0xbc))
  const KEY_6 := State(Word(0x6d, 0x88, 0xa3, 0x7a), Word(0x11, 0x0b, 0x3e, 0xfd), Word(0xdb, 0xf9, 0x86, 0x41), Word(0xca, 0x00, 0x93, 0xfd))
  const KEY_7 := State(Word(0x4e, 0x54, 0xf7, 0x0e), Word(0x5f, 0x5f, 0xc9, 0xf3), Word(0x84, 0xa6, 0x4f, 0xb2), Word(0x4e, 0xa6, 0xdc, 0x4f))
  const KEY_8 := State(Word(0xea, 0xd2, 0x73, 0x21), Word(0xb5, 0x8d, 0xba, 0xd2), Word(0x31, 0x2b, 0xf5, 0x60), Word(0x7f, 0x8d, 0x29, 0x2f))
  const KEY_9 := State(Word(0xac, 0x77, 0x66, 0xf3), Word(0x19, 0xfa, 0xdc, 0x21), Word(0x28, 0xd1, 0x29, 0x41), Word(0x57, 0x5c, 0x00, 0x6e))
  const KEY_10 := State(Word(0xd0, 0x14, 0xf9, 0xa8), Word(0xc9, 0xee, 0x25, 0x89), Word(0xe1, 0x3f, 0x0c, 0xc8), Word(0xb6, 0x63, 0x0c, 0xa6))

  // The state at the start of round n + 1, as Appendix B lists it.
  const START_0 := State(Word(0x19, 0x3d, 0xe3, 0xbe), Word(0xa0, 0xf4, 0xe2, 0x2b), Word(0x9a, 0xc6, 0x8d, 0x2a), Word(0xe9, 0xf8, 0x48, 0x08))
  const START_1 := State(Word(0xa4, 0x9c, 0x7f, 0xf2), Word(0x68, 0x9f, 0x35, 0x2b), Word(0x6b, 0x5b, 0xea, 0x43), Word(0x02, 0x6a, 0x50, 0x49))
  const START_2 := State(Word(0xaa, 0x8f, 0x5f, 0x03), Word(0x61, 0xdd, 0xe3, 0xef), Word(0x82, 0xd2, 0x4a, 0xd2), Word(0x68, 0x32, 0x46, 0x9a))
  const START_3 := State(Word(0x48, 0x6c, 0x4e, 0xee), Word(0x67, 0x1d, 0x9d, 0x0d), Word(0x4d, 0xe3, 0xb1, 0x38), Word(0xd6, 0x5f, 0x58, 0xe7))
  const START_4 := State(Word(0xe0, 0x92, 0x7f, 0xe8), Word(0xc8, 0x63, 0x63, 0xc0), Word(0xd9, 0xb1, 0x35, 0x50), Word(0x85, 0xb8, 0xbe, 0x01))
  const START_5 := State(Word(0xf1, 0x00, 0x6f, 0x55), Word(0xc1, 0x92, 0x4c, 0xef), Word(0x7c, 0xc8, 0x8b, 0x32), Word(0x5d, 0xb5, 0xd5, 0x0c))
  const START_6 := State(Word(0x26, 0x0e, 0x2e, 0x17), Word(0x3d, 0x41, 0xb7, 0x7d), Word(0xe8, 0x64, 0x72, 0xa9), Word(0xfd, 0xd2, 0x8b, 0x25))
  const START_7 := State(Word(0x5a, 0x41, 0x42, 0xb1), Word(0x19, 0x49, 0xdc, 0x1f), Word(0xa3, 0xe0, 0x19, 0x65), Word(0x7a, 0x8c, 0x04, 0x0c))
  const START_8 := State(Word(0xea, 0x83, 0x5c, 0xf0), Word(0x04, 0x45, 0x33, 0x2d), Word(0x65, 0x5d, 0x98, 0xad), Word(0x85, 0x96, 0xb0, 0xc5))
  const START_9 := State(Word(0xeb, 0x40, 0xf2, 0x1e), Word(0x59, 0x2e, 0x38, 0x84), Word(0x8b, 0xa1, 0x13, 0xe7), Word(0x1b, 0xc3, 0x42, 0xd2))

  function RoundKey(n: nat): State
    requires n <= 10
  {
    match n
    case 0 => KEY_0
    case 1 => KEY_1
    case 2 => KEY_2
    case 3 => KEY_3
    case 4 => KEY_4
    case 5 => KEY_5
    case 6 => KEY_6
    case 7 => KEY_7
    case 8 => KEY_8
    case 9 => KEY_9
    case _ => KEY_10
  }

  function StartOfRound(n: nat): State
    requires n <= 9
  {
    match n
    case 0 => START_0
    case 1 => START_1
    case 2 => START_2
    case 3 => START_3
    case 4 => START_4
    case 5 => START_5
    case 6 => START_6
    case 7 => START_7
    case 8 => START_8
    case _ => START_9
  }

  /** The four words of the key schedule from word 4n on. */
  function FourWords(n: nat): State
  {
    State(KeyWord(KEY, 4 * n), KeyWord(KEY, 4 * n + 1), KeyWord(KEY, 4 * n + 2), KeyWord(KEY, 4 * n + 3))
  }

  /** The next round key, by the recurrence of section 5.2. */
  function NextKey(k: State, power: bv8): State
  {
    var c0 := AddWord(k.c0, AddWord(SubWord(RotWord(k.c3)), Word(power, 0, 0, 0)));
    var c1 := AddWord(k.c1, c0);
    var c2 := AddWord(k.c2, c1);
    State(c0, c1, c2, AddWord(k.c3, c2))
  }

  lemma OneWord(i: nat)
    requires i >= 4
    ensures
      var prev := KeyWord(KEY, i - 1);
      KeyWord(KEY, i) ==
      AddWord(KeyWord(KEY, i - 4), if i % 4 == 0 then AddWord(SubWord(RotWord(prev)), Word(PowerOf2(i / 4), 0, 0, 0)) else prev)
  {
    hide AddWord, SubWord, RotWord, PowerOf2;
  }

  lemma NextFour(n: nat)
    requires n > 0
    ensures FourWords(n) == NextKey(FourWords(n - 1), PowerOf2(n))
  {
    hide KeyWord, AddWord, SubWord, RotWord, PowerOf2;
    OneWord(4 * n);
    OneWord(4 * n + 1);
    OneWord(4 * n + 2);
    OneWord(4 * n + 3);
    AddBoth(KeyWord(KEY, 4 * n - 3), KeyWord(KEY, 4 * n));
    AddBoth(KeyWord(KEY, 4 * n - 2), KeyWord(KEY, 4 * n + 1));
    AddBoth(KeyWord(KEY, 4 * n - 1), KeyWord(KEY, 4 * n + 2));
  }

  lemma AddBoth(v: Word, w: Word)
    ensures AddWord(v, w) == AddWord(w, v)
  {}

  lemma Key1()
    ensures NextKey(KEY_0, 0x01) == KEY_1
  {}

  lemma Key2()
    ensures NextKey(KEY_1, 0x02) == KEY_2
  {}

  lemma Key3()
    ensures NextKey(KEY_2, 0x04) == KEY_3
  {}

  lemma Key4()
    ensures NextKey(KEY_3, 0x08) == KEY_4
  {}

  lemma Key5()
    ensures NextKey(KEY_4, 0x10) == KEY_5
  {}

  lemma Key6()
    ensures NextKey(KEY_5, 0x20) == KEY_6
  {}

  lemma Key7()
    ensures NextKey(KEY_6, 0x40) == KEY_7
  {}

  lemma Key8()
    ensures NextKey(KEY_7, 0x80) == KEY_8
  {}

  lemma Key9()
    ensures NextKey(KEY_8, 0x1b) == KEY_9
  {}

  lemma Key10()
    ensures NextKey(KEY_9, 0x36) == KEY_10
  {}

  lemma Powers()
    ensures PowerOf2(1) == 0x01 && PowerOf2(2) == 0x02 && PowerOf2(3) == 0x04 && PowerOf2(4) == 0x08 && PowerOf2(5) == 0x10 && PowerOf2(6) == 0x20 && PowerOf2(7) == 0x40 && PowerOf2(8) == 0x80 && PowerOf2(9) == 0x1b && PowerOf2(10) == 0x36
  {}

  lemma FirstKey()
    ensures FourWords(0) == KEY_0
  {
    hide AddWord, Mixed;
  }

  /** Appendix A.1. */
  lemma {:induction false} KeyExpansionExample(n: nat)
    requires n <= 10
    ensures FourWords(n) == RoundKey(n)
  {
    hide NextKey, FourWords, PowerOf2;
    if n == 0 {
      FirstKey();
    } else {
      KeyExpansionExample(n - 1);
      NextFour(n);
      Powers();
      match n
      case 1 => Key1();
      case 2 => Key2();
      case 3 => Key3();
      case 4 => Key4();
      case 5 => Key5();
      case 6 => Key6();
      case 7 => Key7();
      case 8 => Key8();
      case 9 => Key9();
      case _ => Key10();
    }
  }

  /** MixColumns on one column, by doubling: section 4.3 of FIPS 197 written out. */
  function Mixed4(v: Word): Word
  {
    Word(Sum4(Xtime(v.b0), Add(Xtime(v.b1), v.b1), v.b2, v.b3), Sum4(v.b0, Xtime(v.b1), Add(Xtime(v.b2), v.b2), v.b3),
         Sum4(v.b0, v.b1, Xtime(v.b2), Add(Xtime(v.b3), v.b3)), Sum4(Add(Xtime(v.b0), v.b0), v.b1, v.b2, Xtime(v.b3)))
  }

  lemma MixIs(v: Word)
    ensures PolyMul(MIX, v) == Mixed4(v)
  {
    hide GfMul, Xtime, Add;
    MulSmall(v.b0);
    MulSmall(v.b1);
    MulSmall(v.b2);
    MulSmall(v.b3);
  }

  function AddKey(s: State, k: State): State
  {
    State(AddWord(s.c0, k.c0), AddWord(s.c1, k.c1), AddWord(s.c2, k.c2), AddWord(s.c3, k.c3))
  }

  function MixedState(s: State): State
  {
    State(Mixed4(s.c0), Mixed4(s.c1), Mixed4(s.c2), Mixed4(s.c3))
  }

  lemma MixedStateIs(s: State)
    ensures MixColumns(s) == MixedState(s)
  {
    hide PolyMul, Mixed4;
    MixIs(s.c0);
    MixIs(s.c1);
    MixIs(s.c2);
    MixIs(s.c3);
  }

  lemma Round1()
    ensures AddKey(MixedState(ShiftRows(SubBytes(START_0))), KEY_1) == START_1
  {}

  lemma Round2()
    ensures AddKey(MixedState(ShiftRows(SubBytes(START_1))), KEY_2) == START_2
  {}

  lemma Round3()
    ensures AddKey(MixedState(ShiftRows(SubBytes(START_2))), KEY_3) == START_3
  {}

  lemma Round4()
    ensures AddKey(MixedState(ShiftRows(SubBytes(START_3))), KEY_4) == START_4
  {}

  lemma Round5()
    ensures AddKey(MixedState(ShiftRows(SubBytes(START_4))), KEY_5) == START_5
  {}

  lemma Round6()
    ensures AddKey(MixedState(ShiftRows(SubBytes(START_5))), KEY_6) == START_6
  {}

  lemma Round7()
    ensures AddKey(MixedState(ShiftRows(SubBytes(START_6))), KEY_7) == START_7
  {}

  lemma Round8()
    ensures AddKey(MixedState(ShiftRows(SubBytes(START_7))), KEY_8) == START_8
  {}

  lemma Round9()
    ensures AddKey(MixedState(ShiftRows(SubBytes(START_8))), KEY_9) == START_9
  {}

  const PLAIN: Block := [0x32, 0x43, 0xf6, 0xa8, 0x88, 0x5a, 0x30, 0x8d, 0x31, 0x31, 0x98, 0xa2, 0xe0, 0x37, 0x07, 0x34]
  const RESULT: Block := [0x39, 0x25, 0x84, 0x1d, 0x02, 0xdc, 0x09, 0xfb, 0xdc, 0x11, 0x85, 0x97, 0x19, 0x6a, 0x0b, 0x32]

  lemma FirstAndLast()
    ensures AddKey(Load(PLAIN), KEY_0) == START_0
    ensures Store(AddKey(ShiftRows(SubBytes(START_9)), KEY_10)) == RESULT
  {}

  lemma ScheduleKeys(n: nat)
    requires n <= 10
    ensures
      var w := KeySchedule(KEY);
      |w| == 44 && State(w[4 * n], w[4 * n + 1], w[4 * n + 2], w[4 * n + 3]) == RoundKey(n)
  {
    KeyExpansionExample(n);
    hide KeyWord, RoundKey;
  }

  lemma {:induction false} RoundsExample(n: nat)
    requires n <= 9
    ensures |KeySchedule(KEY)| == 44 && Rounds(Load(PLAIN), KeySchedule(KEY), n) == StartOfRound(n)
  {
    hide KeySchedule, Load, SubBytes, ShiftRows, MixColumns, MixedState, AddWord;
    ScheduleKeys(n);
    if n == 0 {
      FirstAndLast();
    } else {
      RoundsExample(n - 1);
      MixedStateIs(ShiftRows(SubBytes(StartOfRound(n - 1))));
      match n
      case 1 => Round1();
      case 2 => Round2();
      case 3 => Round3();
      case 4 => Round4();
      case 5 => Round5();
      case 6 => Round6();
      case 7 => Round7();
      case 8 => Round8();
      case _ => Round9();
    }
  }

  /** Appendix B. */
  lemma CipherExample()
    ensures Cipher(PLAIN, KeySchedule(KEY)) == RESULT
  {
    hide KeySchedule, Load, Store, SubBytes, ShiftRows, AddWord, Rounds;
    RoundsExample(9);
    ScheduleKeys(10);
    FirstAndLast();
  }
}
