/**
 One-time passwords of pkg/goauth/goauth.go: what one attempt does (RFC 4226, RFC 6238), and what
 that means over any sequence of attempts. codeAt stands for ComputeCode with the secret.
 */
module Otp {
  import opened Basics

  datatype Config = Config(codeAt: int -> int, windowSize: int)

  /** reuse is DisallowReuse, None for nil. */
  datatype State = State(counter: int, reuse: Option<seq<int>>, scratch: seq<int>)

  datatype Verdict =
    | Malformed
    | Rejected
    | ScratchUsed(code: int)
    | Position(at: int)
    | TimeStep(t: int)

  // ----- passwords -----

  predicate ForApp(password: string)
  {
    |password| == 6 && IsDigit(password[0])
  }

  predicate ForScratch(password: string)
  {
    |password| == 8 && '1' <= password[0] <= '9'
  }

  // ----- counter-based codes -----

  /** The first position from i on, below the window's end, that has the code. */
  function FirstPosition(cfg: Config, from: int, code: int, i: nat): (r: Option<int>)
    ensures r.Some? ==> from + i <= r.value < from + cfg.windowSize && cfg.codeAt(r.value) == code
    ensures r.Some? ==> forall p :: from + i <= p < r.value ==> cfg.codeAt(p) != code
    ensures r.None? ==> forall p :: from + i <= p < from + cfg.windowSize ==> cfg.codeAt(p) != code
    decreases cfg.windowSize - i
  {
    if i >= cfg.windowSize then None
    else if cfg.codeAt(from + i) == code then Some(from + i)
    else FirstPosition(cfg, from, code, i + 1)
  }

  /** checkHotpCode. */
  function Hotp(cfg: Config, s: State, code: int): (State, Verdict)
  {
    var p := FirstPosition(cfg, s.counter, code, 0);
    if p.Some? then (s.(counter := p.value + 1), Position(p.value)) else (s.(counter := s.counter + 1), Rejected)
  }

  // ----- time-based codes -----

  /** Division by 2 as Go does it, towards zero. */
  function Half(w: int): int
  {
    if w >= 0 then w / 2 else -((-w) / 2)
  }

  function FirstTime(cfg: Config, code: int, t: int, maxT: int): (r: Option<int>)
    ensures r.Some? ==> t <= r.value <= maxT && cfg.codeAt(r.value) == code
    ensures r.Some? ==> forall p :: t <= p < r.value ==> cfg.codeAt(p) != code
    ensures r.None? ==> forall p :: t <= p <= maxT ==> cfg.codeAt(p) != code
    decreases maxT - t
  {
    if t > maxT then None
    else if cfg.codeAt(t) == code then Some(t)
    else FirstTime(cfg, code, t + 1, maxT)
  }

  predicate Sorted(s: seq<int>)
  {
    forall i, j :: 0 <= i < j < |s| ==> s[i] <= s[j]
  }

  predicate Increasing(s: seq<int>)
  {
    forall i, j :: 0 <= i < j < |s| ==> s[i] < s[j]
  }

  function Insert(s: seq<int>, x: int): seq<int>
  {
    if s == [] then [x]
    else if s[|s| - 1] <= x then s + [x]
    else Insert(s[..|s| - 1], x) + [s[|s| - 1]]
  }

  /** sort.Ints. */
  function Sort(s: seq<int>): seq<int>
  {
    if s == [] then [] else Insert(Sort(s[..|s| - 1]), s[|s| - 1])
  }

  lemma {:induction false} InsertAdds(s: seq<int>, x: int)
    ensures multiset(Insert(s, x)) == multiset(s) + multiset{x}
  {
    if s == [] || s[|s| - 1] <= x {
    } else {
      InsertAdds(s[..|s| - 1], x);
      assert s == s[..|s| - 1] + [s[|s| - 1]];
    }
  }

  lemma {:induction false} InsertSorts(s: seq<int>, x: int)
    requires Sorted(s)
    ensures Sorted(Insert(s, x)) && (s != [] && s[|s| - 1] > x ==> Insert(s, x)[|Insert(s, x)| - 1] == s[|s| - 1])
    ensures Insert(s, x) != [] && forall i :: 0 <= i < |Insert(s, x)| ==> Insert(s, x)[i] <= x || (s != [] && Insert(s, x)[i] <= s[|s| - 1])
  {
    if s == [] || s[|s| - 1] <= x {
    } else {
      InsertSorts(s[..|s| - 1], x);
    }
  }

  lemma {:induction false} SortSorts(s: seq<int>)
    ensures Sorted(Sort(s)) && multiset(Sort(s)) == multiset(s)
  {
    if s == [] {
    } else {
      SortSorts(s[..|s| - 1]);
      InsertSorts(Sort(s[..|s| - 1]), s[|s| - 1]);
      InsertAdds(Sort(s[..|s| - 1]), s[|s| - 1]);
      assert s == s[..|s| - 1] + [s[|s| - 1]];
    }
  }

  /** The list without the first entries that are below minT. */
  function Trim(s: seq<int>, minT: int): seq<int>
  {
    if s == [] || s[0] >= minT then s else Trim(s[1..], minT)
  }

  predicate CutAt(s: seq<int>, minT: int, m: nat)
  {
    m <= |s| && (m < |s| ==> s[m] >= minT) && forall i :: 0 <= i < m ==> s[i] < minT
  }

  /** Of a sorted list just the entries from some place on are left. */
  lemma {:induction false} TrimCuts(s: seq<int>, minT: int) returns (m: nat)
    ensures CutAt(s, minT, m) && Trim(s, minT) == s[m..]
  {
    if s == [] || s[0] >= minT {
      m := 0;
      assert s[0..] == s;
    } else {
      var k := TrimCuts(s[1..], minT);
      m := k + 1;
      CutMore(s, minT, k);
      assert s[1..][k..] == s[m..];
    }
  }

  lemma CutMore(s: seq<int>, minT: int, k: nat)
    requires s != [] && s[0] < minT && CutAt(s[1..], minT, k)
    ensures CutAt(s, minT, k + 1)
  {
    forall i | 0 <= i < k + 1
      ensures s[i] < minT
    {
      assert i > 0 ==> s[1..][i - 1] == s[i];
    }
  }

  lemma TrimKeeps(s: seq<int>, minT: int)
    requires Sorted(s)
    ensures forall x :: x in Trim(s, minT) <==> x in s && x >= minT
  {
    var m := TrimCuts(s, minT);
    assert s == s[..m] + s[m..];
  }

  /** checkTotpCode: a time step in the list is refused, without a look at later steps with the same code. */
  function Totp(cfg: Config, s: State, t0: int, code: int): (State, Verdict)
  {
    var minT, maxT := t0 - Half(cfg.windowSize), t0 + Half(cfg.windowSize);
    var t := FirstTime(cfg, code, minT, maxT);
    if t.None? then (s, Rejected)
    else if s.reuse.None? then (s, TimeStep(t.value))
    else if t.value in s.reuse.value then (s, Rejected)
    else (s.(reuse := Some(Trim(Sort(s.reuse.value + [t.value]), minT))), TimeStep(t.value))
  }

  // ----- scratch codes -----

  function IndexOf(s: seq<int>, x: int, i: nat): (r: Option<nat>)
    requires i <= |s|
    ensures r.Some? ==> i <= r.value < |s| && s[r.value] == x && x !in s[i..r.value]
    ensures r.None? ==> x !in s[i..]
    decreases |s| - i
  {
    if i == |s| then None else if s[i] == x then Some(i) else IndexOf(s, x, i + 1)
  }

  /** The last element takes the place of the one that was used. */
  function Without(s: seq<int>, i: nat): seq<int>
    requires i < |s|
  {
    s[i := s[|s| - 1]][..|s| - 1]
  }

  lemma WithoutOne(s: seq<int>, i: nat)
    requires i < |s|
    ensures multiset(Without(s, i)) + multiset{s[i]} == multiset(s)
  {
    var n := |s| - 1;
    assert s == s[..n] + [s[n]];
    if i < n {
      assert s[..n] == s[..i] + [s[i]] + s[i + 1..n];
      assert Without(s, i) == s[..i] + [s[n]] + s[i + 1..n];
    } else {
      assert Without(s, i) == s[..n];
    }
  }

  /** checkScratchCodes. */
  function Scratch(s: State, code: int): (State, Verdict)
  {
    var i := IndexOf(s.scratch, code, 0);
    if i.None? then (s, Rejected) else (s.(scratch := Without(s.scratch, i.value)), ScratchUsed(code))
  }

  // ----- one attempt -----

  datatype Attempt = Attempt(password: string, t0: int)

  /** Authenticate, at time step t0. */
  function Authenticate(cfg: Config, s: State, a: Attempt): (State, Verdict)
  {
    if !ForApp(a.password) && !ForScratch(a.password) then (s, Malformed)
    else if Digits(a.password).None? then (s, Malformed)
    else
      var code := Digits(a.password).value;
      if ForScratch(a.password) then Scratch(s, code)
      else if s.counter > 0 then Hotp(cfg, s, code)
      else Totp(cfg, s, a.t0, code)
  }

  // ----- when a password is accepted -----

  /** Six digits, or eight of which the first is not a zero. */
  predicate WellFormed(password: string)
  {
    (|password| == 6 || (|password| == 8 && password[0] != '0')) && forall i :: 0 <= i < |password| ==> IsDigit(password[i])
  }

  /** Step or position t is the first from lo on, up to hi, that has the code. */
  ghost predicate FirstWith(cfg: Config, code: int, lo: int, hi: int, t: int)
  {
    lo <= t <= hi && cfg.codeAt(t) == code && forall p :: lo <= p < t ==> cfg.codeAt(p) != code
  }

  /** Division towards zero. */
  lemma HalfIs(w: int)
    ensures w >= 0 ==> w - 1 <= 2 * Half(w) <= w
    ensures w < 0 ==> w <= 2 * Half(w) <= w + 1
  {}

  /** An eight-digit code is accepted exactly when it is among the scratch codes, and one copy of it is taken out then. */
  ghost predicate ScratchAnswered(s: State, code: int, s': State, ok: bool)
  {
    && (ok <==> code in s.scratch) && s'.counter == s.counter && s'.reuse == s.reuse
    && (if ok then multiset(s'.scratch) + multiset{code} == multiset(s.scratch) else s'.scratch == s.scratch)
  }

  /** A counter-based code is accepted exactly when a position of the window has it; the counter passes the first, or one. */
  ghost predicate CounterAnswered(cfg: Config, s: State, code: int, s': State, ok: bool)
  {
    var last := s.counter + cfg.windowSize - 1;
    && (ok <==> exists p :: FirstWith(cfg, code, s.counter, last, p))
    && s'.reuse == s.reuse && s'.scratch == s.scratch
    && (if ok then FirstWith(cfg, code, s.counter, last, s'.counter - 1) else s'.counter == s.counter + 1)
  }

  /**
   A time-based code is accepted exactly when a step of the window has it and the first such step is
   not in the list, if there is one; that step goes into the list, and what is below the window out of it.
   */
  ghost predicate TimeAnswered(cfg: Config, s: State, t0: int, code: int, s': State, ok: bool)
  {
    var lo, hi := t0 - Half(cfg.windowSize), t0 + Half(cfg.windowSize);
    && (ok <==> exists t :: FirstWith(cfg, code, lo, hi, t) && (s.reuse.None? || t !in s.reuse.value))
    && s'.counter == s.counter && s'.scratch == s.scratch
    && (!ok || s.reuse.None? ==> s'.reuse == s.reuse)
    && (ok && s.reuse.Some? ==>
          && s'.reuse.Some? && Sorted(s'.reuse.value)
          && forall t, x :: FirstWith(cfg, code, lo, hi, t) ==>
                              (x in s'.reuse.value <==> (x in s.reuse.value || x == t) && x >= lo))
  }

  /** What Authenticate answers; None for a password that is not well formed. */
  ghost predicate Answered(cfg: Config, s: State, password: string, t0: int, s': State, r: Option<bool>)
  {
    && (r.None? <==> !WellFormed(password))
    && (r.None? ==> s' == s)
    && (r.Some? && Digits(password).Some? ==>
          var code := Digits(password).value;
          if |password| == 8 then ScratchAnswered(s, code, s', r.value)
          else if s.counter > 0 then CounterAnswered(cfg, s, code, s', r.value)
          else TimeAnswered(cfg, s, t0, code, s', r.value))
  }

  lemma ScratchAnswers(s: State, code: int)
    ensures ScratchAnswered(s, code, Scratch(s, code).0, Scratch(s, code).1 != Rejected)
  {
    var i := IndexOf(s.scratch, code, 0);
    assert s.scratch[0..] == s.scratch;
    if i.Some? {
      WithoutOne(s.scratch, i.value);
    }
  }

  lemma CounterAnswers(cfg: Config, s: State, code: int)
    ensures CounterAnswered(cfg, s, code, Hotp(cfg, s, code).0, Hotp(cfg, s, code).1 != Rejected)
  {
    var p := FirstPosition(cfg, s.counter, code, 0);
    if p.Some? {
      assert FirstWith(cfg, code, s.counter, s.counter + cfg.windowSize - 1, p.value);
    }
  }

  lemma TimeAnswers(cfg: Config, s: State, t0: int, code: int)
    ensures TimeAnswered(cfg, s, t0, code, Totp(cfg, s, t0, code).0, Totp(cfg, s, t0, code).1 != Rejected)
  {
    var lo, hi := t0 - Half(cfg.windowSize), t0 + Half(cfg.windowSize);
    var first := FirstTime(cfg, code, lo, hi);
    if first.Some? {
      assert FirstWith(cfg, code, lo, hi, first.value);
      OnlyFirst(cfg, code, lo, hi, first.value);
      if s.reuse.Some? && first.value !in s.reuse.value {
        NewList(s.reuse.value, first.value, lo);
      }
    }
    hide FirstTime, Sort, Trim, Half;
  }

  lemma OnlyFirst(cfg: Config, code: int, lo: int, hi: int, t: int)
    requires FirstWith(cfg, code, lo, hi, t)
    ensures forall u :: FirstWith(cfg, code, lo, hi, u) ==> u == t
  {}

  /** The list with one step more, in order, and without what is below the window. */
  lemma NewList(list: seq<int>, t: int, lo: int)
    ensures Sorted(Trim(Sort(list + [t]), lo))
    ensures forall x :: x in Trim(Sort(list + [t]), lo) <==> (x in list || x == t) && x >= lo
  {
    SortSorts(list + [t]);
    SortMembers(list, t);
    TrimKeeps(Sort(list + [t]), lo);
    var m := TrimCuts(Sort(list + [t]), lo);
  }

  /** Authenticate answers as said. */
  lemma Answers(cfg: Config, s: State, a: Attempt)
    ensures
      var (s', v) := Authenticate(cfg, s, a);
      Answered(cfg, s, a.password, a.t0, s', if v.Malformed? then None else Some(!v.Rejected?))
  {
    assert WellFormed(a.password) <==> (ForApp(a.password) || ForScratch(a.password)) && Digits(a.password).Some?;
    if WellFormed(a.password) {
      var code := Digits(a.password).value;
      ScratchAnswers(s, code);
      CounterAnswers(cfg, s, code);
      TimeAnswers(cfg, s, a.t0, code);
    }
    hide ScratchAnswered, CounterAnswered, TimeAnswered;
  }

  /** The state after the first attempts. */
  function After(cfg: Config, s: State, attempts: seq<Attempt>): State
  {
    if attempts == [] then s
    else Authenticate(cfg, After(cfg, s, attempts[..|attempts| - 1]), attempts[|attempts| - 1]).0
  }

  /** The verdict on attempt i. */
  function VerdictOn(cfg: Config, s: State, attempts: seq<Attempt>, i: nat): Verdict
    requires i < |attempts|
  {
    Authenticate(cfg, After(cfg, s, attempts[..i]), attempts[i]).1
  }

  lemma AfterMore(cfg: Config, s: State, attempts: seq<Attempt>, i: nat)
    requires i < |attempts|
    ensures After(cfg, s, attempts[..i + 1]) == Authenticate(cfg, After(cfg, s, attempts[..i]), attempts[i]).0
  {
    hide Authenticate;
    assert attempts[..i + 1][..i] == attempts[..i];
  }

  lemma AfterNone(cfg: Config, s: State, attempts: seq<Attempt>)
    ensures After(cfg, s, attempts[..0]) == s
  {}

  // ----- counter mode over many attempts -----

  lemma CounterNeverFalls(cfg: Config, s: State, a: Attempt)
    ensures Authenticate(cfg, s, a).0.counter >= s.counter
    ensures s.counter <= 0 ==> Authenticate(cfg, s, a).0.counter == s.counter
  {}

  /** Whoever starts with a counter keeps one, and whoever has none never gets one. */
  lemma {:induction false} ModeStays(cfg: Config, s: State, attempts: seq<Attempt>, i: nat)
    requires i <= |attempts|
    ensures After(cfg, s, attempts[..i]).counter >= s.counter
    ensures s.counter <= 0 ==> After(cfg, s, attempts[..i]).counter == s.counter
  {
    hide Authenticate, After;
    if i == 0 {
      AfterNone(cfg, s, attempts);
    } else {
      ModeStays(cfg, s, attempts, i - 1);
      AfterMore(cfg, s, attempts, i - 1);
      CounterNeverFalls(cfg, After(cfg, s, attempts[..i - 1]), attempts[i - 1]);
    }
  }

  predicate Tried(cfg: Config, s: State, a: Attempt)
  {
    ForApp(a.password) && Digits(a.password).Some? && s.counter > 0
  }

  /** Every well-formed attempt in counter mode moves the counter, past the position it accepted. */
  lemma CounterAdvances(cfg: Config, s: State, a: Attempt)
    requires Tried(cfg, s, a)
    ensures Authenticate(cfg, s, a).0.counter > s.counter
    ensures Authenticate(cfg, s, a).1.Position? ==> s.counter <= Authenticate(cfg, s, a).1.at < Authenticate(cfg, s, a).0.counter
  {}

  /** Accepted positions strictly increase, so none is accepted twice. */
  lemma PositionsIncrease(cfg: Config, s: State, attempts: seq<Attempt>, i: nat, j: nat)
    requires i < j < |attempts|
    requires VerdictOn(cfg, s, attempts, i).Position? && VerdictOn(cfg, s, attempts, j).Position?
    ensures VerdictOn(cfg, s, attempts, i).at < VerdictOn(cfg, s, attempts, j).at
  {
    AfterMore(cfg, s, attempts, i);
    CounterGrows(cfg, s, attempts, i + 1, j);
  }

  lemma {:induction false} CounterGrows(cfg: Config, s: State, attempts: seq<Attempt>, i: nat, j: nat)
    requires i <= j <= |attempts|
    ensures After(cfg, s, attempts[..i]).counter <= After(cfg, s, attempts[..j]).counter
  {
    hide Authenticate, After;
    if i == j {
    } else {
      CounterGrows(cfg, s, attempts, i, j - 1);
      AfterMore(cfg, s, attempts, j - 1);
      CounterNeverFalls(cfg, After(cfg, s, attempts[..j - 1]), attempts[j - 1]);
    }
  }

  // ----- scratch codes over many attempts -----

  function Uses(cfg: Config, s: State, attempts: seq<Attempt>, code: int, n: nat): nat
    requires n <= |attempts|
  {
    if n == 0 then 0
    else Uses(cfg, s, attempts, code, n - 1) + if VerdictOn(cfg, s, attempts, n - 1) == ScratchUsed(code) then 1 else 0
  }

  /** Each use takes one copy of the code away, and nothing else does. */
  lemma {:induction false} ScratchCodesAreSpent(cfg: Config, s: State, attempts: seq<Attempt>, code: int, n: nat)
    requires n <= |attempts|
    ensures Uses(cfg, s, attempts, code, n) + multiset(After(cfg, s, attempts[..n]).scratch)[code] == multiset(s.scratch)[code]
  {
    if n == 0 {
    } else {
      ScratchCodesAreSpent(cfg, s, attempts, code, n - 1);
      AfterMore(cfg, s, attempts, n - 1);
      var before := After(cfg, s, attempts[..n - 1]);
      ScratchOnce(cfg, before, attempts[n - 1], code);
    }
  }

  lemma ScratchOnce(cfg: Config, s: State, a: Attempt, code: int)
    ensures
      var (s', v) := Authenticate(cfg, s, a);
      multiset(s'.scratch)[code] + (if v == ScratchUsed(code) then 1 else 0) == multiset(s.scratch)[code]
  {
    if ForScratch(a.password) && Digits(a.password).Some? {
      var i := IndexOf(s.scratch, Digits(a.password).value, 0);
      if i.Some? {
        WithoutOne(s.scratch, i.value);
      }
    }
  }

  // ----- time-based codes over many attempts -----

  /** What one accepted time step does to the list. */
  lemma TimeStepRecorded(cfg: Config, s: State, t0: int, code: int)
    requires s.reuse.Some? && Totp(cfg, s, t0, code).1.TimeStep?
    ensures
      var (s', v) := Totp(cfg, s, t0, code);
      var minT := t0 - Half(cfg.windowSize);
      && s'.reuse.Some? && minT <= v.t <= t0 + Half(cfg.windowSize) && v.t !in s.reuse.value
      && (forall x :: x in s'.reuse.value <==> (x in s.reuse.value || x == v.t) && x >= minT)
      && (Increasing(s.reuse.value) ==> Increasing(s'.reuse.value))
  {
    var list, t := s.reuse.value, Totp(cfg, s, t0, code).1.t;
    var minT := t0 - Half(cfg.windowSize);
    assert Totp(cfg, s, t0, code).0.reuse == Some(Trim(Sort(list + [t]), minT));
    hide Sort, Trim, FirstTime, Half;
    SortSorts(list + [t]);
    TrimKeeps(Sort(list + [t]), minT);
    SortMembers(list, t);
    if Increasing(list) {
      SortedDistinct(list, t);
      TrimIncreasing(Sort(list + [t]), minT);
    }
  }

  lemma SortMembers(list: seq<int>, t: int)
    ensures forall x :: x in Sort(list + [t]) <==> x in list || x == t
  {
    SortSorts(list + [t]);
    forall x
      ensures x in Sort(list + [t]) <==> x in list || x == t
    {
      assert x in multiset(Sort(list + [t])) <==> x in multiset(list + [t]);
    }
  }

  lemma {:induction false} TrimIncreasing(s: seq<int>, minT: int)
    requires Increasing(s)
    ensures Increasing(Trim(s, minT))
  {
    if s == [] || s[0] >= minT {
    } else {
      TrimIncreasing(s[1..], minT);
    }
  }

  lemma SortedDistinct(list: seq<int>, t: int)
    requires Increasing(list) && t !in list
    ensures Increasing(Sort(list + [t]))
  {
    var s := Sort(list + [t]);
    SortSorts(list + [t]);
    forall i, j | 0 <= i < j < |s|
      ensures s[i] < s[j]
    {
      assert s[i] <= s[j];
      if s[i] == s[j] {
        Twice(s, i, j);
        Once(list, t, s[i]);
      }
    }
  }

  lemma Twice(s: seq<int>, i: nat, j: nat)
    requires i < j < |s| && s[i] == s[j]
    ensures multiset(s)[s[i]] >= 2
  {
    assert s == s[..i] + [s[i]] + s[i + 1..j] + [s[j]] + s[j + 1..];
  }

  lemma Once(list: seq<int>, t: int, x: int)
    requires Increasing(list) && t !in list
    ensures multiset(list + [t])[x] <= 1
  {
    OnceIn(list, x);
    assert x in list <==> x in multiset(list);
  }

  lemma {:induction false} OnceIn(list: seq<int>, x: int)
    requires Increasing(list)
    ensures multiset(list)[x] <= 1
  {
    if list == [] {
    } else {
      var n := |list| - 1;
      OnceIn(list[..n], x);
      assert list == list[..n] + [list[n]];
      assert list[n] !in list[..n];
    }
  }

  lemma ReuseStays(cfg: Config, s: State, a: Attempt)
    requires s.reuse.Some?
    ensures Authenticate(cfg, s, a).0.reuse.Some?
    ensures !Authenticate(cfg, s, a).1.TimeStep? ==> Authenticate(cfg, s, a).0.reuse == s.reuse
    ensures Authenticate(cfg, s, a).1.TimeStep? ==>
              Digits(a.password).Some? && Authenticate(cfg, s, a) == Totp(cfg, s, a.t0, Digits(a.password).value)
  {}

  lemma {:induction false} ListStays(cfg: Config, s: State, attempts: seq<Attempt>, n: nat)
    requires s.reuse.Some? && n <= |attempts|
    ensures After(cfg, s, attempts[..n]).reuse.Some?
    ensures Increasing(s.reuse.value) ==> Increasing(After(cfg, s, attempts[..n]).reuse.value)
  {
    hide Authenticate, Totp, After, Digits;
    if n == 0 {
      AfterNone(cfg, s, attempts);
    } else {
      ListStays(cfg, s, attempts, n - 1);
      AfterMore(cfg, s, attempts, n - 1);
      var before, a := After(cfg, s, attempts[..n - 1]), attempts[n - 1];
      ReuseStays(cfg, before, a);
      if Authenticate(cfg, before, a).1.TimeStep? {
        TimeStepRecorded(cfg, before, a.t0, Digits(a.password).value);
      }
    }
  }

  /** The first step of an attempt's window. */
  function WindowStart(cfg: Config, a: Attempt): int
  {
    a.t0 - Half(cfg.windowSize)
  }

  /** The list after the first n attempts. */
  function ListAfter(cfg: Config, s: State, attempts: seq<Attempt>, n: nat): seq<int>
    requires s.reuse.Some? && n <= |attempts|
  {
    ListStays(cfg, s, attempts, n);
    After(cfg, s, attempts[..n]).reuse.value
  }

  /** How attempt n changes the list: only an accepted step does, and it drops what is below its window. */
  lemma ListStep(cfg: Config, s: State, attempts: seq<Attempt>, n: nat, t: int)
    requires s.reuse.Some? && n < |attempts|
    ensures
      var v := VerdictOn(cfg, s, attempts, n);
      t in ListAfter(cfg, s, attempts, n + 1) <==>
      if v.TimeStep? then (t in ListAfter(cfg, s, attempts, n) || t == v.t) && t >= WindowStart(cfg, attempts[n])
      else t in ListAfter(cfg, s, attempts, n)
    ensures VerdictOn(cfg, s, attempts, n).TimeStep? ==>
              WindowStart(cfg, attempts[n]) <= VerdictOn(cfg, s, attempts, n).t && VerdictOn(cfg, s, attempts, n).t !in ListAfter(cfg, s, attempts, n)
  {
    var before, a := After(cfg, s, attempts[..n]), attempts[n];
    ListStays(cfg, s, attempts, n);
    AfterMore(cfg, s, attempts, n);
    ReuseStays(cfg, before, a);
    if Authenticate(cfg, before, a).1.TimeStep? {
      TimeStepRecorded(cfg, before, a.t0, Digits(a.password).value);
    }
  }

  /** Attempt k accepted a step with a window above t, and t was not accepted since. */
  predicate DroppedAt(cfg: Config, s: State, attempts: seq<Attempt>, n: nat, t: int, k: nat)
    requires n <= |attempts|
  {
    && k < n && VerdictOn(cfg, s, attempts, k).TimeStep? && WindowStart(cfg, attempts[k]) > t
    && forall j :: k < j < n ==> VerdictOn(cfg, s, attempts, j) != TimeStep(t)
  }

  ghost predicate Dropped(cfg: Config, s: State, attempts: seq<Attempt>, i: nat, n: nat, t: int)
    requires n <= |attempts|
  {
    exists k: nat :: i < k && DroppedAt(cfg, s, attempts, n, t, k)
  }

  lemma DroppedStep(cfg: Config, s: State, attempts: seq<Attempt>, i: nat, n: nat, t: int)
    requires s.reuse.Some? && i < n < |attempts|
    ensures
      var v := VerdictOn(cfg, s, attempts, n);
      Dropped(cfg, s, attempts, i, n + 1, t) <==>
      if v == TimeStep(t) then WindowStart(cfg, attempts[n]) > t
      else (v.TimeStep? && WindowStart(cfg, attempts[n]) > t) || Dropped(cfg, s, attempts, i, n, t)
  {
    hide VerdictOn, WindowStart;
    var v := VerdictOn(cfg, s, attempts, n);
    if Dropped(cfg, s, attempts, i, n, t) && v != TimeStep(t) {
      var k: nat :| i < k && DroppedAt(cfg, s, attempts, n, t, k);
      assert DroppedAt(cfg, s, attempts, n + 1, t, k);
    }
    if v.TimeStep? && WindowStart(cfg, attempts[n]) > t {
      assert DroppedAt(cfg, s, attempts, n + 1, t, n);
    }
    if Dropped(cfg, s, attempts, i, n + 1, t) {
      var k: nat :| i < k && DroppedAt(cfg, s, attempts, n + 1, t, k);
      if k < n {
        assert VerdictOn(cfg, s, attempts, n) != TimeStep(t);
        assert DroppedAt(cfg, s, attempts, n, t, k);
      }
    }
  }

  /** Once accepted, a step is in the list exactly until an accepted attempt with a later window drops it. */
  lemma {:induction false} ListedUntilDropped(cfg: Config, s: State, attempts: seq<Attempt>, i: nat, n: nat, t: int)
    requires s.reuse.Some? && i < n <= |attempts| && VerdictOn(cfg, s, attempts, i) == TimeStep(t)
    ensures t in ListAfter(cfg, s, attempts, n) <==> !Dropped(cfg, s, attempts, i, n, t)
    decreases n
  {
    hide VerdictOn, WindowStart, ListAfter;
    ListStep(cfg, s, attempts, n - 1, t);
    if i == n - 1 {
      assert t in ListAfter(cfg, s, attempts, n);
    } else {
      ListedUntilDropped(cfg, s, attempts, i, n - 1, t);
      DroppedStep(cfg, s, attempts, i, n - 1, t);
    }
  }

  /** The attempt is a time-based one, and t is the first step of its window that has its code. */
  predicate Matches(cfg: Config, s: State, a: Attempt, t: int)
  {
    && s.counter <= 0 && ForApp(a.password) && Digits(a.password).Some?
    && FirstTime(cfg, Digits(a.password).value, WindowStart(cfg, a), a.t0 + Half(cfg.windowSize)) == Some(t)
  }

  /** The list alone decides an attempt for t. */
  lemma ListDecides(cfg: Config, s: State, s': State, a: Attempt, t: int)
    requires Matches(cfg, s, a, t) && s'.counter <= 0 && s'.reuse.Some?
    ensures Authenticate(cfg, s', a).1 == TimeStep(t) <==> t !in s'.reuse.value
  {
    hide FirstTime, Trim, Sort, Digits;
  }

  /**
   The exact condition for a replay (section 5.2 of RFC 6238). After attempt i accepted step t, a
   later attempt for t is accepted again exactly when some accepted attempt in between has a window
   that begins above t, and t was not accepted since. Rejected attempts do no harm.
   */
  lemma ReplayedExactlyWhenDropped(cfg: Config, s: State, attempts: seq<Attempt>, i: nat, j: nat, t: int)
    requires s.reuse.Some? && i < j < |attempts|
    requires VerdictOn(cfg, s, attempts, i) == TimeStep(t) && Matches(cfg, s, attempts[j], t)
    ensures VerdictOn(cfg, s, attempts, j) == TimeStep(t) <==> Dropped(cfg, s, attempts, i, j, t)
  {
    ListedUntilDropped(cfg, s, attempts, i, j, t);
    ModeStays(cfg, s, attempts, j);
    ListStays(cfg, s, attempts, j);
    assert s.counter <= 0;
    hide Authenticate, After, Dropped, Matches;
    ListDecides(cfg, s, After(cfg, s, attempts[..j]), attempts[j], t);
  }

  /**
   A time step is accepted at most once, as long as the clock of the later attempt is not behind
   that of an attempt accepted in between.
   */
  lemma TimeStepsOnce(cfg: Config, s: State, attempts: seq<Attempt>, i: nat, j: nat)
    requires s.reuse.Some? && i < j < |attempts|
    requires forall k :: i < k < j && VerdictOn(cfg, s, attempts, k).TimeStep? ==> attempts[k].t0 <= attempts[j].t0
    requires VerdictOn(cfg, s, attempts, i).TimeStep? && VerdictOn(cfg, s, attempts, j).TimeStep?
    ensures VerdictOn(cfg, s, attempts, i).t != VerdictOn(cfg, s, attempts, j).t
  {
    var t := VerdictOn(cfg, s, attempts, i).t;
    ListedUntilDropped(cfg, s, attempts, i, j, t);
    ListStep(cfg, s, attempts, j, t);
    hide VerdictOn, ListAfter;
    if t !in ListAfter(cfg, s, attempts, j) {
      var k: nat :| i < k && DroppedAt(cfg, s, attempts, j, t, k);
      assert attempts[k].t0 <= attempts[j].t0;
    }
  }

  predicate InWindow(cfg: Config, list: seq<int>, t0: int)
  {
    forall x :: x in list ==> t0 - Half(cfg.windowSize) <= x <= t0 + Half(cfg.windowSize)
  }

  /** The list was empty at first, or lies in the window of the attempt that last added to it. */
  ghost predicate ListBounded(cfg: Config, attempts: seq<Attempt>, n: nat, list: seq<int>)
    requires n <= |attempts|
  {
    list == [] || exists k :: 0 <= k < n && InWindow(cfg, list, attempts[k].t0)
  }

  lemma {:induction false} ListInWindow(cfg: Config, s: State, attempts: seq<Attempt>, n: nat)
    requires s.reuse == Some([]) && n <= |attempts|
    requires forall j, k :: 0 <= j <= k < |attempts| ==> attempts[j].t0 <= attempts[k].t0
    ensures After(cfg, s, attempts[..n]).reuse.Some?
    ensures ListBounded(cfg, attempts, n, After(cfg, s, attempts[..n]).reuse.value)
  {
    hide Authenticate, Totp, After, Digits;
    if n == 0 {
      AfterNone(cfg, s, attempts);
    } else {
      ListInWindow(cfg, s, attempts, n - 1);
      AfterMore(cfg, s, attempts, n - 1);
      var before, a := After(cfg, s, attempts[..n - 1]), attempts[n - 1];
      ReuseStays(cfg, before, a);
      if Authenticate(cfg, before, a).1.TimeStep? {
        TimeStepRecorded(cfg, before, a.t0, Digits(a.password).value);
        assert InWindow(cfg, After(cfg, s, attempts[..n]).reuse.value, attempts[n - 1].t0);
      }
    }
  }

  /** The list stays strictly increasing, and never longer than the window. */
  lemma ListSize(cfg: Config, s: State, attempts: seq<Attempt>, n: nat)
    requires s.reuse == Some([]) && n <= |attempts|
    requires forall j, k :: 0 <= j <= k < |attempts| ==> attempts[j].t0 <= attempts[k].t0
    ensures After(cfg, s, attempts[..n]).reuse.Some?
    ensures
      var list := After(cfg, s, attempts[..n]).reuse.value;
      Increasing(list) && (list != [] ==> |list| <= 2 * Half(cfg.windowSize) + 1)
  {
    ListStays(cfg, s, attempts, n);
    ListInWindow(cfg, s, attempts, n);
    var list := After(cfg, s, attempts[..n]).reuse.value;
    if list != [] {
      var k :| 0 <= k < n && InWindow(cfg, list, attempts[k].t0);
      Spread(list, |list| - 1);
      assert list[0] in list && list[|list| - 1] in list;
    }
  }

  lemma {:induction false} Spread(list: seq<int>, i: nat)
    requires Increasing(list) && i < |list|
    ensures list[i] >= list[0] + i
  {
    if i == 0 {
    } else {
      Spread(list, i - 1);
    }
  }

  /** A first attempt for a step that is not in the list is accepted. */
  lemma FreshIsAccepted(cfg: Config, s: State, a: Attempt, t: int)
    requires s.reuse.Some? && Matches(cfg, s, a, t) && t !in s.reuse.value
    ensures Authenticate(cfg, s, a).1 == TimeStep(t)
    ensures Authenticate(cfg, s, a).0.counter == s.counter && Authenticate(cfg, s, a).0.reuse.Some?
    ensures forall x :: x in Authenticate(cfg, s, a).0.reuse.value <==> (x in s.reuse.value || x == t) && x >= WindowStart(cfg, a)
  {
    TimeStepRecorded(cfg, s, a.t0, Digits(a.password).value);
  }

  /**
   With a clock that runs back a password works twice, for every secret: between its two uses one
   other step is accepted, at a time when the window has passed the first.
   */
  lemma ClockRunningBack(cfg: Config, s: State, a: Attempt, b: Attempt, t: int, u: int)
    requires s.reuse.Some? && t !in s.reuse.value && u !in s.reuse.value && t != u
    requires Matches(cfg, s, a, t) && Matches(cfg, s, b, u) && WindowStart(cfg, b) > t
    ensures VerdictOn(cfg, s, [a, b, a], 0) == TimeStep(t)
    ensures VerdictOn(cfg, s, [a, b, a], 1) == TimeStep(u)
    ensures VerdictOn(cfg, s, [a, b, a], 2) == TimeStep(t)
  {
    var run := [a, b, a];
    var s1 := Authenticate(cfg, s, a).0;
    FreshIsAccepted(cfg, s, a, t);
    FreshIsAccepted(cfg, s1, b, u);
    assert run[..0] == [] && run[..1] == [a] && run[..2] == [a, b];
    AfterMore(cfg, s, run, 0);
    AfterMore(cfg, s, run, 1);
    hide Authenticate, Matches, WindowStart;
    assert VerdictOn(cfg, s, run, 0) == TimeStep(t) && VerdictOn(cfg, s, run, 1) == TimeStep(u);
    assert DroppedAt(cfg, s, run, 2, t, 1) by { Between(cfg, s, run, t, u, b); }
    ReplayedExactlyWhenDropped(cfg, s, run, 0, 2, t);
  }

  lemma Between(cfg: Config, s: State, run: seq<Attempt>, t: int, u: int, b: Attempt)
    requires |run| == 3 && run[1] == b && WindowStart(cfg, b) > t && VerdictOn(cfg, s, run, 1) == TimeStep(u)
    ensures DroppedAt(cfg, s, run, 2, t, 1)
  {}

  /** Such attempts exist: codes that are the steps themselves, at times 10, 20 and 10 again. */
  lemma ClockRunningBackFromTwenty()
    ensures
      var cfg := Config((t: int) => t, 3);
      var a, b := Attempt("000010", 10), Attempt("000020", 20);
      VerdictOn(cfg, State(0, Some([]), []), [a, b, a], 2) == TimeStep(10)
  {
    var cfg := Config((t: int) => t, 3);
    var a, b := Attempt("000010", 10), Attempt("000020", 20);
    TwoDigits('1');
    TwoDigits('2');
    assert a.password == "0000" + ['1', '0'] && b.password == "0000" + ['2', '0'];
    assert Half(3) == 1;
    assert FirstTime(cfg, 10, 9, 11) == Some(10) && FirstTime(cfg, 20, 19, 21) == Some(20);
    ClockRunningBack(cfg, State(0, Some([]), []), a, b, 10, 20);
  }

  lemma TwoDigits(c: char)
    requires IsDigit(c)
    ensures Digits("0000" + [c, '0']) == Some(10 * (c as int - '0' as int))
  {
    var s := "0000" + [c, '0'];
    assert s[..5] == "0000" + [c];
    assert s[..5][..4] == "0000";
    assert "0000"[..3] == "000" && "000"[..2] == "00" && "00"[..1] == "0" && "0"[..0] == "";
    assert Digits("0") == Some(0);
    assert Digits("00") == Some(0);
    assert Digits("000") == Some(0);
    assert Digits("0000") == Some(0);
    assert Digits(s[..5]) == Some(c as int - '0' as int);
  }
}
