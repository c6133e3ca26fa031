/** OTPConfig of pkg/goauth/goauth.go with its loops, against the functions of Otp. */
module OtpCode {
  import opened Basics
  import opened Otp

  class OTPConfig {
    const cfg: Config
    var hotpCounter: int
    var disallowReuse: Option<seq<int>>
    var scratchCodes: seq<int>

    constructor (cfg: Config, hotpCounter: int, disallowReuse: Option<seq<int>>, scratchCodes: seq<int>)
      ensures this.cfg == cfg && View() == State(hotpCounter, disallowReuse, scratchCodes)
    {
      this.cfg, this.hotpCounter, this.disallowReuse, this.scratchCodes := cfg, hotpCounter, disallowReuse, scratchCodes;
    }

    function View(): State
      reads this
    {
      State(hotpCounter, disallowReuse, scratchCodes)
    }

    method CheckScratchCodes(code: int) returns (ok: bool)
      modifies this`scratchCodes
      ensures View() == Scratch(old(View()), code).0
      ensures ok == (Scratch(old(View()), code).1 != Rejected)
      ensures ok == (code in old(scratchCodes))
      ensures ok ==> multiset(scratchCodes) + multiset{code} == multiset(old(scratchCodes))
    {
      var i := 0;
      while i < |scratchCodes|
        invariant i <= |scratchCodes| && code !in scratchCodes[..i] && scratchCodes == old(scratchCodes)
        invariant IndexOf(scratchCodes, code, i) == IndexOf(scratchCodes, code, 0)
      {
        if scratchCodes[i] == code {
          WithoutOne(scratchCodes, i);
          var l := |scratchCodes| - 1;
          scratchCodes := scratchCodes[i := scratchCodes[l]];
          scratchCodes := scratchCodes[0..l];
          return true;
        }
        i := i + 1;
      }
      return false;
    }

    method CheckHotpCode(code: int) returns (ok: bool)
      modifies this`hotpCounter
      ensures View() == Hotp(cfg, old(View()), code).0
      ensures ok == Hotp(cfg, old(View()), code).1.Position?
      ensures ok ==> cfg.codeAt(hotpCounter - 1) == code && old(hotpCounter) < hotpCounter <= old(hotpCounter) + cfg.windowSize
      ensures !ok ==> hotpCounter == old(hotpCounter) + 1
      ensures !ok ==> forall p :: old(hotpCounter) <= p < old(hotpCounter) + cfg.windowSize ==> cfg.codeAt(p) != code
    {
      var i := 0;
      while i < cfg.windowSize
        invariant 0 <= i && hotpCounter == old(hotpCounter)
        invariant FirstPosition(cfg, hotpCounter, code, i) == FirstPosition(cfg, hotpCounter, code, 0)
      {
        if cfg.codeAt(hotpCounter + i) == code {
          hotpCounter := hotpCounter + i + 1;
          return true;
        }
        i := i + 1;
      }
      hotpCounter := hotpCounter + 1;
      return false;
    }

    /** The list is searched from its start; then the step is added, and what is below the window dropped. */
    method Record(t: int, minT: int) returns (ok: bool)
      requires disallowReuse.Some? && minT <= t
      modifies this`disallowReuse
      ensures ok == (t !in old(disallowReuse).value)
      ensures disallowReuse == if ok then Some(Trim(Sort(old(disallowReuse).value + [t]), minT)) else old(disallowReuse)
    {
      var list := disallowReuse.value;
      var k := 0;
      while k < |list|
        invariant k <= |list| && t !in list[..k]
        modifies {}
      {
        if list[k] == t {
          return false;
        }
        k := k + 1;
      }
      assert list[..k] == list;
      var sorted := Sort(list + [t]);
      SortMembers(list, t);
      var min := 0;
      assert sorted[0..] == sorted;
      while sorted[min] < minT
        invariant min < |sorted| && t in sorted[min..]
        invariant Trim(sorted[min..], minT) == Trim(sorted, minT)
        decreases |sorted| - min
        modifies {}
      {
        assert sorted[min..][1..] == sorted[min + 1..];
        assert sorted[min..] == [sorted[min]] + sorted[min + 1..];
        min := min + 1;
      }
      disallowReuse := Some(sorted[min..]);
      return true;
    }

    method CheckTotpCode(t0: int, code: int) returns (ok: bool)
      modifies this`disallowReuse
      ensures View() == Totp(cfg, old(View()), t0, code).0
      ensures ok == Totp(cfg, old(View()), t0, code).1.TimeStep?
      ensures !ok ==> View() == old(View())
      ensures TimeAnswered(cfg, old(View()), t0, code, View(), ok)
    {
      TimeAnswers(cfg, View(), t0, code);
      hide TimeAnswered;
      var minT := t0 - Half(cfg.windowSize);
      var maxT := t0 + Half(cfg.windowSize);
      var t := minT;
      while t <= maxT
        invariant minT <= t && disallowReuse == old(disallowReuse)
        invariant FirstTime(cfg, code, t, maxT) == FirstTime(cfg, code, minT, maxT)
        decreases maxT - t
      {
        if cfg.codeAt(t) == code {
          if disallowReuse.Some? {
            ok := Record(t, minT);
            return;
          }
          return true;
        }
        t := t + 1;
      }
      return false;
    }

    /** Authenticate; None is ErrInvalidCode. t0 is the clock's time step. */
    method Authenticate(password: string, t0: int) returns (r: Option<bool>)
      modifies this
      ensures View() == Otp.Authenticate(cfg, old(View()), Attempt(password, t0)).0
      ensures
        var v := Otp.Authenticate(cfg, old(View()), Attempt(password, t0)).1;
        r == if v.Malformed? then None else Some(!v.Rejected?)
      ensures Answered(cfg, old(View()), password, t0, View(), r)
    {
      Answers(cfg, View(), Attempt(password, t0));
      hide Answered;
      var scratch := false;
      if |password| == 6 && IsDigit(password[0]) {
      } else if |password| == 8 && '1' <= password[0] <= '9' {
        scratch := true;
      } else {
        return None;
      }
      var code := Digits(password);
      if code.None? {
        return None;
      }
      var ok;
      if scratch {
        ok := CheckScratchCodes(code.value);
      } else if hotpCounter > 0 {
        ok := CheckHotpCode(code.value);
      } else {
        ok := CheckTotpCode(t0, code.value);
      }
      return Some(ok);
    }
  }
}
