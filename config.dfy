/**
 * The architecture parameters the `BfCpu` constructor of bofsim.h reads and
 * validates: tape length selector `tl`, cell width `tw`, mode count `nm`,
 * call-stack depth `sd` and instruction memory capacity `il`.
 */
module Config {

  /** The `tl` value that selects an effectively unbounded tape; it is kept as is. */
  const Sentinel: nat := 9999

  datatype ArchConfig = ArchConfig(tl: nat, tw: nat, nm: nat, sd: nat, il: nat)

  /** Which parameter the constructor reports as bad, in the order it checks them. */
  datatype ConfigError = BadTl | BadTw | BadNm | BadSd | BadIl

  /** The outcome of the constructor's validation. */
  datatype ConfigCheck = Accepted | Rejected(error: ConfigError)

  /** `tl` is the sentinel or an exponent in 10..127 (the intended form of bofsim.h:146). */
  predicate TlOk(tl: nat) { tl == Sentinel || 10 <= tl <= 127 }

  /** `tw` is a multiple of 8 between 8 and 128. */
  predicate TwOk(tw: nat) { 8 <= tw <= 128 && tw % 8 == 0 }

  /** `nm` is 2 or 3 (the intended form of bofsim.h:154). */
  predicate NmOk(nm: nat) { nm == 2 || nm == 3 }

  predicate SdOk(sd: nat) { sd != 0 }

  predicate IlOk(il: nat) { il >= 32 }

  predicate ValidConfig(c: ArchConfig)
  {
    TlOk(c.tl) && TwOk(c.tw) && NmOk(c.nm) && SdOk(c.sd) && IlOk(c.il)
  }

  /**
   * The validation sequence of the constructor: the first parameter out of
   * range is reported (the source aborts construction with an error there).
   */
  function FirstConfigError(c: ArchConfig): (e: ConfigCheck)
    ensures e.Accepted? <==> ValidConfig(c)
    ensures e == Rejected(BadTl) <==> !TlOk(c.tl)
    ensures e == Rejected(BadTw) <==> TlOk(c.tl) && !TwOk(c.tw)
    ensures e == Rejected(BadNm) <==> TlOk(c.tl) && TwOk(c.tw) && !NmOk(c.nm)
    ensures e == Rejected(BadSd) <==> TlOk(c.tl) && TwOk(c.tw) && NmOk(c.nm) && !SdOk(c.sd)
    ensures e == Rejected(BadIl) <==> TlOk(c.tl) && TwOk(c.tw) && NmOk(c.nm) && SdOk(c.sd) && !IlOk(c.il)
  {
    if !(c.tl == Sentinel || (10 <= c.tl && c.tl <= 127)) then Rejected(BadTl)
    else if c.tw < 8 || c.tw > 128 || c.tw % 8 != 0 then Rejected(BadTw)
    else if c.nm != 2 && c.nm != 3 then Rejected(BadNm)
    else if c.sd == 0 then Rejected(BadSd)
    else if c.il < 32 then Rejected(BadIl)
    else Accepted
  }

  /** The `tl` test at bofsim.h:146 as written: `tl != 9999 || tl < 10 || tl > 127`. */
  predicate TlRejectedAsWritten(tl: int)
  {
    tl != 9999 || tl < 10 || tl > 127
  }

  /** The `nm` test at bofsim.h:154 as written: `nm != 2 || nm != 3`. */
  predicate NmRejectedAsWritten(nm: int)
  {
    nm != 2 || nm != 3
  }

  /** As written, both tests fire for every value, so no configuration is accepted. */
  lemma AsWrittenChecksRejectEverything(tl: int, nm: int)
    ensures TlRejectedAsWritten(tl)
    ensures NmRejectedAsWritten(nm)
  {
  }

  /** The configuration both CPU tests construct (test-cpu-left-01.cpp, test-cpu-right-02.cpp). */
  function TestConfig(): (c: ArchConfig)
    ensures c.tl == 10 && c.nm == 3 && c.sd == 1
  {
    ArchConfig(10, 8, 3, 1, 4096)
  }

  /** The intended checks accept the tests' configuration and main.cpp's; as written they reject both. */
  lemma TestConfigsAccepted()
    ensures FirstConfigError(TestConfig()) == Accepted
    ensures FirstConfigError(ArchConfig(Sentinel, 8, 3, 16, 1024)) == Accepted
    ensures TlRejectedAsWritten(TestConfig().tl) && NmRejectedAsWritten(TestConfig().nm)
  {
  }

  /** 2 to the power `k`, the value of `(my_uint128_t)1 << k` without truncation. */
  function Pow2(k: nat): (r: nat)
    ensures r >= 1
    ensures k >= 1 ==> r % 2 == 0
  {
    if k == 0 then 1 else 2 * Pow2(k - 1)
  }

  /** Powers of two grow with the exponent. */
  lemma {:induction false} Pow2Monotone(j: nat, k: nat)
    requires j <= k
    ensures Pow2(j) <= Pow2(k)
  {
    if j < k {
      Pow2Monotone(j, k - 1);
    }
  }

  /** Exponents add: 2^(j+k) = 2^j * 2^k. */
  lemma {:induction false} Pow2Add(j: nat, k: nat)
    ensures Pow2(j + k) == Pow2(j) * Pow2(k)
  {
    if k > 0 {
      Pow2Add(j, k - 1);
      var a, b := Pow2(j), Pow2(k - 1);
      assert Pow2(j + k) == 2 * Pow2(j + (k - 1));
      assert Pow2(k) == 2 * b;
      assert a * (2 * b) == 2 * (a * b);
    }
  }

  /**
   * The tape length the constructor derives from `tl` (bofsim.h:148-149): the
   * sentinel is kept, and a valid literal exponent gives 2^tl, at least 1024
   * cells and never mistaken for the sentinel.
   */
  function TapeLength(tl: nat): (len: nat)
    ensures tl != Sentinel ==> len == Pow2(tl)
    ensures TlOk(tl) ==> (len == Sentinel <==> tl == Sentinel)
    ensures TlOk(tl) && tl != Sentinel ==> len >= 1024
  {
    if tl == Sentinel then Sentinel
    else if tl < 10 then Pow2(tl)
    else
      Pow2Monotone(10, tl);
      assert Pow2(10) == 1024;
      Pow2(tl)
  }

  /** The tests' `tl = 10` selects a tape of 1024 cells, the last one being 1023. */
  lemma TestTapeLength()
    ensures TapeLength(TestConfig().tl) == 1024
  {
  }

  /**
   * bofsim.h:149 as written: the shift is done in 64 bits (`my_uint128_t` is
   * `uint64_t`), and the result is stored back into the 32-bit `int tl`.
   * Shifts by 64 or more are undefined in C++ and are not modelled.
   */
  function TapeLengthAsWritten(tl: nat): (r: int)
    requires tl < 64
    ensures -0x8000_0000 <= r < 0x8000_0000
  {
    var wide := Pow2(tl) % 0x1_0000_0000_0000_0000;
    var low := wide % 0x1_0000_0000;
    if low < 0x8000_0000 then low else low - 0x1_0000_0000
  }

  /** At `tl = 31` the stored length is negative and at `tl = 32` it is 0, although both are accepted values. */
  lemma TapeLengthAsWrittenOverflows()
    ensures TlOk(31) && TapeLengthAsWritten(31) < 0
    ensures TlOk(32) && TapeLengthAsWritten(32) == 0 && TapeLength(32) == 0x1_0000_0000
  {
    assert Pow2(8) == 0x100;
    Pow2Add(8, 8);
    Pow2Add(16, 8);
    Pow2Add(24, 7);
    Pow2Add(24, 8);
  }
}
