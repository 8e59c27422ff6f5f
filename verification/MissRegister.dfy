/** The miss register: a 32-bit shift register of throws, newest in bit 0, set for a miss. */
module MissRegister {
  import opened TunerModel

  /** The low n bits of x: x masked with n ones, or x truncated to an n-bit word. */
  function Low(x: nat, n: nat): nat {
    if n == 0 then 0 else 2 * Low(x / 2, n - 1) + x % 2
  }

  /** The log read as a binary number, newest throw last. */
  function Bits(missLog: seq<bool>): nat {
    if missLog == [] then 0 else 2 * Bits(missLog[..|missLog| - 1]) + if missLog[|missLog| - 1] then 1 else 0
  }

  function PopCount(bits: nat): nat {
    if bits == 0 then 0 else bits % 2 + PopCount(bits / 2)
  }

  lemma {:induction false} PopCountIsCountTrue(missLog: seq<bool>)
    ensures PopCount(Bits(missLog)) == CountTrue(missLog)
  {
    if missLog != [] {
      PopCountIsCountTrue(missLog[..|missLog| - 1]);
      assert Bits(missLog) / 2 == Bits(missLog[..|missLog| - 1]);
    }
  }

  /** The low n bits are the last n throws. */
  lemma {:induction false} LowBits(missLog: seq<bool>, n: nat)
    ensures Low(Bits(missLog), n) == Bits(Last(missLog, n))
  {
    if n > 0 && missLog == [] {
      LowBits([], n - 1);
      assert Last<bool>([], n) == [];
    } else if n > 0 {
      var rest, last := missLog[..|missLog| - 1], Last(missLog, n);
      LowBits(rest, n - 1);
      assert Bits(missLog) / 2 == Bits(rest);
      assert last[..|last| - 1] == Last(rest, n - 1);
    }
  }

  lemma {:induction false} LowOfLow(x: nat, n: nat, k: nat)
    requires k <= n
    ensures Low(Low(x, n), k) == Low(x, k)
  {
    if k > 0 {
      LowOfLow(x / 2, n - 1, k - 1);
      assert Low(x, n) / 2 == Low(x / 2, n - 1);
    }
  }

  lemma LowShift(x: nat, b: nat, n: nat)
    requires b < 2 && n > 0
    ensures Low(2 * x + b, n) == 2 * Low(x, n - 1) + b
  {
    assert (2 * x + b) / 2 == x && (2 * x + b) % 2 == b;
  }

  /** Shifting a throw into the register logs it, whatever the register's width. */
  lemma ShiftIn(missLog: seq<bool>, miss: bool, reg: nat, width: nat)
    requires width > 0 && reg == Low(Bits(missLog), width)
    ensures Low(2 * reg + if miss then 1 else 0, width) == Low(Bits(missLog + [miss]), width)
  {
    assert (missLog + [miss])[..|missLog|] == missLog;
    var b := if miss then 1 else 0;
    LowOfLow(Bits(missLog), width, width - 1);
    LowShift(reg, b, width);
    LowShift(Bits(missLog), b, width);
  }

  /** Masking a register gives the last n of them. */
  lemma MaskedBits(missLog: seq<bool>, reg: nat, width: nat, n: nat)
    requires reg == Low(Bits(missLog), width) && n <= width
    ensures Low(reg, n) == Bits(Last(missLog, n))
  {
    LowOfLow(Bits(missLog), width, n);
    LowBits(missLog, n);
  }
}
