/** CRC-32C as the frame header uses it (section 12.1 of RFC 3720), and which changes it must notice.
    The 32-bit register is the sequence of its bits, the lowest first. */
module Crc {
  import opened Wire

  type Bits = s: seq<bool> | |s| == 32 witness seq(32, _ => false)

  function Zero(): Bits { seq(32, _ => false) }
  function Ones(): Bits { seq(32, _ => true) }
  function Xor(a: Bits, b: Bits): Bits { seq(32, i requires 0 <= i < 32 => a[i] != b[i]) }

  function Power(k: nat): (n: nat)
    ensures n > 0
  {
    if k == 0 then 1 else 2 * Power(k - 1)
  }

  const POLYNOMIAL: nat := 0x82f6_3b78

  predicate Poly(i: nat) { POLYNOMIAL / Power(i) % 2 == 1 }

  /** One bit of the division: shift right, and add the polynomial for a one that falls out. */
  function Shift(r: Bits): Bits { seq(32, i requires 0 <= i < 32 => (i < 31 && r[i + 1]) != (r[0] && Poly(i))) }

  function Shifts(r: Bits, n: nat): Bits { if n == 0 then r else Shift(Shifts(r, n - 1)) }

  predicate Bit(n: nat, k: nat) { if k == 0 then n % 2 == 1 else Bit(n / 2, k - 1) }

  /** A byte in the low eight bits. */
  function Word(b: byte): Bits { seq(32, i requires 0 <= i < 32 => i < 8 && Bit(b, i)) }

  function Feed(r: Bits, b: byte): Bits { Shifts(Xor(r, Word(b)), 8) }

  function Register(r: Bits, bytes: seq<byte>): Bits
    decreases |bytes|
  {
    if bytes == [] then r else Feed(Register(r, bytes[..|bytes| - 1]), bytes[|bytes| - 1])
  }

  function Checksum(bytes: seq<byte>): Bits { Xor(Register(Ones(), bytes), Ones()) }

  // ---------------------------------------------------------------- a linear bijection

  lemma ShiftLinear(a: Bits, b: Bits)
    ensures Shift(Xor(a, b)) == Xor(Shift(a), Shift(b))
  {
  }

  lemma {:induction false} ShiftsLinear(a: Bits, b: Bits, n: nat)
    ensures Shifts(Xor(a, b), n) == Xor(Shifts(a, n), Shifts(b, n))
  {
    if n > 0 {
      ShiftsLinear(a, b, n - 1);
      ShiftLinear(Shifts(a, n - 1), Shifts(b, n - 1));
    }
  }

  /** The bit that falls out comes back at the top. */
  lemma TopBit()
    ensures Poly(31)
  {
    assert Power(8) == 0x100;
    assert Power(16) == 0x1_0000;
    assert Power(24) == 0x100_0000;
    assert Power(31) == 0x8000_0000;
  }

  lemma ShiftZero(r: Bits)
    ensures Shift(r) == Zero() <==> r == Zero()
  {
    var s := Shift(r);
    TopBit();
    if s == Zero() {
      assert s[31] == r[0];
      assert forall i :: 1 <= i < 32 ==> r[i] == s[i - 1];
    }
  }

  lemma {:induction false} ShiftsZero(r: Bits, n: nat)
    ensures Shifts(r, n) == Zero() <==> r == Zero()
  {
    if n > 0 {
      ShiftsZero(r, n - 1);
      ShiftZero(Shifts(r, n - 1));
    }
  }

  lemma XorZero(a: Bits, b: Bits)
    ensures Xor(a, b) == Zero() <==> a == b
  {
    if Xor(a, b) == Zero() {
      forall i | 0 <= i < 32
        ensures a[i] == b[i]
      {
        assert Xor(a, b)[i] == Zero()[i];
      }
    }
  }

  lemma ShiftsInjective(a: Bits, b: Bits, n: nat)
    requires Shifts(a, n) == Shifts(b, n)
    ensures a == b
  {
    ShiftsLinear(a, b, n);
    XorZero(Shifts(a, n), Shifts(b, n));
    ShiftsZero(Xor(a, b), n);
    XorZero(a, b);
  }

  /** All bits from `n` on are zero. */
  predicate Below(r: Bits, n: nat) { forall i :: n <= i < 32 ==> !r[i] }

  /** The register moved up by `n` bits. */
  function Up(r: Bits, n: nat): Bits { seq(32, i requires 0 <= i < 32 => i >= n && r[i - n]) }

  lemma {:induction false} ShiftsDown(r: Bits, n: nat, k: nat)
    requires k <= n <= 32 && Below(r, 32 - n)
    ensures Shifts(Up(r, n), k) == Up(r, n - k)
  {
    if k > 0 {
      ShiftsDown(r, n, k - 1);
      assert !Up(r, n - k + 1)[0];
    }
  }

  // ---------------------------------------------------------------- two inputs side by side

  function Difference(x: byte, y: byte): Bits { Xor(Word(x), Word(y)) }

  function Differences(xs: seq<byte>, ys: seq<byte>): (es: seq<Bits>)
    requires |xs| == |ys|
    ensures |es| == |xs|
  {
    seq(|xs|, i requires 0 <= i < |xs| => Difference(xs[i], ys[i]))
  }

  /** The register of the difference, fed with differences. */
  function Trail(d: Bits, es: seq<Bits>): Bits
    decreases |es|
  {
    if es == [] then d else Shifts(Xor(Trail(d, es[..|es| - 1]), es[|es| - 1]), 8)
  }

  lemma XorFour(a: Bits, b: Bits, c: Bits, d: Bits)
    ensures Xor(Xor(a, c), Xor(b, d)) == Xor(Xor(a, b), Xor(c, d))
  {
  }

  lemma {:induction false} RegisterDifference(a: Bits, b: Bits, xs: seq<byte>, ys: seq<byte>)
    requires |xs| == |ys|
    ensures Xor(Register(a, xs), Register(b, ys)) == Trail(Xor(a, b), Differences(xs, ys))
    decreases |xs|
  {
    if |xs| > 0 {
      var n := |xs| - 1;
      var r, q := Register(a, xs[..n]), Register(b, ys[..n]);
      RegisterDifference(a, b, xs[..n], ys[..n]);
      assert Differences(xs, ys)[..n] == Differences(xs[..n], ys[..n]);
      ShiftsLinear(Xor(r, Word(xs[n])), Xor(q, Word(ys[n])), 8);
      XorFour(r, q, Word(xs[n]), Word(ys[n]));
    }
  }

  lemma Disjoint(w: Bits, e: Bits)
    requires Below(e, 8) && Xor(Up(w, 8), e) == Zero() && Below(w, 24)
    ensures w == Zero() && e == Zero()
  {
    var x := Xor(Up(w, 8), e);
    forall i | 0 <= i < 32
      ensures !w[i] && !e[i]
    {
      assert x[i] == Zero()[i];
      if i < 24 { assert x[i + 8] == Zero()[i + 8] && Up(w, 8)[i + 8] == w[i]; }
    }
  }

  lemma XorSwap(a: Bits, b: Bits, c: Bits)
    requires Xor(a, b) == c
    ensures a == Xor(c, b)
  {
    forall i | 0 <= i < 32
      ensures a[i] == Xor(c, b)[i]
    {
      assert Xor(a, b)[i] == c[i];
    }
  }

  /** One byte undone, while the register still has room above. */
  lemma Peel(front: Bits, e: Bits, w: Bits)
    requires Shifts(Xor(front, e), 8) == w && Below(w, 24)
    ensures front == Xor(Up(w, 8), e)
  {
    ShiftsDown(w, 8, 8);
    assert Up(w, 0) == w;
    ShiftsInjective(Xor(front, e), Up(w, 8), 8);
    XorSwap(front, e, Up(w, 8));
  }

  lemma UpBelow(w: Bits, e: Bits, n: nat)
    requires n <= 24 && Below(w, n) && Below(e, 8)
    ensures Below(Xor(Up(w, 8), e), n + 8)
  {
  }

  /** Four bytes of difference fill the register exactly: they cannot cancel. */
  lemma {:induction false} BurstRemains(es: seq<Bits>, w: Bits)
    requires |es| <= 4 && (forall k :: 0 <= k < |es| ==> Below(es[k], 8))
    requires Trail(Zero(), es) == w && Below(w, 32 - 8 * |es|)
    ensures w == Zero() && forall k :: 0 <= k < |es| ==> es[k] == Zero()
    decreases |es|
  {
    if |es| > 0 {
      var n := |es| - 1;
      var rest, e := es[..n], es[n];
      Peel(Trail(Zero(), rest), e, w);
      UpBelow(w, e, 24 - 8 * n);
      BurstRemains(rest, Xor(Up(w, 8), e));
      Disjoint(w, e);
      assert forall k :: 0 <= k < n ==> es[k] == rest[k];
    }
  }

  lemma {:induction false} RegisterConcat(r: Bits, xs: seq<byte>, ys: seq<byte>)
    ensures Register(r, xs + ys) == Register(Register(r, xs), ys)
    decreases |ys|
  {
    if |ys| == 0 {
      assert xs + ys == xs;
    } else {
      var n := |ys| - 1;
      RegisterConcat(r, xs, ys[..n]);
      assert (xs + ys)[..|xs + ys| - 1] == xs + ys[..n];
    }
  }

  lemma {:induction false} RegisterInjective(a: Bits, b: Bits, bytes: seq<byte>)
    requires Register(a, bytes) == Register(b, bytes)
    ensures a == b
    decreases |bytes|
  {
    if |bytes| > 0 {
      var n := |bytes| - 1;
      var r, q := Register(a, bytes[..n]), Register(b, bytes[..n]);
      ShiftsInjective(Xor(r, Word(bytes[n])), Xor(q, Word(bytes[n])), 8);
      XorSwap(r, Word(bytes[n]), Xor(q, Word(bytes[n])));
      XorSwap(q, Word(bytes[n]), Xor(q, Word(bytes[n])));
      RegisterInjective(a, b, bytes[..n]);
    }
  }

  lemma {:induction false} BitsInjective(x: nat, y: nat, n: nat)
    requires x < Power(n) && y < Power(n) && forall k :: 0 <= k < n ==> Bit(x, k) == Bit(y, k)
    ensures x == y
  {
    if n > 0 {
      assert Bit(x, 0) == Bit(y, 0);
      forall k | 0 <= k < n - 1
        ensures Bit(x / 2, k) == Bit(y / 2, k)
      {
        assert Bit(x, k + 1) == Bit(y, k + 1);
      }
      BitsInjective(x / 2, y / 2, n - 1);
    }
  }

  lemma WordInjective(x: byte, y: byte)
    requires Word(x) == Word(y)
    ensures x == y
  {
    assert Power(8) == 0x100;
    forall k | 0 <= k < 8
      ensures Bit(x, k) == Bit(y, k)
    {
      assert Word(x)[k] == Word(y)[k];
    }
    BitsInjective(x, y, 8);
  }

  lemma DifferenceSmall(x: byte, y: byte)
    ensures Below(Difference(x, y), 8) && (Difference(x, y) == Zero() ==> x == y)
  {
    XorZero(Word(x), Word(y));
    if Word(x) == Word(y) { WordInjective(x, y); }
  }

  lemma SameRegister(r: Bits, xs: seq<byte>, ys: seq<byte>)
    requires |xs| == |ys| <= 4 && Register(r, xs) == Register(r, ys)
    ensures xs == ys
  {
    RegisterDifference(r, r, xs, ys);
    XorZero(r, r);
    XorZero(Register(r, xs), Register(r, ys));
    var es := Differences(xs, ys);
    forall k | 0 <= k < |es|
      ensures Below(es[k], 8)
    {
      DifferenceSmall(xs[k], ys[k]);
    }
    BurstRemains(es, Zero());
    forall k | 0 <= k < |xs|
      ensures xs[k] == ys[k]
    {
      assert es[k] == Zero();
      DifferenceSmall(xs[k], ys[k]);
    }
  }

  /** Inputs that differ only within four consecutive bytes have different checksums. */
  lemma NoticesBurst(xs: seq<byte>, ys: seq<byte>, at: nat)
    requires |xs| == |ys| && at + 4 <= |xs| && xs[..at] == ys[..at] && xs[at + 4..] == ys[at + 4..]
    requires Checksum(xs) == Checksum(ys)
    ensures xs == ys
  {
    XorSwap(Register(Ones(), xs), Ones(), Checksum(xs));
    XorSwap(Register(Ones(), ys), Ones(), Checksum(ys));
    var start, end := Register(Ones(), xs[..at]), xs[at + 4..];
    var x4, y4 := xs[at..at + 4], ys[at..at + 4];
    assert xs == xs[..at] + x4 + end && ys == xs[..at] + y4 + end;
    RegisterConcat(Ones(), xs[..at], x4);
    RegisterConcat(Ones(), xs[..at], y4);
    RegisterConcat(Ones(), xs[..at] + x4, end);
    RegisterConcat(Ones(), xs[..at] + y4, end);
    RegisterInjective(Register(start, x4), Register(start, y4), end);
    SameRegister(start, x4, y4);
  }

  // ---------------------------------------------------------------- the checksum as a number

  function Value(bits: seq<bool>): (n: nat)
    ensures n < Power(|bits|)
  {
    if bits == [] then 0 else (if bits[0] then 1 else 0) + 2 * Value(bits[1..])
  }

  lemma {:induction false} ValueInjective(a: seq<bool>, b: seq<bool>)
    requires |a| == |b| && Value(a) == Value(b)
    ensures a == b
  {
    if a != [] {
      ValueInjective(a[1..], b[1..]);
      assert a == [a[0]] + a[1..] && b == [b[0]] + b[1..];
    }
  }

  lemma Power32()
    ensures Power(32) == 0x1_0000_0000
  {
    assert Power(8) == 0x100;
    assert Power(16) == 0x1_0000;
    assert Power(24) == 0x100_0000;
  }

  function Crc32c(bytes: seq<byte>): u32 {
    Power32();
    Value(Checksum(bytes))
  }

  /** The checksum the way it is computed: byte by byte, bit by bit. */
  method ComputeCrc32c(bytes: seq<byte>) returns (crc: u32)
    ensures crc == Crc32c(bytes)
  {
    var register, i := Ones(), 0;
    while i < |bytes|
      invariant 0 <= i <= |bytes| && register == Register(Ones(), bytes[..i])
    {
      var mixed := Xor(register, Word(bytes[i]));
      register := mixed;
      var k := 0;
      while k < 8
        invariant 0 <= k <= 8 && register == Shifts(mixed, k)
      {
        register := Shift(register);
        k := k + 1;
      }
      assert bytes[..i + 1][..i] == bytes[..i];
      i := i + 1;
    }
    assert bytes[..i] == bytes;
    Power32();
    crc := Value(Xor(register, Ones()));
  }
}
