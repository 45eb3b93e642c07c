/** The validity phases of a certificate version and its effective renewal window. */
module Validity {
  import opened Options
  import opened Certs
  import Retry

  datatype Phase = Missing | Revoked | Valid | RenewalDue | Expired

  const TWO_63 := 0x8000_0000_0000_0000
  const TWO_64 := 0x1_0000_0000_0000_0000
  const TWO_32 := 0x1_0000_0000

  newtype uint32 = x: int | 0 <= x < 0x1_0000_0000

  /** Two's-complement wrap-around of 64-bit durations. */
  function Wrap64(x: int): (w: int)
    ensures -TWO_63 <= w < TWO_63
  {
    (x + TWO_63) % TWO_64 - TWO_63
  }

  /** The difference of two instants saturates instead. */
  function Sub(a: Time, b: Time): int {
    if a - b >= TWO_63 then TWO_63 - 1 else if a - b < -TWO_63 then -TWO_63 else a - b
  }

  function TruncDiv(a: int, b: int): int
    requires b > 0
  {
    if a >= 0 then a / b else -(-a / b)
  }

  function ConfiguredWindow(renewBeforeDays: uint32): int {
    Wrap64(renewBeforeDays as int * 24 * HOUR)
  }

  function RenewalWindow(notBefore: Time, notAfter: Time, renewBeforeDays: uint32): int {
    var configured := ConfiguredWindow(renewBeforeDays);
    var lifetime := Sub(notAfter, notBefore);
    if lifetime <= 0 then configured
    else if lifetime / 3 < configured then lifetime / 3
    else configured
  }

  function RenewalWindowDays(notBefore: Time, notAfter: Time, renewBeforeDays: uint32): uint32 {
    var window := RenewalWindow(notBefore, notAfter, renewBeforeDays);
    var days := TruncDiv(window, DAY);
    if days == 0 && window > 0 then 1 else (days % TWO_32) as uint32
  }

  /** The start of the renewal window, with the negation of the duration wrapping too. */
  function WindowStart(v: Version, renewBeforeDays: uint32): Time {
    v.notAfter + Wrap64(-RenewalWindow(v.notBefore, v.notAfter, renewBeforeDays))
  }

  function NextRenewalAt(v: Option<Version>, renewBeforeDays: uint32): Option<Time> {
    if v.None? || !Distributable(v.value) then None else Some(WindowStart(v.value, renewBeforeDays))
  }

  function PhaseAt(v: Option<Version>, renewBeforeDays: uint32, now: Time): Phase {
    if v.None? then Missing
    else if !Distributable(v.value) then Revoked
    else if now > v.value.notAfter then Expired
    else if now >= v.value.notBefore && now >= WindowStart(v.value, renewBeforeDays) then RenewalDue
    else Valid
  }

  function Rank(p: Phase): nat {
    match p
    case Missing => 0
    case Revoked => 0
    case Valid => 1
    case RenewalDue => 2
    case Expired => 3
  }

  /** A served version only ever moves from valid to renewal due to expired, whatever is configured. */
  lemma PhasesMonotone(v: Version, days: uint32, t1: Time, t2: Time)
    requires Distributable(v) && t1 <= t2
    ensures 1 <= Rank(PhaseAt(Some(v), days, t1)) <= Rank(PhaseAt(Some(v), days, t2))
  {
  }

  lemma Halves(a: nat, odd: nat, m: nat)
    requires odd % 2 == 1 && a * odd == 2 * m
    ensures a % 2 == 0 && (a / 2) * odd == m
  {
    assert a * odd == 2 * ((a / 2) * odd) + (a % 2) * odd;
  }

  /** A power of two that divides a product with an odd factor divides the other factor. */
  lemma {:induction false} OddFactor(a: nat, odd: nat, n: nat, k: nat) returns (j: nat)
    requires odd % 2 == 1 && a * odd == Retry.Pow2(n) * k
    ensures a == Retry.Pow2(n) * j
    decreases n
  {
    j := a;
    if n > 0 {
      var m := Retry.Pow2(n - 1) * k;
      assert Retry.Pow2(n) * k == 2 * m;
      Halves(a, odd, m);
      j := OddFactor(a / 2, odd, n - 1, k);
      assert 2 * (Retry.Pow2(n - 1) * j) == Retry.Pow2(n) * j;
    }
  }

  /** No number of days gives the one duration whose negation wraps around. */
  lemma NegationDoesNotWrap(days: uint32)
    ensures ConfiguredWindow(days) != -TWO_63
  {
    if ConfiguredWindow(days) == -TWO_63 {
      var d := days as int;
      assert Retry.Pow2(8) == 256;
      assert Retry.Pow2(16) == 0x1_0000;
      assert Retry.Pow2(24) == 0x100_0000;
      assert Retry.Pow2(32) == TWO_32;
      assert d * 24 * HOUR == d * 1318359375 * 0x1_0000;
      var k := d * 1318359375 / TWO_32;
      assert d * 1318359375 == Retry.Pow2(32) * k;
      var j := OddFactor(d, 1318359375, 32, k);
      assert false;
    }
  }

  lemma StartIsWindowBeforeEnd(v: Version, days: uint32)
    ensures WindowStart(v, days) == v.notAfter - RenewalWindow(v.notBefore, v.notAfter, days)
    ensures v.notAfter > v.notBefore ==> 3 * RenewalWindow(v.notBefore, v.notAfter, days) <= v.notAfter - v.notBefore
  {
    NegationDoesNotWrap(days);
  }

  /** With a positive lifetime the renewal is due exactly from the announced next renewal on, until the end. */
  lemma DueExactlyFromNextRenewal(v: Version, days: uint32, now: Time)
    requires Distributable(v) && v.notBefore < v.notAfter
    ensures NextRenewalAt(Some(v), days).Some?
    ensures PhaseAt(Some(v), days, now) == RenewalDue <==> NextRenewalAt(Some(v), days).value <= now <= v.notAfter
  {
    StartIsWindowBeforeEnd(v, days);
  }

  /**
   * Exactly when a renewal is due, for every version that is served and every number of days: within the
   * configured days of the end, as a 64-bit duration, and, if the lifetime is positive, in its last third,
   * measured up to 2^63 - 1 nanoseconds.
   */
  lemma DueExactly(v: Version, days: uint32, now: Time)
    requires Distributable(v)
    ensures var ns := days as int * 24 * 60 * 60 * 1_000_000_000;
            var configured := ns - (ns + 0x8000_0000_0000_0000) / 0x1_0000_0000_0000_0000 * 0x1_0000_0000_0000_0000;
            var lifetime := Retry.Min(v.notAfter - v.notBefore, 0x7FFF_FFFF_FFFF_FFFF);
            PhaseAt(Some(v), days, now) == RenewalDue <==>
            && v.notBefore <= now <= v.notAfter && v.notAfter - configured <= now
            && (v.notBefore < v.notAfter ==> 3 * (v.notAfter - now) <= lifetime)
  {
    StartIsWindowBeforeEnd(v, days);
  }

  /** In the range that does not wrap: within the configured days of the end, and in the last third of the lifetime. */
  lemma DueInLastThird(v: Version, days: uint32, now: Time)
    requires Distributable(v) && v.notBefore < v.notAfter
    requires days <= 106751 && v.notAfter - v.notBefore < 0x8000_0000_0000_0000
    ensures PhaseAt(Some(v), days, now) == RenewalDue <==>
            now <= v.notAfter && v.notAfter - days as int * DAY <= now
            && 3 * (v.notAfter - now) <= v.notAfter - v.notBefore
    ensures now <= v.notAfter && PhaseAt(Some(v), days, now) != RenewalDue ==> PhaseAt(Some(v), days, now) == Valid
    ensures now > v.notAfter ==> PhaseAt(Some(v), days, now) == Expired
  {
    DueExactly(v, days, now);
  }

  /** What is announced as the next renewal is the first instant at which it is due. */
  lemma NextRenewalIsFirstDue(v: Version, days: uint32)
    requires Distributable(v) && v.notBefore < v.notAfter && days <= 106751
    ensures NextRenewalAt(Some(v), days).Some?
    ensures var next := NextRenewalAt(Some(v), days).value;
            && PhaseAt(Some(v), days, next) == RenewalDue
            && forall now | now < next :: PhaseAt(Some(v), days, now) != RenewalDue
  {
    StartIsWindowBeforeEnd(v, days);
  }

  /** A version that is not served has no phase and no renewal, and neither has none at all. */
  lemma NotServed(v: Option<Version>, days: uint32, now: Time)
    ensures PhaseAt(v, days, now) == Missing <==> v.None?
    ensures PhaseAt(v, days, now) == Revoked <==> v.Some? && (v.value.revokePending || v.value.revokedAt.Some?)
    ensures NextRenewalAt(v, days).None? <==> PhaseAt(v, days, now) == Missing || PhaseAt(v, days, now) == Revoked
  {
  }

  /** No renewal falls due in the first two thirds of a lifetime, whatever is configured: renewals do not loop. */
  lemma FreshVersionIsValid(v: Version, days: uint32, now: Time)
    requires Distributable(v) && v.notBefore < v.notAfter && 3 * (now - v.notBefore) < 2 * (v.notAfter - v.notBefore)
    ensures PhaseAt(Some(v), days, now) == Valid
  {
    StartIsWindowBeforeEnd(v, days);
  }

  lemma SignOfDays(days: uint32)
    ensures ConfiguredWindow(days) >= 0 <==> (days as int * DAY) % TWO_64 < TWO_63
  {
  }

  lemma SignOfWindow(v: Version, days: uint32)
    ensures RenewalWindow(v.notBefore, v.notAfter, days) >= 0 <==> ConfiguredWindow(days) >= 0
  {
    hide ConfiguredWindow;
  }

  /** A renewal falls due at some time if and only if the configured days do not wrap to a negative duration. */
  lemma EverDueExactly(v: Version, days: uint32)
    requires Distributable(v) && v.notBefore <= v.notAfter
    ensures (exists now :: PhaseAt(Some(v), days, now) == RenewalDue) <==> (days as int * DAY) % TWO_64 < TWO_63
  {
    StartIsWindowBeforeEnd(v, days);
    SignOfDays(days);
    SignOfWindow(v, days);
    hide ConfiguredWindow, RenewalWindow, WindowStart;
    if ConfiguredWindow(days) >= 0 {
      assert PhaseAt(Some(v), days, v.notAfter) == RenewalDue;
    }
  }

  /** Up to 106751 days there is no wrap-around; one day more and the version expires unrenewed. */
  lemma DaysThatFit(v: Version, days: uint32)
    requires Distributable(v) && v.notBefore <= v.notAfter
    ensures days <= 106751 ==>
              && ConfiguredWindow(days) == days as int * DAY
              && exists now :: PhaseAt(Some(v), days, now) == RenewalDue
    ensures days == 106752 ==> forall now :: PhaseAt(Some(v), days, now) != RenewalDue
  {
    EverDueExactly(v, days);
  }

  /** The displayed days never exceed the configured ones, and are zero only for an empty window. */
  lemma DisplayedDays(notBefore: Time, notAfter: Time, days: uint32)
    requires days <= 106751 && notBefore < notAfter
    ensures var window := RenewalWindow(notBefore, notAfter, days);
            var shown := RenewalWindowDays(notBefore, notAfter, days);
            && shown <= days && (shown == 0 <==> window == 0)
            && (shown as int * DAY <= window < (shown as int + 1) * DAY || (shown == 1 && window < DAY))
  {
    var window := RenewalWindow(notBefore, notAfter, days);
    assert 0 <= window <= days as int * DAY;
    assert 0 <= window / DAY <= days as int;
  }
}
