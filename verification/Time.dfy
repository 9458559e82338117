/**
 Time arithmetic of lib/types.h.  `time_add` carries only when the nanoseconds exceed 10^9
 strictly, so nanoseconds range over the closed interval [0, 10^9] and one instant can have two
 representations: (s, 10^9) and (s + 1, 0).
 */
module Time {

  const NS: int := 1_000_000_000
  const INT_MAX: int := 0x7fff_ffff

  datatype Time = Time(sec: int, nsec: int)

  predicate InRange(t: Time) {
    0 <= t.nsec <= NS
  }

  /** Total nanoseconds. */
  function Instant(t: Time): int {
    t.sec * NS + t.nsec
  }

  /** time_add: exact, stays in range, and its intermediate sum fits in an `int`. */
  function Add(a: Time, b: Time): (r: Time)
    ensures Instant(r) == Instant(a) + Instant(b)
    ensures InRange(a) && InRange(b) ==> InRange(r) && 0 <= a.nsec + b.nsec <= INT_MAX
  {
    var s := Time(a.sec + b.sec, a.nsec + b.nsec);
    if s.nsec > NS then Time(s.sec + 1, s.nsec - NS) else s
  }

  /** time_sub: exact and in range; the seconds are non-negative exactly when a is not before b. */
  function Sub(a: Time, b: Time): (r: Time)
    ensures Instant(r) == Instant(a) - Instant(b)
    ensures InRange(a) && InRange(b) ==> InRange(r) && (r.sec >= 0 <==> Cmp(a, b) >= 0)
  {
    if a.nsec >= b.nsec then Time(a.sec - b.sec, a.nsec - b.nsec)
    else Time(a.sec - (b.sec + 1), a.nsec + (NS - b.nsec))
  }

  /** time_cmp: a total order on representations, which follows the order of instants except that
      it separates the two representations of one instant. */
  function Cmp(a: Time, b: Time): (r: int)
    ensures r == 0 <==> a == b
    ensures InRange(a) && InRange(b) ==>
              (r == -1 <==> Instant(a) < Instant(b) || (b.sec == a.sec + 1 && a.nsec == NS && b.nsec == 0))
    ensures InRange(a) && InRange(b) ==>
              (r == 1 <==> Instant(b) < Instant(a) || (a.sec == b.sec + 1 && b.nsec == NS && a.nsec == 0))
  {
    if a.sec < b.sec then -1
    else if a.sec > b.sec then 1
    else if a.nsec < b.nsec then -1
    else if a.nsec > b.nsec then 1
    else 0
  }

  /** k_time_init: half of a time that is not negative, rounded down. */
  function Half(t: Time): (r: Time)
    requires InRange(t) && t.sec >= 0
    ensures InRange(r) && r.sec >= 0 && Instant(r) == Instant(t) / 2
  {
    Time(t.sec / 2, t.nsec / 2 + if t.sec % 2 != 0 then 500_000_000 else 0)
  }
}
