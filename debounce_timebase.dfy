/**
  The time base of the button debounce timer (`BUTTON_Init`, EXTI mode).

  The timer clock is first divided down to a 10 kHz counting rate by the
  prescaler, and the counter then overflows (raises its update event) every
  `10000 / DEBOUNCE_FREQ` counts. Both register values are computed in C and
  stored in `uint16_t` variables, so they are truncated to 16 bits.
 */
module DebounceTimeBase {
  import opened CInt

  /** The counting rate the prescaler aims at, in Hz. */
  const COUNTER_HZ: nat := 10000

  /**
    `(SystemCoreClock / 10000) - 1`: `SystemCoreClock` is a `uint32_t`, so the
    subtraction is unsigned 32-bit; the result is then stored in a `uint16_t`.
   */
  function Prescaler(coreClock: uint32): (psc: uint16)
    ensures COUNTER_HZ <= coreClock && coreClock / COUNTER_HZ <= 0x1_0000 ==>
              psc + 1 == coreClock / COUNTER_HZ
    ensures coreClock < COUNTER_HZ ==> psc == 0xFFFF
  {
    ToUint16(ToUint32(coreClock / COUNTER_HZ - 1))
  }

  /**
    `(10000 / DEBOUNCE_FREQ) - 1` in signed `int` arithmetic, stored in a
    `uint16_t`. A frequency above 10 kHz makes the quotient 0 and the
    register wrap to 0xFFFF.
   */
  function Autoreload(debounceFreq: int): (arr: uint16)
    requires debounceFreq != 0
    ensures 1 <= debounceFreq <= COUNTER_HZ ==> arr + 1 == COUNTER_HZ / debounceFreq
    ensures debounceFreq > COUNTER_HZ ==> arr == 0xFFFF
  {
    ToUint16(TruncDiv(COUNTER_HZ, debounceFreq) - 1)
  }

  /**
    The update-event rate of an up-counting timer clocked at `timerClock`
    with clock division 1: one event every (psc + 1) * (arr + 1) clock cycles.
   */
  function UpdateRate(timerClock: nat, psc: uint16, arr: uint16): (hz: nat)
    ensures hz * ((psc + 1) * (arr + 1)) <= timerClock
  {
    timerClock / ((psc + 1) * (arr + 1))
  }

  lemma {:induction false} MulAtLeast(d: nat, b: nat)
    requires d >= 1
    ensures d * b >= b
  {
    if d > 1 {
      MulAtLeast(d - 1, b);
      assert d * b == (d - 1) * b + b;
    }
  }

  /** An exact multiple divides back to its factor. */
  lemma DivideExact(a: nat, b: nat, c: nat)
    requires b > 0 && a == c * b
    ensures a / b == c
  {
    var q, r := a / b, a % b;
    assert a == q * b + r && 0 <= r < b;
    assert (c - q) * b == r by {
      assert c * b - q * b == (c - q) * b;
    }
    if q < c {
      MulAtLeast(c - q, b);
    } else if q > c {
      MulAtLeast(q - c, b);
    }
  }

  /**
    When the core clock is a multiple of 10 kHz (and its prescaler fits in
    16 bits) and the debounce frequency divides 10 kHz, the configured timer
    raises its update event exactly `debounceFreq` times per second.
   */
  lemma DebounceRate(coreClock: uint32, debounceFreq: int)
    requires COUNTER_HZ <= coreClock && coreClock % COUNTER_HZ == 0
    requires coreClock / COUNTER_HZ <= 0x1_0000
    requires 1 <= debounceFreq <= COUNTER_HZ && COUNTER_HZ % debounceFreq == 0
    ensures UpdateRate(coreClock, Prescaler(coreClock), Autoreload(debounceFreq)) == debounceFreq
  {
    var k := coreClock / COUNTER_HZ;
    var m := COUNTER_HZ / debounceFreq;
    assert Prescaler(coreClock) + 1 == k;
    assert Autoreload(debounceFreq) + 1 == m;
    assert coreClock == k * COUNTER_HZ;
    assert COUNTER_HZ == m * debounceFreq;
    assert coreClock == debounceFreq * (k * m) by {
      calc {
        coreClock;
        k * COUNTER_HZ;
        k * (m * debounceFreq);
        debounceFreq * (k * m);
      }
    }
    assert k * m > 0;
    DivideExact(coreClock, k * m, debounceFreq);
  }

  /**
    The values written in the source's own comment: a 72 MHz clock and a
    100 Hz debounce frequency give prescaler 7199 and autoreload 99, that is
    one update event every 10 ms.
   */
  lemma SeventyTwoMegahertzDefaults()
    ensures Prescaler(72_000_000) == 7199
    ensures Autoreload(100) == 99
    ensures UpdateRate(72_000_000, Prescaler(72_000_000), Autoreload(100)) == 100
  {
    DebounceRate(72_000_000, 100);
  }
}
