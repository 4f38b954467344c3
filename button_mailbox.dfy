/**
  The `BUTTON_DEBOUNCED` flag array as a value: one `uint8_t` per button,
  written by interrupt handlers when a debounced transition has settled and
  consumed by `BUTTON_GetDebouncedState`, which reads and clears it.

  The consumer always looks at the entry of BUTTON1, whatever button it is
  asked about; that is how the source behaves and it is kept here.
 */
module ButtonMailbox {
  import opened CInt

  const BUTTON1: nat := 0
  const BUTTON2: nat := 1
  /** The number of buttons, the length of the flag array. */
  const BUTTONn: nat := 2

  type ButtonId = b: nat | b < BUTTONn

  /** The contents of `BUTTON_DEBOUNCED`. */
  type Flags = f: seq<uint8> | |f| == BUTTONn witness [0, 0]

  datatype ButtonMode = ButtonModeGpio | ButtonModeExti

  /**
    One call of `BUTTON_GetDebouncedState`: the value it returns (0 or 1)
    and the flag array it leaves behind.
   */
  function ReadAndClear(flags: Flags): (r: (uint8, Flags))
    ensures r.0 == 1 <==> flags[BUTTON1] != 0
    ensures r.0 == 0 <==> flags[BUTTON1] == 0
    ensures r.1[BUTTON1] == 0
    ensures r.1[BUTTON2] == flags[BUTTON2]
  {
    if flags[BUTTON1] != 0 then (1, flags[BUTTON1 := 0]) else (0, flags)
  }

  /**
    The flag array after `BUTTON_Init(button, mode)`: in EXTI mode the
    button's entry is cleared, in GPIO mode the array is left alone.
   */
  function ResetOnInit(flags: Flags, button: ButtonId, mode: ButtonMode): (r: Flags)
    ensures mode == ButtonModeExti ==> r[button] == 0
    ensures forall b: ButtonId :: b != button ==> r[b] == flags[b]
    ensures mode == ButtonModeGpio ==> r == flags
  {
    match mode
    case ButtonModeExti => flags[button := 0]
    case ButtonModeGpio => flags
  }

  /**
    An action of the environment, not of this code: an interrupt handler
    outside the modelled file records a settled transition of `button` by
    storing a nonzero value in its entry.
   */
  function Raise(flags: Flags, button: ButtonId, v: uint8): (r: Flags)
    requires v != 0
    ensures r[button] != 0
    ensures forall b: ButtonId :: b != button ==> r[b] == flags[b]
  {
    flags[button := v]
  }

  /** The values returned by `n` consecutive calls with no event in between. */
  function ReadMany(flags: Flags, n: nat): (rs: seq<uint8>)
    ensures |rs| == n
    decreases n
  {
    if n == 0 then []
    else
      var (v, rest) := ReadAndClear(flags);
      [v] + ReadMany(rest, n - 1)
  }

  /** A consumer reading a cleared BUTTON1 entry keeps reading 0. */
  lemma {:induction false} QuietMailboxReadsZero(flags: Flags, n: nat)
    requires flags[BUTTON1] == 0
    ensures forall k :: 0 <= k < n ==> ReadMany(flags, n)[k] == 0
    decreases n
  {
    if n > 0 {
      QuietMailboxReadsZero(ReadAndClear(flags).1, n - 1);
    }
  }

  /**
    The mailbox is consumed once: of `n` consecutive calls, the first
    returns 1 exactly when the BUTTON1 entry was set, and all later ones
    return 0. In particular two calls return 1 and then 0 after an event.
   */
  lemma {:induction false} ConsumedOnce(flags: Flags, n: nat)
    requires n >= 1
    ensures ReadMany(flags, n)[0] == (if flags[BUTTON1] != 0 then 1 else 0)
    ensures forall k :: 1 <= k < n ==> ReadMany(flags, n)[k] == 0
  {
    var rest := ReadAndClear(flags).1;
    QuietMailboxReadsZero(rest, n - 1);
    assert forall k :: 1 <= k < n ==> ReadMany(flags, n)[k] == ReadMany(rest, n - 1)[k - 1];
  }

  /** After a BUTTON1 event, two calls report it once: 1 and then 0. */
  lemma Button1EventReportedOnce(flags: Flags, v: uint8)
    requires v != 0
    ensures ReadMany(Raise(flags, BUTTON1, v), 2) == [1, 0]
  {
    ConsumedOnce(Raise(flags, BUTTON1, v), 2);
  }

  /**
    What the consumer reports never depends on the BUTTON2 entry, which it
    neither reads nor clears: an event raised for BUTTON2 alone is never
    reported.
   */
  lemma {:induction false} Button2EntryIgnored(flags: Flags, v: uint8, n: nat)
    ensures ReadMany(flags[BUTTON2 := v], n) == ReadMany(flags, n)
    decreases n
  {
    if n > 0 {
      var other := flags[BUTTON2 := v];
      assert ReadAndClear(other).0 == ReadAndClear(flags).0;
      assert ReadAndClear(other).1 == ReadAndClear(flags).1[BUTTON2 := v];
      Button2EntryIgnored(ReadAndClear(flags).1, v, n - 1);
    }
  }
}
