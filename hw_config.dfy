/**
  The software-visible state of the board that `hw_config.c` drives: the
  GPIO output registers behind the LEDs and the CC3000 chip-select and
  enable lines, the `BUTTON_DEBOUNCED` flag array, the debounce timer's time
  base, the button edge-interrupt lines, and the two SPI DMA channels.

  Every call is one atomic step; interrupts do not preempt a call here.
 */
module HwConfig {
  import opened CInt
  import opened Gpio
  import opened ButtonMailbox
  import opened DebounceTimeBase

  /** The number of LEDs, the length of `LED_PORT` and `LED_PIN`. */
  const LEDn: nat := 2

  /** The value of `CC3000_Write_Enable_Pin`'s argument that powers the CC3000 down. */
  const WLAN_DISABLE: uint8 := 0

  /**
    Where the board's outputs are wired: `LED_PORT`/`LED_PIN` for each LED,
    the CC3000 chip-select and enable pins, and how many GPIO ports exist.
   */
  datatype Wiring = Wiring(leds: seq<Pin>, cs: Pin, en: Pin, portCount: nat)

  /** A pin that exists on the board and drives at least one register bit. */
  predicate Drives(w: Wiring, p: Pin)
  {
    p.port < w.portCount && p.mask != {}
  }

  /** Every output drives its own bits, shared with no other output. */
  predicate ValidWiring(w: Wiring)
  {
    && |w.leds| == LEDn
    && (forall i :: 0 <= i < LEDn ==> Drives(w, w.leds[i]))
    && Drives(w, w.cs) && Drives(w, w.en)
    && (forall i, j :: 0 <= i < LEDn && 0 <= j < LEDn && i != j ==> Disjoint(w.leds[i], w.leds[j]))
    && (forall i :: 0 <= i < LEDn ==> Disjoint(w.leds[i], w.cs) && Disjoint(w.leds[i], w.en))
    && Disjoint(w.cs, w.en)
  }

  /**
    The debounce timer's time base: untouched since reset, or set up by
    `BUTTON_Init` in one-pulse mode with its update interrupt enabled.
   */
  datatype DebounceTimer = Unconfigured | OnePulse(prescaler: uint16, autoreload: uint16)

  /** `CC3000_DMADirection_TypeDef`, including values that are neither RX nor TX. */
  datatype DmaDirection = DmaRx | DmaTx | DmaUnknown(code: int)

  /**
    One DMA channel: whether it is enabled, whether the peripheral is the
    source of the transfer (reception) or its destination (transmission),
    the memory address and the number of bytes to move.
   */
  datatype DmaChannel = DmaChannel(enabled: bool, fromPeripheral: bool, memory: uint32, count: uint16)

  /**
    A channel as the DMA controller leaves it after reset or de-initialisation:
    every configuration bit is 0, and a direction bit of 0 means the peripheral
    is the source.
   */
  const ResetChannel: DmaChannel := DmaChannel(false, true, 0, 0)

  /** A channel after `DMA_DeInit` and `DMA_Init`: set up, not yet enabled. */
  function Configured(fromPeripheral: bool, memory: uint32, count: uint16): DmaChannel
  {
    DmaChannel(false, fromPeripheral, memory, count)
  }

  /** How `Set_System` ends: it returns, or it spins forever after a SysTick error. */
  datatype Startup = Running | Halted

  class Board {
    const wiring: Wiring
    /** `SystemCoreClock`, the core clock frequency in Hz. */
    const coreClock: uint32
    /** `DEBOUNCE_FREQ`, the debounce timer's update rate in Hz. */
    const debounceFreq: int

    /** The output data register of every GPIO port. */
    var odr: Bank
    /** `BUTTON_DEBOUNCED`. */
    const debounced: array<uint8>
    var timer: DebounceTimer
    /** Whether each button's EXTI line is enabled. */
    var buttonEdge: seq<bool>
    /** The SPI reception and transmission DMA channels. */
    var rx: DmaChannel
    var tx: DmaChannel

    ghost predicate Valid()
      reads this
    {
      && ValidWiring(wiring)
      && debounceFreq != 0
      && |odr| == wiring.portCount
      && debounced.Length == BUTTONn
      && |buttonEdge| == BUTTONn
    }

    /** The contents of `BUTTON_DEBOUNCED`. */
    function Mailbox(): Flags
      reads this, debounced
      requires Valid()
    {
      debounced[..]
    }

    predicate LedIsOn(led: nat)
      reads this
      requires Valid() && led < LEDn
    {
      IsHigh(odr, wiring.leds[led])
    }

    predicate LedIsOff(led: nat)
      reads this
      requires Valid() && led < LEDn
    {
      IsLow(odr, wiring.leds[led])
    }

    /** The chip-select line is active low: high means the CC3000 is not selected. */
    predicate CsDeasserted()
      reads this
      requires Valid()
    {
      IsHigh(odr, wiring.cs)
    }

    predicate EnableHigh()
      reads this
      requires Valid()
    {
      IsHigh(odr, wiring.en)
    }

    predicate EnableLow()
      reads this
      requires Valid()
    {
      IsLow(odr, wiring.en)
    }

    /** The board at power-on, with `BUTTON_DEBOUNCED` at its initial `{0, 0}`. */
    constructor (wiring: Wiring, coreClock: uint32, debounceFreq: int, odr0: Bank)
      requires ValidWiring(wiring) && debounceFreq != 0 && |odr0| == wiring.portCount
      ensures Valid() && fresh(debounced)
      ensures this.wiring == wiring && this.coreClock == coreClock && this.debounceFreq == debounceFreq
      ensures odr == odr0 && Mailbox() == [0, 0]
      ensures timer == Unconfigured && buttonEdge == [false, false]
      ensures rx == ResetChannel && tx == ResetChannel
    {
      this.wiring := wiring;
      this.coreClock := coreClock;
      this.debounceFreq := debounceFreq;
      odr := odr0;
      debounced := new uint8[BUTTONn](_ => 0);
      timer := Unconfigured;
      buttonEdge := [false, false];
      rx, tx := ResetChannel, ResetChannel;
    }

    /** `LED_On`: writes the LED's pin mask to its port's bit-set register. */
    method LedOn(led: nat)
      requires Valid() && led < LEDn
      modifies this`odr
      ensures Valid()
      ensures odr == SetPin(old(odr), wiring.leds[led])
      ensures LedIsOn(led)
      ensures forall j :: 0 <= j < LEDn && j != led ==> LedIsOn(j) == old(LedIsOn(j))
    {
      odr := SetPin(odr, wiring.leds[led]);
      forall j | 0 <= j < LEDn && j != led
        ensures LedIsOn(j) == old(LedIsOn(j))
      {
        DisjointPinUntouched(old(odr), wiring.leds[led], wiring.leds[j]);
      }
    }

    /** `LED_Off`: writes the LED's pin mask to its port's bit-reset register. */
    method LedOff(led: nat)
      requires Valid() && led < LEDn
      modifies this`odr
      ensures Valid()
      ensures odr == ClearPin(old(odr), wiring.leds[led])
      ensures LedIsOff(led)
      ensures forall j :: 0 <= j < LEDn && j != led ==> LedIsOff(j) == old(LedIsOff(j))
    {
      odr := ClearPin(odr, wiring.leds[led]);
      forall j | 0 <= j < LEDn && j != led
        ensures LedIsOff(j) == old(LedIsOff(j))
      {
        DisjointPinUntouched(old(odr), wiring.leds[led], wiring.leds[j]);
      }
    }

    /** `LED_Toggle`: `ODR ^= pin` on the LED's port. */
    method LedToggle(led: nat)
      requires Valid() && led < LEDn
      modifies this`odr
      ensures Valid()
      ensures odr == TogglePin(old(odr), wiring.leds[led])
      ensures old(LedIsOn(led)) ==> LedIsOff(led)
      ensures old(LedIsOff(led)) ==> LedIsOn(led)
      ensures forall j :: 0 <= j < LEDn && j != led ==> LedIsOn(j) == old(LedIsOn(j))
    {
      ToggleFlipsLevel(odr, wiring.leds[led]);
      odr := TogglePin(odr, wiring.leds[led]);
      forall j | 0 <= j < LEDn && j != led
        ensures LedIsOn(j) == old(LedIsOn(j))
      {
        DisjointPinUntouched(old(odr), wiring.leds[led], wiring.leds[j]);
      }
    }

    /**
      `BUTTON_Init`. In EXTI mode it sets up the debounce timer's time base,
      clears the button's debounced flag and enables its EXTI line; in GPIO
      mode only the pin is configured, which this model does not track.
     */
    method ButtonInit(button: ButtonId, mode: ButtonMode)
      requires Valid()
      modifies this`timer, this`buttonEdge, debounced
      ensures Valid()
      ensures Mailbox() == ResetOnInit(old(Mailbox()), button, mode)
      ensures mode == ButtonModeExti ==>
                && timer == OnePulse(Prescaler(coreClock), Autoreload(debounceFreq))
                && buttonEdge == old(buttonEdge)[button := true]
      ensures mode == ButtonModeGpio ==> timer == old(timer) && buttonEdge == old(buttonEdge)
    {
      if mode == ButtonModeExti {
        var psc := Prescaler(coreClock);
        var arr := Autoreload(debounceFreq);
        timer := OnePulse(psc, arr);
        debounced[button] := 0;
        buttonEdge := buttonEdge[button := true];
      }
    }

    /**
      `BUTTON_GetDebouncedState`: reads and clears the BUTTON1 flag. The
      `button` argument is accepted and ignored, as in the source.
     */
    method GetDebouncedState(button: ButtonId) returns (state: uint8)
      requires Valid()
      modifies debounced
      ensures Valid()
      ensures (state, Mailbox()) == ReadAndClear(old(Mailbox()))
    {
      if debounced[BUTTON1] != 0 {
        debounced[BUTTON1] := 0;
        state := 1;
      } else {
        state := 0;
      }
    }

    /**
      `Set_System`: switches every LED off, one after the other, sets up
      BUTTON1 in EXTI mode, and then halts if SysTick rejected its reload
      value (`sysTickRejected` stands for `SysTick_Config`'s result).
     */
    method SetSystem(sysTickRejected: bool) returns (outcome: Startup)
      requires Valid()
      modifies this`odr, this`timer, this`buttonEdge, debounced
      ensures Valid()
      ensures odr == ClearEach(old(odr), wiring.leds)
      ensures forall led :: 0 <= led < LEDn ==> LedIsOff(led)
      ensures Bits(odr, wiring.cs) == Bits(old(odr), wiring.cs)
      ensures Bits(odr, wiring.en) == Bits(old(odr), wiring.en)
      ensures Mailbox() == ResetOnInit(old(Mailbox()), BUTTON1, ButtonModeExti)
      ensures timer == OnePulse(Prescaler(coreClock), Autoreload(debounceFreq))
      ensures buttonEdge == old(buttonEdge)[BUTTON1 := true]
      ensures outcome == if sysTickRejected then Halted else Running
    {
      var led := 0;
      while led < LEDn
        invariant 0 <= led <= LEDn && Valid()
        invariant odr == ClearEach(old(odr), wiring.leds[..led])
        invariant Mailbox() == old(Mailbox())
        invariant timer == old(timer) && buttonEdge == old(buttonEdge)
      {
        LedOff(led);
        assert wiring.leds[..led + 1][..led] == wiring.leds[..led];
        led := led + 1;
      }
      assert wiring.leds[..LEDn] == wiring.leds;
      ClearEachLeavesAllLow(old(odr), wiring.leds);
      ClearEachKeepsOthers(old(odr), wiring.leds, wiring.cs);
      ClearEachKeepsOthers(old(odr), wiring.leds, wiring.en);
      ButtonInit(BUTTON1, ButtonModeExti);
      outcome := if sysTickRejected then Halted else Running;
    }

    /**
      `CC3000_Write_Enable_Pin`: drives the enable line high for any value
      other than `WLAN_DISABLE`, low for `WLAN_DISABLE`.
     */
    method WriteEnablePin(val: uint8)
      requires Valid()
      modifies this`odr
      ensures Valid()
      ensures odr == if val != WLAN_DISABLE then SetPin(old(odr), wiring.en)
                     else ClearPin(old(odr), wiring.en)
      ensures EnableHigh() <==> val != WLAN_DISABLE
      ensures EnableLow() <==> val == WLAN_DISABLE
    {
      if val != WLAN_DISABLE {
        odr := SetPin(odr, wiring.en);
      } else {
        odr := ClearPin(odr, wiring.en);
      }
    }

    /**
      `CC3000_WIFI_Init`: deselects the CC3000 (chip-select high), then
      powers it down (enable low). The LEDs are not touched.
     */
    method WifiInit()
      requires Valid()
      modifies this`odr
      ensures Valid()
      ensures odr == ClearPin(SetPin(old(odr), wiring.cs), wiring.en)
      ensures CsDeasserted() && EnableLow()
      ensures forall led :: 0 <= led < LEDn ==> Bits(odr, wiring.leds[led]) == Bits(old(odr), wiring.leds[led])
    {
      odr := SetPin(odr, wiring.cs);
      WriteEnablePin(WLAN_DISABLE);
      DisjointPinUntouched(SetPin(old(odr), wiring.cs), wiring.en, wiring.cs);
      forall led | 0 <= led < LEDn
        ensures Bits(odr, wiring.leds[led]) == Bits(old(odr), wiring.leds[led])
      {
        DisjointPinUntouched(old(odr), wiring.cs, wiring.leds[led]);
        DisjointPinUntouched(SetPin(old(odr), wiring.cs), wiring.en, wiring.leds[led]);
      }
    }

    /**
      `CC3000_DMA_Config`: sets up the channel that matches `direction` for
      a transfer of `numData` bytes at `buffer` (reception reads from the
      peripheral, transmission writes to it). Any other direction changes
      nothing.
     */
    method DmaConfig(direction: DmaDirection, buffer: uint32, numData: uint16)
      requires Valid()
      modifies this`rx, this`tx
      ensures Valid()
      ensures direction == DmaRx ==>
                && !rx.enabled && rx.fromPeripheral && rx.memory == buffer && rx.count == numData
                && tx == old(tx)
      ensures direction == DmaTx ==>
                && !tx.enabled && !tx.fromPeripheral && tx.memory == buffer && tx.count == numData
                && rx == old(rx)
      ensures direction.DmaUnknown? ==> rx == old(rx) && tx == old(tx)
    {
      if direction == DmaRx {
        rx := Configured(true, buffer, numData);
      } else if direction == DmaTx {
        tx := Configured(false, buffer, numData);
      }
    }

    /** `CC3000_SPI_DMA_Channels`: enables or disables both channels together. */
    method SpiDmaChannels(enable: bool)
      requires Valid()
      modifies this`rx, this`tx
      ensures Valid()
      ensures rx.enabled == enable && tx.enabled == enable
      ensures rx == old(rx).(enabled := enable) && tx == old(tx).(enabled := enable)
    {
      rx := rx.(enabled := enable);
      tx := tx.(enabled := enable);
    }
  }
}
