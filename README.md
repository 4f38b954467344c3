# Board hardware configuration of the CC3000 patch programmer, in Dafny

This project models the logic in `src/hw_config.c`, the hardware
configuration layer of an STM32F1 board that talks to a TI CC3000 Wi-Fi
co-processor. Most of that file is vendor-library register setup. The parts
with state effects or arithmetic are modelled:

- the `BUTTON_DEBOUNCED` flag array and its consumer
  `BUTTON_GetDebouncedState`. This is a one-shot mailbox: the consumer reads
  the flag and clears it. It always reads BUTTON1's entry, whatever button
  it is asked about, and the model keeps that behaviour;
- `BUTTON_Init`: the EXTI/GPIO mode branch, the flag reset, and the debounce
  timer's prescaler and autoreload, computed in C integer arithmetic and
  stored in `uint16_t`;
- the GPIO outputs: `LED_On`, `LED_Off`, `LED_Toggle`, the LED loop of
  `Set_System`, and the CC3000 chip-select and enable lines
  (`CC3000_WIFI_Init`, `CC3000_Write_Enable_Pin`);
- the SPI DMA channels: `CC3000_DMA_Config`, which configures the channel
  that matches the direction, and `CC3000_SPI_DMA_Channels`, which switches
  both channels together.

Layout, one module per concern:

- `c_int.dfy` (`CInt`): `uint8_t`, `uint16_t`, `uint32_t`, and C's
  conversions and signed division, written out.
- `debounce_timebase.dfy` (`DebounceTimeBase`): prescaler, autoreload and
  update rate as pure functions, with lemmas.
- `gpio.dfy` (`Gpio`): output data registers and pins. A 16-bit register
  value is the set of its 1-bit positions, and a pin is a port number and
  the set of bits it drives. The bit-set (BSRR), bit-reset (BRR) and
  `ODR ^=` writes are functions on the bank of registers.
- `button_mailbox.dfy` (`ButtonMailbox`): the flag array as a value. It has
  the read-and-clear step, its effect over several calls, and the reset done
  by `BUTTON_Init`.
- `hw_config.dfy` (`HwConfig`): class `Board`, the state that the C
  functions update in place. Each method is specified by the functions
  above and states what is left unchanged.

Pin assignments (`LED_PORT`, `LED_PIN`, the CS and EN pins),
`SystemCoreClock` and `DEBOUNCE_FREQ` are parameters of a `Board`, because
they come from `hw_config.h` and the startup code. `hw_config.h` is not part
of this model. `WLAN_DISABLE` is taken as 0; every contract uses it only
through the comparison `val != WLAN_DISABLE`. `LEDn` and `BUTTONn` are 2,
and BUTTON1 and BUTTON2 are indices 0 and 1, matching the two-entry
initialisers at src/hw_config.c:21-35.

Two behaviours of the code are worth stating up front:

- `BUTTON_GetDebouncedState` ignores its `Button` argument and always reads
  and clears BUTTON1's entry (src/hw_config.c:292-294). The model keeps
  this.
- `hw_config.c` only configures the SPI DMA channels and drives the
  chip-select and enable pins. It does not sequence transfers.

The wiring parameters come with assumptions that some contracts rely on
(`HwConfig.ValidWiring`):

- every LED pin, the CS pin and the EN pin drives at least one register bit;
- no two of these pins share a register bit.

"Every other LED keeps its state" (`LedOn`, `LedOff`, `LedToggle`) and "the
LED bits are unchanged" (`WifiInit`) depend on the pins being disjoint.
`EnableHigh() <==> val != WLAN_DISABLE` (`WriteEnablePin`) depends on the EN
pin driving at least one bit. The header macro `CC3000_CS_HIGH()`
(src/hw_config.c:319) is taken to be a bit-set write of the CS pin.

## Model

| member | source | states |
|---|---|---|
| CInt.ToUint16 | src/hw_config.c:206-207 | storing into `uint16_t` keeps in-range values and otherwise differs by a multiple of 2^16 |
| CInt.ToUint32 | src/hw_config.c:206 | unsigned 32-bit arithmetic keeps in-range values and otherwise differs by a multiple of 2^32 |
| CInt.TruncDiv | src/hw_config.c:207 | C's signed `/` truncates toward zero: it agrees with floor division on non-negative operands, the quotient has the sign of the operands' product, and the remainder left on the dividend's side is smaller than the divisor's magnitude |
| DebounceTimeBase.Prescaler | src/hw_config.c:206 | if 10000 <= clock and clock/10000 fits in 16 bits, prescaler + 1 == clock / 10000; a clock below 10 kHz wraps the register to 0xFFFF |
| DebounceTimeBase.Autoreload | src/hw_config.c:207 | for 1 <= DEBOUNCE_FREQ <= 10000, autoreload + 1 == 10000 / DEBOUNCE_FREQ; a frequency above 10 kHz wraps the register to 0xFFFF |
| DebounceTimeBase.DebounceRate | src/hw_config.c:203-207 | when 10 kHz divides the clock and DEBOUNCE_FREQ divides 10 kHz, clock / ((psc+1)(arr+1)) equals DEBOUNCE_FREQ exactly |
| DebounceTimeBase.SeventyTwoMegahertzDefaults | src/hw_config.c:203-205 | 72 MHz and 100 Hz give prescaler 7199, autoreload 99 and a 100 Hz (10 ms) update rate |
| Gpio.SetPin | src/hw_config.c:142 | after a BSRR write the pin's bits are all 1; every other bit of that port and every other port is unchanged |
| Gpio.ClearPin | src/hw_config.c:155 | after a BRR write the pin's bits are all 0; every other bit of that port and every other port is unchanged |
| Gpio.TogglePin | src/hw_config.c:168 | `ODR ^= pin` turns exactly the pin's bits into their complement; every other bit is unchanged |
| Gpio.ToggleTwiceRestores | src/hw_config.c:168 | toggling the same pin twice restores the whole register bank |
| Gpio.ToggleFlipsLevel | src/hw_config.c:168 | a toggle turns a high pin low and a low pin high |
| Gpio.DisjointPinUntouched | src/hw_config.c:140-169 | setting, clearing or toggling one pin leaves the bits of any pin with no shared bit unchanged |
| Gpio.ClearKeepsLow | src/hw_config.c:155 | clearing a pin never raises a bit of another pin that was low |
| Gpio.ClearEachLeavesAllLow | src/hw_config.c:65-69 | after clearing a list of pins one by one, every pin in the list is low, whatever the registers held before |
| Gpio.ClearEachKeepsOthers | src/hw_config.c:65-69 | clearing a list of pins leaves the bits of every pin disjoint from the list as they were |
| ButtonMailbox.ReadAndClear | src/hw_config.c:290-298 | returns 1 exactly when BUTTON1's flag was nonzero and 0 otherwise; BUTTON1's flag is 0 afterwards; BUTTON2's flag is unchanged |
| ButtonMailbox.ResetOnInit | src/hw_config.c:198-248 | in EXTI mode the initialised button's flag becomes 0; no other entry changes; in GPIO mode the array is unchanged |
| ButtonMailbox.QuietMailboxReadsZero | src/hw_config.c:292-297 | once BUTTON1's flag is clear, every later call returns 0 |
| ButtonMailbox.ConsumedOnce | src/hw_config.c:292-297 | of n consecutive calls with no new event, the first returns 1 exactly when the flag was set and all the others return 0 |
| ButtonMailbox.Button1EventReportedOnce | src/hw_config.c:290-298 | after a BUTTON1 event, two consecutive calls return 1 and then 0 |
| ButtonMailbox.Button2EntryIgnored | src/hw_config.c:290-298 | what any number of calls return never depends on BUTTON2's entry, so a BUTTON2 event alone is never reported |
| HwConfig.Board.constructor | src/hw_config.c:29 | at power-on both `BUTTON_DEBOUNCED` entries are 0, the timer is unconfigured, both EXTI lines are off, and both DMA channels are in their reset state (disabled, every configuration bit 0) |
| HwConfig.Board.LedOn | src/hw_config.c:140-143 | the LED is on, the register bank changes by exactly a bit-set write of its pin, and every other LED keeps its state |
| HwConfig.Board.LedOff | src/hw_config.c:153-156 | the LED is off, the register bank changes by exactly a bit-reset write of its pin, and every other LED keeps its state |
| HwConfig.Board.LedToggle | src/hw_config.c:166-169 | an on LED becomes off and an off LED becomes on; only its pin's bits flip; every other LED keeps its state |
| HwConfig.Board.ButtonInit | src/hw_config.c:184-249 | EXTI mode sets the one-pulse time base to `Prescaler`/`Autoreload`, clears the button's flag and enables its EXTI line; GPIO mode changes none of these |
| HwConfig.Board.GetDebouncedState | src/hw_config.c:290-298 | the result and the new flag array are one `ReadAndClear` step of the old array, whatever `button` is passed |
| HwConfig.Board.SetSystem | src/hw_config.c:45-84 | after the LED loop every LED is off and the CS and EN bits are unchanged; BUTTON1 is initialised in EXTI mode; the outcome is `Halted` exactly when SysTick rejects its reload value |
| HwConfig.Board.WriteEnablePin | src/hw_config.c:510-521 | the enable line is high exactly when `val != WLAN_DISABLE` and low exactly when `val == WLAN_DISABLE`; nothing else changes |
| HwConfig.Board.WifiInit | src/hw_config.c:305-327 | afterwards chip-select is high (CC3000 deselected) and enable is low (CC3000 off); the LED bits are unchanged |
| HwConfig.Board.DmaConfig | src/hw_config.c:378-410 | RX leaves the reception channel disabled, reading from the peripheral, with `NumData` bytes at `buffer`, and the TX channel untouched; TX does the same for the transmission channel, which writes to the peripheral; any other direction changes nothing |
| HwConfig.Board.SpiDmaChannels | src/hw_config.c:445-451 | both channels end in the requested enabled state; nothing else about them changes |

## Left out

- Clock enabling, NVIC priority grouping and priorities, GPIO mode and speed setup, the SPI parameter block, and the EXTI line wiring (src/hw_config.c:55-61, 93-107, 117-130, 251-267, 334-371, 459-508) are vendor-library register setup and are not modelled. From `BUTTON_EXTI_Config`, only "this button's EXTI line is enabled" is recorded.
- `LED_Init`, `NVIC_Configuration`, `CC3000_SPI_Init`, `CC3000_Interrupt_Enable` and `CC3000_Interrupt_Disable` are peripheral setup and are not modelled.
- `HwConfig.Board.ButtonInit`, `HwConfig.Board.SetSystem`: `GPIO_Init` on an input with a pull-up or pull-down writes that pin's output data bit, to BSRR for a pull-up and to BRR for a pull-down. This happens for the CC3000 interrupt pin, which is set up as a pull-up input (src/hw_config.c:470). It also happens for the button pin (src/hw_config.c:194-196) when its mode is a pull-up or pull-down input. `odr` does not record these writes. Both methods therefore state the output data registers exactly only for the LED, CS and EN pins, which these writes leave alone as long as those pins are distinct from the button and interrupt pins.
- `CC3000_SPI_DMA_Init` (src/hw_config.c:412-443) is not modelled. `DmaConfig` and `SpiDmaChannels` cover its two `CC3000_DMA_Config` calls and its enabling of both channels. Three parts are not covered: the transfer-complete interrupt it enables on the TX channel (`DMA_ITConfig`, src/hw_config.c:430), the SPI DMA requests, and the NVIC and SPI setup.
- hw_config.c contains no SPI transfer state machine (chip-select sequencing, data-ready flag), so none is modelled.
- `BUTTON_GetState` and `CC3000_Read_Interrupt_Pin` are raw reads of hardware inputs with no state effect, so they are not modelled.
- The interrupt handlers that set `BUTTON_DEBOUNCED` (button edge, debounce-timer expiry) are not in this file. `ButtonMailbox.Raise` stands for their effect as an environment action, and it appears only in lemmas.
- Interrupt preemption and the `__IO` (volatile) qualifier on `BUTTON_DEBOUNCED`. Every call is one atomic step, so a flag set between the read and the clear in `BUTTON_GetDebouncedState` is not modelled.
- `HwConfig.Board.SetSystem`: `SysTick_Config` is CMSIS code that is not part of this model. Its result is a parameter. The failure loop is the terminal outcome `Halted`, not a non-terminating loop. The SysTick priority set afterwards is not modelled.
- Output data registers are 32 bits wide, but only the low 16 bits drive pins. The model keeps those 16 bits as a set of bit positions. Beyond "set these bits" and "clear these bits", the BSRR and BRR registers' hardware semantics are not modelled.
- `DebounceTimeBase.UpdateRate` takes the timer's input clock to be `SystemCoreClock`, as the source comment does. The timer clock doubling that applies when the APB prescaler is not 1 is not modelled.
- The DMA channel fields the source always sets to the same value are not recorded: peripheral address, increment modes, data sizes, normal mode, priority, memory-to-memory off. The DMA clock enable is not recorded either. `HwConfig.Board.DmaConfig`'s "disabled" relies on the vendor library's `DMA_DeInit`, which resets the channel (enable bit cleared) before `DMA_Init` writes the configuration.
- `HwConfig.Board.LedOn`, `HwConfig.Board.LedOff`, `HwConfig.Board.LedToggle`: the source does not check the LED index. The model requires a valid index (`led < LEDn`), because an index outside the array is undefined behaviour in C. `ButtonId` is the domain of the `Button_TypeDef` enumeration (BUTTON1, BUTTON2), the type of every button parameter. `BUTTON_GetDebouncedState` never indexes with its argument (src/hw_config.c:292-294).
- `DebounceTimeBase.Autoreload` requires `DEBOUNCE_FREQ != 0`, because the source divides by it.
