# avrTWI master engine in Dafny

This project models the TWI (I2C) master driver of an ATmega328, `avrTWI/avrTWI.c`, and the
constant table of `avrTWI/avrTWI.h`. The driver has five operations:

- `twi_init` programs the bit-rate divisor.
- `twi_start` sends a START condition and then the 7-bit address with the direction bit.
- `twi_stop` sends a STOP condition.
- `twi_readNak` receives one byte and does not acknowledge it.
- `twi_write_byte` sends one byte.

Each operation writes the peripheral's registers `TWCR`, `TWSR`, `TWDR` and `TWBR`, then spins on a
flag. The waits in `twi_start` and `twi_stop` have a budget; the other two do not.

Files and modules:

- `codes.dfy`, module `TwiCodes`: the status codes, the direction constants, the `0xF8` status mask and
  a `Status` datatype with `Code`/`Decode`.
- `wait.dfy`, module `TwiWait`: the bounded wait `while (!event && twi_timer--) ;` as a function of a
  script of flag observations, in exact C semantics, with lemmas for each way it ends. Also
  `FirstReady`, the specification of the unbounded waits.
- `driver.dfy`, module `TwiDriver`: class `Twi`, which holds the four registers as `bv8` fields and
  a scripted peripheral. It has one method per C function, and each method is proved against pure
  functions (`StartResult`, `WriteResult`, `AddressByte`, `Divisor`, `Wait`). Lemmas about those
  functions state the driver's promises.
- `scenarios.dfy`, module `TwiScenarios`: whole transactions against concrete scripts, using only
  the class's contracts.

The peripheral is an environment given as data:

- `flags` holds one entry per read of the polled bit. An entry says whether that read shows the
  awaited event: TWINT set, or for `twi_stop` TWSTO cleared.
- `statuses` holds the status byte the peripheral puts in `TWSR` for each action that ends with
  TWINT. These actions are the START, the address, a data byte and a received byte.
- `inbound` holds the bytes a slave sends.

The ghost field `actions` records every write the driver makes to `TWCR`, together with the byte
`TWDR` holds at that moment. The contracts therefore state the order of the register writes, not
only their final values: a data byte or an address byte is in `TWDR` before the transfer that
sends it is triggered.

Once a script is used up the peripheral is silent: no later poll sees the event, and the registers
keep their values.

The wait loop follows C exactly. `twi_timer` is a `uint32_t`. The flag is read first. When the flag
is clear, the counter is tested and then post-decremented. If the flag never shows, the last test
sees 0 and the counter wraps to `0xFFFFFFFF`. The `twi_timer == 0` timeout test then fails, and
execution falls through to the status check. The timeout codes 9 and 7 are returned only when the
flag first shows on the 256th poll (`WaitTimesOutIff`, `StartTimeoutIff`).

Two behaviours of the code are worth stating on their own. The first differs from what the code's
own branches suggest was intended; the second is simply what the code does. The model keeps the
code's behaviour and proves it:

- A timeout return exists for each START-phase wait: `if(twi_timer==0) return 9` and `return 7`
  (`avrTWI.c` lines 74 and 90), with the budget named "I2C timer max delay" (lines 38-39). These
  branches evidently mean "the budget was exhausted". The post-decrement makes them fire only when
  the flag shows on the very last poll. A silent peripheral gets 8, or reaches the address phase
  (`SilentStartIsNotTimeout`, `TwiScenarios.SilentBusStart`).
- The address check (lines 92-94) accepts either ACK code (0x18 or 0x40) whatever the requested
  direction, so a write request answered with the master-receiver ACK passes (`AddressAckEitherDirection`,
  `TwiScenarios.WriteAcceptsReceiverAck`).

Values that come from outside the repository: avr-libc's `util/twi.h` and `avr/io.h` are not part
of this model. The model takes these values from them:

- `TW_NO_INFO` (also the status mask) is `0xF8`.
- The `TW_*` codes equal the `TWI_*` codes of `avrTWI.h`.
- The TWCR bit positions are TWINT 7, TWEA 6, TWSTA 5, TWSTO 4, TWWC 3, TWEN 2 and TWIE 0.
- The reset values are `TWCR = 0`, `TWSR = 0xF8`, `TWDR = 0xFF` and `TWBR = 0`.
- `F_CPU` is a build definition. The model uses 16 MHz, the clock named in the comment at
  `avrTWI.c` line 45.

## Model

| member | source | states |
|---|---|---|
| TwiCodes.Mask | avrTWI/avrTWI.c:77-78 | masking with 0xF8 keeps the five status bits and drops only bits 2..0 (the reserved bit 2 and the prescaler bits 1..0); the result is a multiple of 8 and masking it again changes nothing |
| TwiCodes.Code | avrTWI/avrTWI.h:10-23 | gives each status the value of its table entry; every code lies between TWI_START (0x08) and TWI_MRX_DATA_NACK (0x58) |
| TwiCodes.Decode | avrTWI/avrTWI.h:10-23 | a byte decodes to the status whose code it is, and decodes to nothing exactly when no status has that code |
| TwiCodes.DecodeCode | avrTWI/avrTWI.h:10-23 | decoding any status's code gives that status back |
| TwiCodes.CodesDistinct | avrTWI/avrTWI.h:10-23 | the ten status codes are pairwise distinct |
| TwiCodes.MaskKeepsCodes | avrTWI/avrTWI.h:10-23 | every status code is a multiple of 8, so masking leaves it unchanged |
| TwiCodes.MaskedMatch | avrTWI/avrTWI.c:93-94 | a masked status byte equals a code exactly when it decodes to that status, whatever its prescaler bits |
| TwiCodes.AddressNackIsNotAck | avrTWI/avrTWI.h:14-21 | the address-NACK codes 0x20 and 0x48 differ from both address-ACK codes |
| TwiCodes.DataNackIsNotAck | avrTWI/avrTWI.h:16-17 | the data-NACK code 0x30 differs from the data-ACK code 0x28 |
| TwiCodes.DirectionIsBitZero | avrTWI/avrTWI.h:29-32 | TWI_READ and TWI_WRITE differ and use only bit 0; I2C_WRITE equals TWI_WRITE |
| TwiWait.Decrement | avrTWI/avrTWI.c:64 | post-decrementing the unsigned 32-bit counter subtracts one, except that 0 wraps to 0xFFFFFFFF |
| TwiWait.Drop | avrTWI/avrTWI.c:73 | after n polls, poll j of the rest of the script is poll n + j of the original |
| TwiWait.WaitFrom | avrTWI/avrTWI.c:72-73 | the wait ends within timer + 1 polls; no earlier poll saw the event; it ends either on a poll that sees the event or on the last poll the budget allows |
| TwiWait.Wait | avrTWI/avrTWI.c:88-89 | every bounded wait reads the flag at least once and at most 256 times, whatever the script |
| TwiWait.WaitSeenAt | avrTWI/avrTWI.c:73 | when the event is first seen on poll j, the wait stops there, with the counter decremented once per earlier poll |
| TwiWait.WaitNeverSeen | avrTWI/avrTWI.c:73 | when the event is never seen, the wait uses its whole budget and leaves the counter at 0xFFFFFFFF |
| TwiWait.WaitSeenEarly | avrTWI/avrTWI.c:72-74 | flag first seen on poll i < 255: the counter is 255 - i, which is not 0, so no timeout code |
| TwiWait.WaitSeenLast | avrTWI/avrTWI.c:88-90 | flag first seen on poll 255: the counter is 0, so the timeout code is returned |
| TwiWait.WaitNeverReady | avrTWI/avrTWI.c:72-74 | flag never seen: the counter wraps to 0xFFFFFFFF and the timeout test fails |
| TwiWait.WaitTimesOutIff | avrTWI/avrTWI.c:72-74 | the counter is 0 after the wait exactly when the flag is first seen on the 256th poll |
| TwiWait.FirstReady | avrTWI/avrTWI.c:123 | when the script shows the flag at all, it gives the first poll that shows it |
| TwiDriver.Divisor | avrTWI/avrTWI.c:44-48 | the divisor d satisfies 16 + 2d <= F_CPU/SCL < 16 + 2(d + 1): it is the largest divisor whose bus clock F_CPU/(16 + 2d) is still at least the target, and d + 1 would fall below it |
| TwiDriver.BuildDivisor | avrTWI/avrTWI.c:44-48 | for 16 MHz and 400 kHz the divisor is 12, above the stability floor of 10, and 16 MHz / (16 + 2·12) is exactly 400 kHz |
| TwiDriver.AddressByte | avrTWI/avrTWI.c:81-83 | for a direction of 0 or 1 the byte is 2·address + direction modulo 256; halving it gives the address modulo 128, and its parity is the direction |
| TwiDriver.AddressByteFields | avrTWI/avrTWI.c:81-83 | the low 7 address bits are bits 7..1 of the address byte, and the direction is bit 0 |
| TwiDriver.AddressTopBitLost | avrTWI/avrTWI.c:81 | flipping the address's top bit leaves the address byte unchanged |
| TwiDriver.DirectionTouchesBitZero | avrTWI/avrTWI.c:83 | the address bytes for read and for write differ only in bit 0, and I2C_WRITE gives the same byte as TWI_WRITE |
| TwiDriver.StartResult | avrTWI/avrTWI.c:74-97 | the start returns only 0, 6, 7, 8 or 9, one code per phase: 9 exactly when the first wait leaves 0; 8 exactly when the first wait did not and the masked status after START is neither START nor repeated START; 7 exactly when the START checks passed and the second wait leaves 0; 6 exactly when both waits left a nonzero counter, the START status was valid and the masked address status is no address ACK; 0 exactly when both counters are nonzero, the masked status after START is START or repeated START, and the masked status after the address is an address ACK of either direction |
| TwiDriver.WriteResult | avrTWI/avrTWI.c:148-151 | returns 0 or 1, and 0 exactly when the masked status is "data transmitted, ACK received" |
| TwiDriver.AddressNackFails | avrTWI/avrTWI.c:93-94 | an address NACK in either direction never lets the start return 0, and once both waits and the START status passed it gives exactly 6 |
| TwiDriver.AddressAckEitherDirection | avrTWI/avrTWI.c:93-94 | the master-receiver ACK 0x40 is accepted exactly like the master-transmitter ACK 0x18, whatever the requested direction |
| TwiDriver.DataNackFails | avrTWI/avrTWI.c:149-150 | a data NACK makes the write return 1 |
| TwiDriver.StartTimeoutIff | avrTWI/avrTWI.c:71-74 | the start returns 9 exactly when TWINT is first seen on the 256th poll after the START |
| TwiDriver.AddressTimeoutIff | avrTWI/avrTWI.c:87-90 | once the START phase passed, the start returns 7 exactly when TWINT is first seen on the 256th poll after the address |
| TwiDriver.SilentStartIsNotTimeout | avrTWI/avrTWI.c:72-78 | if TWINT never rises after the START, a status that is not a START gives 8, not the timeout code 9 |
| TwiDriver.StartActions | avrTWI/avrTWI.c:66-85 | twi_start writes TWCR once, with the START command and whatever TWDR held, when it returns 9 or 8, and otherwise twice, the second time a transfer |
| TwiDriver.Twi.Poll | avrTWI/avrTWI.c:73 | one read of the polled bit gives the script's next entry, or no event once the script is used up, and consumes that entry |
| TwiDriver.Twi.Trigger | avrTWI/avrTWI.c:84-85 | TWCR takes the command; the write is recorded together with what TWDR holds at that moment; TWSR takes the next scripted status, or keeps its value once the script is used up |
| TwiDriver.Twi.Init | avrTWI/avrTWI.c:42-59 | TWSR becomes 0 and TWBR the divisor for the build's clocks; both depend only on constants, so a second call changes nothing |
| TwiDriver.Twi.BoundedWait | avrTWI/avrTWI.c:110-111 | the loop leaves the counter that Wait gives for the script, and consumes exactly Wait's number of polls |
| TwiDriver.Twi.AwaitFlag | avrTWI/avrTWI.c:146 | the unbounded poll consumes the script up to and including the first poll that shows the flag |
| TwiDriver.Twi.Start | avrTWI/avrTWI.c:62-99 | the code returned is StartResult of the two waits and the two statuses; after 9 or 8 the address was never loaded and the only TWCR write was the START; otherwise the second TWCR write is a transfer made while TWDR held AddressByte(sAddress, twiRW), and the second wait's polls are consumed |
| TwiDriver.Twi.SendAddress | avrTWI/avrTWI.c:80-90 | the address byte is in TWDR when the transfer is triggered; TWSR takes the next scripted status and the wait leaves Wait's counter and consumes Wait's polls |
| TwiDriver.Twi.Stop | avrTWI/avrTWI.c:102-113 | TWCR holds the STOP command, that write is recorded, and the bounded wait's polls are consumed; the outcome of the wait is ignored, and sAddress has no effect |
| TwiDriver.Twi.ReadNak | avrTWI/avrTWI.c:120-127 | TWCR is written once, without TWEA, so no ACK is sent; the result is the byte the slave presented in TWDR, read once TWINT is seen |
| TwiDriver.Twi.WriteByte | avrTWI/avrTWI.c:137-153 | the only TWCR write is a transfer made while TWDR already held the data; the code is WriteResult of the status the peripheral presents |
| TwiScenarios.AckingSlaveWrite | avrTWI/avrTWI.c:62-153 | against a slave that acknowledges everything, start(addr, write) then write_byte(x) both return 0 for every address and byte |
| TwiScenarios.AckingSlaveRead | avrTWI/avrTWI.c:62-127 | against an acknowledging slave, start(addr, read) returns 0 and readNak returns exactly the byte the slave sent |
| TwiScenarios.AbsentSlave | avrTWI/avrTWI.c:93-94 | an address NACK makes start return 6, not a timeout code |
| TwiScenarios.NackedData | avrTWI/avrTWI.c:149-150 | a NACKed data byte after a successful start makes write_byte return 1 |
| TwiScenarios.WriteAcceptsReceiverAck | avrTWI/avrTWI.c:93-94 | a write request answered with 0x40 still makes start return 0 |
| TwiScenarios.StartTimeoutOnLastPoll | avrTWI/avrTWI.c:72-74 | TWINT first shown on the 256th poll makes start return 9 |
| TwiScenarios.SilentBusStart | avrTWI/avrTWI.c:72-78 | a peripheral that never raises TWINT and reports 0xF8 makes start return 8, not 9 |
| TwiScenarios.InitTwice | avrTWI/avrTWI.c:47-48 | two calls of twi_init program the same divisor, 12, and the prescaler bits 0 |

## Left out

- Real hardware: the volatile semantics of the registers, electrical timing, and when TWINT and TWSTO actually change. The peripheral is the script described above. `TWSR` (and `TWDR` for a receive) takes its new value when the driver triggers the action, not when TWINT rises. The driver reads these registers only after its wait, so it cannot tell the difference.
- The `TWCR` field holds the command the driver last wrote. The TWINT and TWSTO bits that the hardware changes are not stored in it; each read of them comes from the script.
- Wall-clock length of the wait budgets: it depends on CPU and bus speed, not on the code.
- TwiDriver.Twi.ReadNak: assumes a script that eventually shows TWINT (`true in flags`). The unbounded poll at `avrTWI.c` line 123 hangs forever otherwise, and the model does not cover that hang.
- TwiDriver.Twi.WriteByte: the same assumption and reason, for the unbounded poll at line 146.
- TwiDriver.Twi.AwaitFlag: the same assumption, being the poll both of those use.
- TwiDriver.Divisor: covers only configurations with `F_CPU / SCL_CLOCK >= 16`. Below that, the C expression's value depends on whether the build defines `F_CPU` as signed or unsigned, and that definition is outside the repository.
- The unused state `twi_buffer`, `twi_pointer`, `twi_length` and `MAX_TWI_TRY`: no code reads or writes it.
- The commented-out interrupt mode and the multi-byte `twi_write`/`twi_read`: they exist only as a TODO in `avrTWI.h`.
- `TWI_ACK` and `TWI_NACK` are declared as constants, but no operation uses them.
- Multi-master arbitration, clock stretching and concurrency: the hardware handles the first two, and all callers are single-threaded.
- The caller contract that every successful start is followed by one stop: the code does not enforce it.
