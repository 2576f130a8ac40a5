/** The TWI (I2C) master engine of avrTWI.c: initialisation, START with
    address and direction, STOP, one NACKed read and one write, driven
    through the peripheral's four registers.

    The peripheral itself is a script. Each read of the bit the driver polls
    takes the next entry of `flags` (see TwiWait). Each action that ends with
    TWINT set (START, address, data byte, received byte) presents the next
    byte of `statuses` in TWSR when the driver triggers it, and a receive also
    presents the next byte of `inbound` in TWDR. When a script runs out the
    peripheral stays silent: polls never see the event and the registers keep
    their values. */
module TwiDriver {
  import opened TwiCodes
  import opened TwiWait

  // TWCR bit positions of the ATmega328
  const TWINT: nat := 7  // interrupt flag
  const TWEA: nat := 6   // enable acknowledge
  const TWSTA: nat := 5  // START condition
  const TWSTO: nat := 4  // STOP condition
  const TWWC: nat := 3   // write collision
  const TWEN: nat := 2   // enable interface
  const TWIE: nat := 0   // interrupt enable

  /** `1 << n` as a TWCR bit. */
  function Bit(n: nat): (b: bv8)
    requires n < 8
    ensures b != 0 && (b & (b - 1)) == 0
  {
    (1 as bv8) << n
  }

  /** TWCR value that sends a START condition. */
  const START_COMMAND: bv8 := Bit(TWEN) | Bit(TWINT) | Bit(TWSTA)
  /** TWCR value that clears TWINT and lets the next byte go, without TWEA. */
  const TRANSFER_COMMAND: bv8 := Bit(TWINT) | Bit(TWEN)
  /** TWCR value that sends a STOP condition. */
  const STOP_COMMAND: bv8 := Bit(TWEN) | Bit(TWINT) | Bit(TWSTO)

  // Clock configuration: the build's CPU clock and the chosen SCL clock
  const F_CPU: nat := 16_000_000
  const SCL_CLOCK: nat := 400_000

  /** The bit-rate divisor `((F_CPU / SCL_CLOCK) - 16) / 2`. With no prescaler
      the bus runs at F_CPU / (16 + 2 * TWBR); the divisor is the largest one
      whose bus clock is still at least the target: d + 1 would fall below it. */
  function Divisor(fCpu: nat, scl: nat): (d: nat)
    requires scl > 0 && fCpu / scl >= 16
    ensures 16 + 2 * d <= fCpu / scl < 16 + 2 * (d + 1)
    ensures fCpu / (16 + 2 * d) >= scl
    ensures fCpu / (16 + 2 * (d + 1)) < scl
  {
    var d := (fCpu / scl - 16) / 2;
    DivisorClock(fCpu, scl, 16 + 2 * d);
    DivisorClock(fCpu, scl, 16 + 2 * (d + 1));
    d
  }

  /** For a positive divider n, F_CPU / n reaches scl exactly when n is at
      most F_CPU / scl. */
  lemma DivisorClock(fCpu: nat, scl: nat, n: nat)
    requires scl > 0 && n > 0
    ensures fCpu / n >= scl <==> n <= fCpu / scl
  {
    QuotientAtLeast(fCpu, n, scl);
    QuotientAtLeast(fCpu, scl, n);
  }

  /** a / n >= q exactly when q * n <= a. */
  lemma QuotientAtLeast(a: nat, n: nat, q: nat)
    requires n > 0
    ensures a / n >= q <==> q * n <= a
  {
    var r := a / n;
    assert a == r * n + a % n && 0 <= a % n < n;
    assert (r - q + 1) * n == r * n + n - q * n;
    assert (r - q) * n == r * n - q * n;
  }

  /** For a 16 MHz CPU and a 400 kHz bus the divisor is 12, above the floor
      of 10 needed for stable operation, and 16 MHz / (16 + 2 * 12) is
      exactly 400 kHz. */
  lemma BuildDivisor()
    ensures Divisor(F_CPU, SCL_CLOCK) == 12
    ensures Divisor(F_CPU, SCL_CLOCK) > 10
    ensures F_CPU / (16 + 2 * Divisor(F_CPU, SCL_CLOCK)) == SCL_CLOCK
  {
  }

  /** The address byte: `sAddress << 1` truncated to a byte, then `| twiRW`. For
      a direction of 0 or 1 the slave address sits in bits 7..1 (its top bit
      is lost) and the direction in bit 0. */
  function AddressByte(sAddress: bv8, twiRW: bv8): (b: bv8)
    ensures twiRW <= 1 ==> b == sAddress * 2 + twiRW
    ensures twiRW <= 1 ==> b / 2 == sAddress % 128
    ensures twiRW <= 1 ==> b % 2 == twiRW
  {
    (sAddress << 1) | twiRW
  }

  /** The 7-bit address and the direction can be read back from the address
      byte. */
  lemma AddressByteFields(sAddress: bv8, twiRW: bv8)
    requires twiRW <= 1
    ensures (AddressByte(sAddress, twiRW) >> 1) == (sAddress & 0x7F)
    ensures (AddressByte(sAddress, twiRW) & 1) == twiRW
  {
  }

  /** The top bit of the slave address never reaches the bus. */
  lemma AddressTopBitLost(sAddress: bv8, twiRW: bv8)
    ensures AddressByte(sAddress, twiRW) == AddressByte(sAddress ^ 0x80, twiRW)
  {
  }

  /** ORing in the direction changes bit 0 only. */
  lemma DirectionTouchesBitZero(sAddress: bv8)
    ensures AddressByte(sAddress, TWI_READ) == (AddressByte(sAddress, TWI_WRITE) | 1)
    ensures AddressByte(sAddress, I2C_WRITE) == AddressByte(sAddress, TWI_WRITE)
    ensures (AddressByte(sAddress, TWI_WRITE) & 1) == 0
  {
  }

  /** The code twi_start returns, given how its two waits end and the status
      bytes TWSR holds after the START and after the address. 9 and 7: the
      counter was 0 after the first or the second wait; 8: no START or repeated
      START; 6: the address was not acknowledged, which is checked against
      both ACK codes whatever the direction; 0: ready to transfer. */
  function StartResult(t1: U32, s1: bv8, t2: U32, s2: bv8): (r: bv8)
    ensures r in {0, 6, 7, 8, 9}
    ensures r == 9 <==> t1 == 0
    ensures r == 8 <==> t1 != 0 && Decode(Mask(s1)) !in {Some(Start), Some(RepStart)}
    ensures r == 7 <==> t1 != 0 && Decode(Mask(s1)) in {Some(Start), Some(RepStart)} && t2 == 0
    ensures r == 6 <==>
              && t1 != 0 && Decode(Mask(s1)) in {Some(Start), Some(RepStart)}
              && t2 != 0 && Decode(Mask(s2)) !in {Some(MtxAdrAck), Some(MrxAdrAck)}
    ensures r == 0 <==>
              && t1 != 0 && Decode(Mask(s1)) in {Some(Start), Some(RepStart)}
              && t2 != 0 && Decode(Mask(s2)) in {Some(MtxAdrAck), Some(MrxAdrAck)}
  {
    if t1 == 0 then 9
    else if Mask(s1) != TWI_START && Mask(s1) != TWI_REP_START then 8
    else if t2 == 0 then 7
    else if Mask(s2) != TWI_MTX_ADR_ACK && Mask(s2) != TWI_MRX_ADR_ACK then 6
    else 0
  }

  /** The code twi_write_byte returns for the status after the data byte:
      0 exactly on "data transmitted, ACK received", 1 for every other status. */
  function WriteResult(status: bv8): (r: bv8)
    ensures r == 0 || r == 1
    ensures r == 0 <==> Decode(Mask(status)) == Some(MtxDataAck)
  {
    if Mask(Mask(status)) != TWI_MTX_DATA_ACK then 1 else 0
  }

  /** A NACKed address, in either direction, never lets the start succeed;
      once both START checks passed it gives "not acknowledged", 6, distinct
      from the timeout codes and from the bad-START code. */
  lemma AddressNackFails(t1: U32, s1: bv8, t2: U32, s2: bv8)
    requires Mask(s2) == TWI_MTX_ADR_NACK || Mask(s2) == TWI_MRX_ADR_NACK
    ensures StartResult(t1, s1, t2, s2) != 0
    ensures t1 != 0 && (Mask(s1) == TWI_START || Mask(s1) == TWI_REP_START) && t2 != 0 ==>
              StartResult(t1, s1, t2, s2) == 6
  {
    AddressNackIsNotAck();
  }

  /** The address check does not look at the direction: a master-receiver
      ACK passes as well as a master-transmitter ACK, so a write request that
      draws 0x40 still succeeds. */
  lemma AddressAckEitherDirection(t1: U32, s1: bv8, t2: U32, s2: bv8, s2': bv8)
    requires Mask(s2) == TWI_MTX_ADR_ACK && Mask(s2') == TWI_MRX_ADR_ACK
    ensures StartResult(t1, s1, t2, s2) == StartResult(t1, s1, t2, s2')
  {
  }

  /** A NACKed data byte makes the write fail. */
  lemma DataNackFails(status: bv8)
    requires Mask(status) == TWI_MTX_DATA_NACK
    ensures WriteResult(status) == 1
  {
    DataNackIsNotAck();
  }

  /** The START-phase timeout code 9 is returned exactly when TWINT is first
      seen on the 256th poll; a peripheral that never raises TWINT does not
      produce it. */
  lemma StartTimeoutIff(flags: seq<bool>, s1: bv8, t2: U32, s2: bv8)
    ensures StartResult(Wait(flags).timer, s1, t2, s2) == 9 <==>
              Ready(flags, 255) && forall k: nat :: k < 255 ==> !Ready(flags, k)
  {
    WaitTimesOutIff(flags);
  }

  /** The same for the address phase and its timeout code 7. */
  lemma AddressTimeoutIff(t1: U32, s1: bv8, flags: seq<bool>, s2: bv8)
    requires t1 != 0 && (Mask(s1) == TWI_START || Mask(s1) == TWI_REP_START)
    ensures StartResult(t1, s1, Wait(flags).timer, s2) == 7 <==>
              Ready(flags, 255) && forall k: nat :: k < 255 ==> !Ready(flags, k)
  {
    WaitTimesOutIff(flags);
  }

  /** With a peripheral that never raises TWINT after the START, the start
      falls through to the status check: it returns 8 for any status that is
      not a START, not the timeout code 9. */
  lemma SilentStartIsNotTimeout(flags: seq<bool>, s1: bv8, t2: U32, s2: bv8)
    requires forall k: nat :: k < 256 ==> !Ready(flags, k)
    requires Mask(s1) != TWI_START && Mask(s1) != TWI_REP_START
    ensures StartResult(Wait(flags).timer, s1, t2, s2) == 8
  {
    WaitNeverReady(flags);
  }

  /** The head of a script, or `current` once the script is used up. */
  function NextOr(script: seq<bv8>, current: bv8): bv8
  {
    if |script| > 0 then script[0] else current
  }

  /** A script with its head consumed. */
  function Rest(script: seq<bv8>): (r: seq<bv8>)
    ensures |script| > 0 ==> script == [script[0]] + r
    ensures r == [] <==> |script| <= 1
  {
    if |script| > 0 then script[1..] else []
  }

  /** One write the driver makes to TWCR, with the byte TWDR holds at that
      moment: for a transfer while transmitting, the byte that goes on the bus. */
  datatype Action = Action(command: bv8, data: bv8)

  /** How twi_start's first wait, after the START, ends for a flag script. */
  function FirstWait(flags: seq<bool>): (r: WaitResult)
    ensures 1 <= r.polls <= 256
  {
    Wait(flags)
  }

  /** How twi_start's second wait, after the address, ends: it reads the
      polls the first wait left. */
  function SecondWait(flags: seq<bool>): (r: WaitResult)
    ensures 1 <= r.polls <= 256
  {
    Wait(Drop(flags, FirstWait(flags).polls))
  }

  /** TWSR after the START: the first scripted status, or what TWSR held. */
  function FirstStatus(statuses: seq<bv8>, twsr: bv8): bv8
  {
    NextOr(statuses, twsr)
  }

  /** TWSR after the address: the second scripted status, or what TWSR held
      after the START. */
  function SecondStatus(statuses: seq<bv8>, twsr: bv8): bv8
  {
    NextOr(Rest(statuses), FirstStatus(statuses, twsr))
  }

  /** The TWCR writes twi_start makes, given the code it returns and what
      TWDR held on entry: the START alone when it gives up with 9 or 8, and
      otherwise the START followed by the transfer of the address byte. */
  function StartActions(code: bv8, twdr: bv8, sAddress: bv8, twiRW: bv8): (r: seq<Action>)
    ensures |r| >= 1 && r[0] == Action(START_COMMAND, twdr)
    ensures |r| == 1 <==> code == 9 || code == 8
    ensures |r| == 2 <==> code != 9 && code != 8
    ensures |r| == 2 ==> r[1].command == TRANSFER_COMMAND
  {
    if code == 9 || code == 8 then [Action(START_COMMAND, twdr)]
    else [Action(START_COMMAND, twdr), Action(TRANSFER_COMMAND, AddressByte(sAddress, twiRW))]
  }

  /** Appending two elements one at a time appends the pair. */
  lemma AppendTwo<T>(s: seq<T>, a: T, b: T)
    ensures s + [a] + [b] == s + [a, b]
  {
  }

  /** The TWI peripheral as the driver sees it: its four registers, the
      script its environment follows and, as a record of the driver's
      behaviour, every TWCR write so far. */
  class Twi {
    var TWCR: bv8
    var TWSR: bv8
    var TWDR: bv8
    var TWBR: bv8

    var flags: seq<bool>
    var statuses: seq<bv8>
    var inbound: seq<bv8>

    ghost var actions: seq<Action>

    /** The peripheral after reset, about to follow the given script. */
    constructor (flags: seq<bool>, statuses: seq<bv8>, inbound: seq<bv8>)
      ensures TWCR == 0 && TWSR == TW_NO_INFO && TWDR == 0xFF && TWBR == 0
      ensures this.flags == flags && this.statuses == statuses && this.inbound == inbound
      ensures actions == []
    {
      TWCR, TWSR, TWDR, TWBR := 0, TW_NO_INFO, 0xFF, 0;
      this.flags, this.statuses, this.inbound := flags, statuses, inbound;
      actions := [];
    }

    /** twi_init: no prescaler, and the bit-rate divisor for the build's
        clocks. The new register values depend on nothing but constants, so a
        second call changes nothing. */
    method Init()
      modifies this`TWSR, this`TWBR
      ensures TWSR == 0
      ensures TWBR as int == Divisor(F_CPU, SCL_CLOCK)
    {
      BuildDivisor();
      TWSR := 0;
      TWBR := ((F_CPU / SCL_CLOCK - 16) / 2) as bv8;
    }

    /** One read of TWCR's polled bit. */
    method Poll() returns (ready: bool)
      modifies this`flags
      ensures ready == Ready(old(flags), 0)
      ensures flags == Drop(old(flags), 1)
    {
      if |flags| == 0 {
        ready := false;
      } else {
        ready := flags[0];
        flags := flags[1..];
      }
    }

    /** The driver writes `command` to TWCR, starting an action that ends with
        TWINT set, with whatever TWDR holds at that moment; the peripheral
        presents that action's status in TWSR. */
    method Trigger(command: bv8)
      modifies this`TWCR, this`TWSR, this`statuses, this`actions
      ensures TWCR == command
      ensures TWSR == NextOr(old(statuses), old(TWSR))
      ensures statuses == Rest(old(statuses))
      ensures actions == old(actions) + [Action(command, TWDR)]
    {
      TWCR := command;
      actions := actions + [Action(command, TWDR)];
      TWSR := NextOr(statuses, TWSR);
      statuses := Rest(statuses);
    }

    /** `twi_timer = TWI_TIMER_DELAY; while (!event && twi_timer--) ;`
        (avrTWI.c lines 72-73, 88-89 and 110-111). */
    method BoundedWait() returns (timer: U32)
      modifies this`flags
      ensures timer == Wait(old(flags)).timer
      ensures flags == Drop(old(flags), Wait(old(flags)).polls)
    {
      ghost var polled: nat := 0;
      timer := TWI_TIMER_DELAY;
      while true
        invariant flags == Drop(old(flags), polled)
        invariant WaitFrom(old(flags), polled, timer) == Wait(old(flags))
        decreases timer
      {
        DropDrop(old(flags), polled, 1);
        var ready := Poll();
        polled := polled + 1;
        if ready {
          break;
        }
        // the counter is tested, then decremented whatever the test gave
        var tested := timer;
        timer := Decrement(timer);
        if tested == 0 {
          break;
        }
      }
    }

    /** `while (!(TWCR & (1 << TWINT))) ;` with no budget: it returns once the
        flag is seen, which the script must eventually show. */
    method AwaitFlag()
      requires true in flags
      modifies this`flags
      ensures flags == old(flags)[FirstReady(old(flags)) + 1..]
    {
      ghost var polled: nat := 0;
      while true
        invariant polled <= FirstReady(old(flags))
        invariant flags == old(flags)[polled..]
        decreases |flags|
      {
        var ready := Poll();
        polled := polled + 1;
        if ready {
          break;
        }
      }
    }

    /** twi_start: send START, check for a START or repeated START, send the
        address byte with the direction, check for an address ACK. The returned
        code is StartResult of how the two waits end and the statuses they
        leave; the address phase runs only when the START phase passed. */
    method Start(sAddress: bv8, twiRW: bv8) returns (code: bv8)
      modifies this`TWCR, this`TWSR, this`TWDR, this`flags, this`statuses, this`actions
      ensures code == StartResult(FirstWait(old(flags)).timer, FirstStatus(old(statuses), old(TWSR)),
                                  SecondWait(old(flags)).timer, SecondStatus(old(statuses), old(TWSR)))
      ensures code == 9 || code == 8 ==>
                && TWCR == START_COMMAND && TWSR == FirstStatus(old(statuses), old(TWSR))
                && TWDR == old(TWDR)
                && flags == Drop(old(flags), FirstWait(old(flags)).polls)
                && statuses == Rest(old(statuses))
      ensures code != 9 && code != 8 ==>
                && TWCR == TRANSFER_COMMAND && TWSR == SecondStatus(old(statuses), old(TWSR))
                && TWDR == AddressByte(sAddress, twiRW)
                && flags == Drop(Drop(old(flags), FirstWait(old(flags)).polls), SecondWait(old(flags)).polls)
                && statuses == Rest(Rest(old(statuses)))
      ensures actions == old(actions) + StartActions(code, old(TWDR), sAddress, twiRW)
    {
      Trigger(START_COMMAND);
      var timer := BoundedWait();
      ghost var t1, s1, entered := timer, TWSR, actions;
      assert t1 == FirstWait(old(flags)).timer && s1 == FirstStatus(old(statuses), old(TWSR));
      assert flags == Drop(old(flags), FirstWait(old(flags)).polls);
      ghost var begun := Action(START_COMMAND, old(TWDR));
      assert entered == old(actions) + [begun];
      if timer == 0 {
        return 9;
      }
      if Mask(TWSR) != TWI_START && Mask(TWSR) != TWI_REP_START {
        return 8;
      }
      timer := SendAddress(sAddress, twiRW);
      ghost var addressed := Action(TRANSFER_COMMAND, AddressByte(sAddress, twiRW));
      AppendTwo(old(actions), begun, addressed);
      assert timer == SecondWait(old(flags)).timer && TWSR == SecondStatus(old(statuses), old(TWSR));
      assert StartResult(t1, s1, timer, TWSR) ==
             if timer == 0 then 7
             else if Mask(TWSR) != TWI_MTX_ADR_ACK && Mask(TWSR) != TWI_MRX_ADR_ACK then 6
             else 0;
      if timer == 0 {
        return 7;
      }
      if Mask(TWSR) != TWI_MTX_ADR_ACK && Mask(TWSR) != TWI_MRX_ADR_ACK {
        return 6;
      }
      return 0;
    }

    /** The address phase of twi_start: load TWDR with the address shifted
        left and ORed with the direction, send it, and wait with a budget for
        TWINT. The address is in TWDR before the transfer is triggered. */
    method SendAddress(sAddress: bv8, twiRW: bv8) returns (timer: U32)
      modifies this`TWCR, this`TWSR, this`TWDR, this`flags, this`statuses, this`actions
      ensures TWCR == TRANSFER_COMMAND && TWDR == AddressByte(sAddress, twiRW)
      ensures TWSR == NextOr(old(statuses), old(TWSR)) && statuses == Rest(old(statuses))
      ensures timer == Wait(old(flags)).timer && flags == Drop(old(flags), Wait(old(flags)).polls)
      ensures actions == old(actions) + [Action(TRANSFER_COMMAND, AddressByte(sAddress, twiRW))]
    {
      TWDR := sAddress << 1;
      TWDR := TWDR | twiRW;
      Trigger(TRANSFER_COMMAND);
      timer := BoundedWait();
    }

    /** twi_stop: send STOP and wait, with a budget, for TWSTO to clear; the
        outcome of the wait is dropped. Nothing here depends on `sAddress`. */
    method Stop(sAddress: bv8)
      modifies this`TWCR, this`flags, this`actions
      ensures TWCR == STOP_COMMAND
      ensures flags == Drop(old(flags), Wait(old(flags)).polls)
      ensures actions == old(actions) + [Action(STOP_COMMAND, TWDR)]
    {
      TWCR := STOP_COMMAND;
      actions := actions + [Action(STOP_COMMAND, TWDR)];
      var _ := BoundedWait();
    }

    /** twi_readNak: receive one byte without acknowledging it and return the
        byte TWDR holds once TWINT is seen. */
    method ReadNak() returns (b: bv8)
      requires true in flags
      modifies this`TWCR, this`TWSR, this`TWDR, this`flags, this`statuses, this`inbound, this`actions
      ensures TWCR == TRANSFER_COMMAND && (TWCR & Bit(TWEA)) == 0
      ensures actions == old(actions) + [Action(TRANSFER_COMMAND, old(TWDR))]
      ensures TWSR == NextOr(old(statuses), old(TWSR)) && statuses == Rest(old(statuses))
      ensures TWDR == NextOr(old(inbound), old(TWDR)) && inbound == Rest(old(inbound))
      ensures flags == old(flags)[FirstReady(old(flags)) + 1..]
      ensures b == TWDR
    {
      Trigger(TRANSFER_COMMAND);
      TWDR := NextOr(inbound, TWDR);
      inbound := Rest(inbound);
      AwaitFlag();
      b := TWDR;
    }

    /** twi_write_byte: put `data` in TWDR, send it, wait for TWINT and report
        whether the slave acknowledged it. */
    method WriteByte(data: bv8) returns (code: bv8)
      requires true in flags
      modifies this`TWCR, this`TWSR, this`TWDR, this`flags, this`statuses, this`actions
      ensures TWDR == data && TWCR == TRANSFER_COMMAND
      ensures actions == old(actions) + [Action(TRANSFER_COMMAND, data)]
      ensures TWSR == NextOr(old(statuses), old(TWSR)) && statuses == Rest(old(statuses))
      ensures flags == old(flags)[FirstReady(old(flags)) + 1..]
      ensures code == WriteResult(TWSR)
    {
      TWDR := data;
      Trigger(TRANSFER_COMMAND);
      AwaitFlag();
      var twst := Mask(Mask(TWSR));
      if twst != TWI_MTX_DATA_ACK {
        return 1;
      }
      return 0;
    }
  }
}
