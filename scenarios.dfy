/** Whole transactions run against scripted peripherals. Each method starts
    from a peripheral after reset, calls the driver as firmware would, and
    states what the calls return; only the driver's contracts are used. */
module TwiScenarios {
  import opened TwiCodes
  import opened TwiWait
  import opened TwiDriver

  /** A present slave that acknowledges its address and the data byte:
      `start(addr, write)`, `write_byte(x)` and `stop(addr)` all succeed, each
      wait ending on its first poll. */
  method AckingSlaveWrite(addr: bv8, x: bv8) returns (startCode: bv8, writeCode: bv8)
    ensures startCode == 0 && writeCode == 0
  {
    var twi := new Twi([true, true, true, true], [TWI_START, TWI_MTX_ADR_ACK, TWI_MTX_DATA_ACK], []);
    twi.Init();
    WaitSeenEarly([true, true, true, true], 0);
    WaitSeenEarly([true, true, true], 0);
    startCode := twi.Start(addr, TWI_WRITE);
    writeCode := twi.WriteByte(x);
    twi.Stop(addr);
  }

  /** A present slave read from: the start succeeds and the NACKed read
      returns the byte the slave sent. */
  method AckingSlaveRead(addr: bv8, x: bv8) returns (startCode: bv8, b: bv8)
    ensures startCode == 0 && b == x
  {
    var twi := new Twi([true, true, true, true], [TWI_START, TWI_MRX_ADR_ACK, TWI_MRX_DATA_NACK], [x]);
    twi.Init();
    WaitSeenEarly([true, true, true, true], 0);
    WaitSeenEarly([true, true, true], 0);
    startCode := twi.Start(addr, TWI_READ);
    b := twi.ReadNak();
    twi.Stop(addr);
  }

  /** No device answers the address: the start reports 6, not a timeout. */
  method AbsentSlave(addr: bv8, twiRW: bv8) returns (code: bv8)
    ensures code == 6
  {
    var twi := new Twi([true, true], [TWI_START, TWI_MTX_ADR_NACK], []);
    WaitSeenEarly([true, true], 0);
    WaitSeenEarly([true], 0);
    code := twi.Start(addr, twiRW);
  }

  /** The slave acknowledges its address but NACKs the data byte: the write
      reports 1. */
  method NackedData(addr: bv8, x: bv8) returns (startCode: bv8, writeCode: bv8)
    ensures startCode == 0 && writeCode == 1
  {
    var twi := new Twi([true, true, true], [TWI_START, TWI_MTX_ADR_ACK, TWI_MTX_DATA_NACK], []);
    WaitSeenEarly([true, true, true], 0);
    WaitSeenEarly([true, true], 0);
    startCode := twi.Start(addr, TWI_WRITE);
    writeCode := twi.WriteByte(x);
  }

  /** A write request answered with the master-receiver ACK 0x40 still
      succeeds: the address check ignores the direction. */
  method WriteAcceptsReceiverAck(addr: bv8) returns (code: bv8)
    ensures code == 0
  {
    var twi := new Twi([true, true], [TWI_START, TWI_MRX_ADR_ACK], []);
    WaitSeenEarly([true, true], 0);
    WaitSeenEarly([true], 0);
    code := twi.Start(addr, TWI_WRITE);
  }

  /** TWINT first shows on the 256th poll after the START: the counter is 0
      and the start reports its timeout code 9. */
  method StartTimeoutOnLastPoll(addr: bv8, twiRW: bv8) returns (code: bv8)
    ensures code == 9
  {
    var flags := seq(255, _ => false) + [true];
    var twi := new Twi(flags, [TWI_START], []);
    WaitSeenLast(flags);
    code := twi.Start(addr, twiRW);
  }

  /** A peripheral that never raises TWINT and reports "no state
      information": the counter wraps instead of reaching 0, so the start
      reports 8 (not a START) rather than the timeout code 9. */
  method SilentBusStart(addr: bv8, twiRW: bv8) returns (code: bv8)
    ensures code == 8
  {
    var twi := new Twi([], [TW_NO_INFO], []);
    WaitNeverReady([]);
    code := twi.Start(addr, twiRW);
  }

  /** Initialising twice programs the same divisor, 12 for a 16 MHz CPU and a
      400 kHz bus, and the same prescaler bits. */
  method InitTwice() returns (first: bv8, second: bv8, prescale: bv8)
    ensures first == second == 12
    ensures prescale == 0
  {
    var twi := new Twi([], [], []);
    BuildDivisor();
    twi.Init();
    first := twi.TWBR;
    twi.Init();
    second, prescale := twi.TWBR, twi.TWSR;
  }
}
