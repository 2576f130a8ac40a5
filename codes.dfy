/** Status codes and direction constants of the ATmega TWI master (avrTWI.h),
    with the status mask the driver applies to TWSR before comparing. */
module TwiCodes {

  // TWI generated status codes
  const TWI_START: bv8 := 0x08         // START has been transmitted
  const TWI_REP_START: bv8 := 0x10     // repeated START has been transmitted

  // Master transmitter status codes
  const TWI_MTX_ADR_ACK: bv8 := 0x18   // SLA+W transmitted, ACK received
  const TWI_MTX_ADR_NACK: bv8 := 0x20  // SLA+W transmitted, NACK received
  const TWI_MTX_DATA_ACK: bv8 := 0x28  // data byte transmitted, ACK received
  const TWI_MTX_DATA_NACK: bv8 := 0x30 // data byte transmitted, NACK received

  // Master receiver status codes
  const TWI_MRX_ADR_ACK: bv8 := 0x40   // SLA+R transmitted, ACK received
  const TWI_MRX_ADR_NACK: bv8 := 0x48  // SLA+R transmitted, NACK received
  const TWI_MRX_DATA_ACK: bv8 := 0x50  // data byte received, ACK returned
  const TWI_MRX_DATA_NACK: bv8 := 0x58 // data byte received, NACK returned

  const TWI_ACK: bv8 := 1
  const TWI_NACK: bv8 := 0

  // Data direction, ORed into bit 0 of the address byte by the start operation
  const TWI_READ: bv8 := 1
  const TWI_WRITE: bv8 := 0
  const I2C_WRITE: bv8 := 0

  /** avr-libc's TW_NO_INFO, which is also its TW_STATUS_MASK: the five status
      bits of TWSR, with the two prescaler bits and the reserved bit cleared. */
  const TW_NO_INFO: bv8 := 0xF8

  /** TWSR with the prescaler bits masked away. */
  function Mask(b: bv8): (m: bv8)
    ensures (m & TW_NO_INFO) == m
    ensures (m | (b & 0x07)) == b
    ensures m as int % 8 == 0 && m as int <= b as int < m as int + 8
  {
    b & TW_NO_INFO
  }

  /** One variant per status code of the table in avrTWI.h. */
  datatype Status =
    | Start | RepStart
    | MtxAdrAck | MtxAdrNack | MtxDataAck | MtxDataNack
    | MrxAdrAck | MrxAdrNack | MrxDataAck | MrxDataNack

  datatype Option<T> = None | Some(value: T)

  /** The numeric value the peripheral reports for a status. */
  function Code(s: Status): (c: bv8)
    ensures TWI_START <= c <= TWI_MRX_DATA_NACK
  {
    match s
    case Start => TWI_START
    case RepStart => TWI_REP_START
    case MtxAdrAck => TWI_MTX_ADR_ACK
    case MtxAdrNack => TWI_MTX_ADR_NACK
    case MtxDataAck => TWI_MTX_DATA_ACK
    case MtxDataNack => TWI_MTX_DATA_NACK
    case MrxAdrAck => TWI_MRX_ADR_ACK
    case MrxAdrNack => TWI_MRX_ADR_NACK
    case MrxDataAck => TWI_MRX_DATA_ACK
    case MrxDataNack => TWI_MRX_DATA_NACK
  }

  /** The status a (masked) status byte stands for, if it is one of the table's. */
  function Decode(b: bv8): (r: Option<Status>)
    ensures r.Some? ==> Code(r.value) == b
    ensures r.None? <==> forall s: Status :: Code(s) != b
  {
    if b == TWI_START then Some(Start)
    else if b == TWI_REP_START then Some(RepStart)
    else if b == TWI_MTX_ADR_ACK then Some(MtxAdrAck)
    else if b == TWI_MTX_ADR_NACK then Some(MtxAdrNack)
    else if b == TWI_MTX_DATA_ACK then Some(MtxDataAck)
    else if b == TWI_MTX_DATA_NACK then Some(MtxDataNack)
    else if b == TWI_MRX_ADR_ACK then Some(MrxAdrAck)
    else if b == TWI_MRX_ADR_NACK then Some(MrxAdrNack)
    else if b == TWI_MRX_DATA_ACK then Some(MrxDataAck)
    else if b == TWI_MRX_DATA_NACK then Some(MrxDataNack)
    else None
  }

  /** Decoding a status's code gives the status back. */
  lemma DecodeCode(s: Status)
    ensures Decode(Code(s)) == Some(s)
  {
    match s
    case Start =>
    case RepStart =>
    case MtxAdrAck =>
    case MtxAdrNack =>
    case MtxDataAck =>
    case MtxDataNack =>
    case MrxAdrAck =>
    case MrxAdrNack =>
    case MrxDataAck =>
    case MrxDataNack =>
  }

  /** The ten status codes are pairwise distinct. */
  lemma CodesDistinct(s: Status, t: Status)
    ensures Code(s) == Code(t) <==> s == t
  {
    DecodeCode(s);
    DecodeCode(t);
  }

  /** Every status code is a multiple of 8, so masking TWSR never changes a
      code: a masked comparison with a code sees exactly the status byte's
      five status bits. */
  lemma MaskKeepsCodes(s: Status)
    ensures Code(s) as int % 8 == 0
    ensures Mask(Code(s)) == Code(s)
  {
    match s
    case Start =>
    case RepStart =>
    case MtxAdrAck =>
    case MtxAdrNack =>
    case MtxDataAck =>
    case MtxDataNack =>
    case MrxAdrAck =>
    case MrxAdrNack =>
    case MrxDataAck =>
    case MrxDataNack =>
  }

  /** A status byte matches a code after masking exactly when it decodes to
      that status after masking, whatever its prescaler bits hold. */
  lemma MaskedMatch(b: bv8, s: Status)
    ensures Mask(b) == Code(s) <==> Decode(Mask(b)) == Some(s)
  {
    DecodeCode(s);
  }

  /** An address NACK is never mistaken for an address ACK, in either direction. */
  lemma AddressNackIsNotAck()
    ensures TWI_MTX_ADR_NACK != TWI_MTX_ADR_ACK && TWI_MTX_ADR_NACK != TWI_MRX_ADR_ACK
    ensures TWI_MRX_ADR_NACK != TWI_MTX_ADR_ACK && TWI_MRX_ADR_NACK != TWI_MRX_ADR_ACK
  {
  }

  /** A data NACK is never mistaken for a data ACK. */
  lemma DataNackIsNotAck()
    ensures TWI_MTX_DATA_NACK != TWI_MTX_DATA_ACK
  {
  }

  /** The direction values differ only in bit 0, and the two write names agree. */
  lemma DirectionIsBitZero()
    ensures TWI_WRITE == I2C_WRITE
    ensures (TWI_READ & 0xFE) == 0 && (TWI_WRITE & 0xFE) == 0
    ensures TWI_READ != TWI_WRITE
  {
  }
}
