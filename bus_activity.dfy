/**
 * Whether a CAN bus has received traffic recently. Activity is never
 * stored; it is recomputed from the bus's last-received timestamp and the
 * current time (milliseconds, supplied by the caller in place of the
 * system clock), against a fixed 30 second timeout. A timestamp of 0 means
 * that no message has ever been received.
 */
module BusActivity {

  const CAN_ACTIVE_TIMEOUT_S: int := 30

  /** Timestamps are C `unsigned long`, 32 bits wide on the firmware's targets. */
  const ULONG_MODULUS: int := 0x1_0000_0000
  newtype ulong = x: int | 0 <= x < ULONG_MODULUS

  /** `now - lastMessageReceived` in unsigned arithmetic: the plain difference,
      or the difference across one wrap of the millisecond clock. */
  function ElapsedMs(lastMessageReceived: ulong, now: ulong): (elapsed: ulong)
    ensures lastMessageReceived <= now ==>
              elapsed as int == now as int - lastMessageReceived as int
    ensures now < lastMessageReceived ==>
              elapsed as int == ULONG_MODULUS + now as int - lastMessageReceived as int
  {
    ((now as int - lastMessageReceived as int) % ULONG_MODULUS) as ulong
  }

  /** `busActive`: a message has been received and the time since the last
      one is below the timeout. */
  function BusActive(lastMessageReceived: ulong, now: ulong): (active: bool)
    ensures lastMessageReceived == 0 ==> !active
    ensures lastMessageReceived != 0 && lastMessageReceived <= now ==>
              (active <==> now as int - lastMessageReceived as int < 30000)
    ensures lastMessageReceived != 0 && now < lastMessageReceived ==>
              (active <==> ULONG_MODULUS + now as int - lastMessageReceived as int < 30000)
  {
    lastMessageReceived != 0 &&
    (ElapsedMs(lastMessageReceived, now) as int) < CAN_ACTIVE_TIMEOUT_S * 1000
  }

  /** Without a clock wrap, a bus that has gone quiet stays inactive until a
      new timestamp is written. */
  lemma InactiveStaysInactive(lastMessageReceived: ulong, earlier: ulong, later: ulong)
    requires lastMessageReceived <= earlier <= later
    requires !BusActive(lastMessageReceived, earlier)
    ensures !BusActive(lastMessageReceived, later)
  {
  }

  /** The last active millisecond is 29999 ms after the message; at 30000 ms
      the bus is already inactive. */
  lemma TimeoutBoundary(lastMessageReceived: ulong)
    requires lastMessageReceived != 0
    requires lastMessageReceived as int + 30000 < ULONG_MODULUS
    ensures BusActive(lastMessageReceived, lastMessageReceived + 29999)
    ensures !BusActive(lastMessageReceived, lastMessageReceived + 30000)
  {
  }

  /** A message 1 s ago keeps the bus active; one 31 s ago does not. */
  lemma ActivityScenario(now: ulong)
    requires 31000 < now
    ensures BusActive(now - 1000, now)
    ensures !BusActive(now - 31000, now)
  {
  }

  /** The part of a CAN bus that this layer touches. */
  class CanBus {
    /** The bus's node address. Nothing here reads it; it stands for the
        fields that resetting the timestamp leaves untouched. */
    var address: int
    var lastMessageReceived: ulong

    /** `initializeCommon`: reset the timestamp to the "never" sentinel, so
        the bus reads as inactive at every time until the transport records
        a received message. */
    method InitializeCommon()
      modifies this`lastMessageReceived
      ensures lastMessageReceived == 0
      ensures forall now: ulong :: !BusActive(lastMessageReceived, now)
    {
      lastMessageReceived := 0;
    }
  }
}
