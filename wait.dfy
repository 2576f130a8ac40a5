/** The polling waits of avrTWI.c, as functions of a script of flag
    observations.

    A script entry says whether one read of TWCR shows the event the driver
    waits for: TWINT set (start, address, data and read phases) or TWSTO
    cleared (stop). Beyond the end of the script the event never comes: that
    is a peripheral that stays silent. */
module TwiWait {

  /** Values of the `uint32_t` counter `twi_timer`. */
  type U32 = x: int | 0 <= x < 0x1_0000_0000

  /** What `twi_timer--` leaves in the counter: unsigned 32-bit arithmetic,
      so decrementing 0 wraps to 0xFFFFFFFF. */
  function Decrement(t: U32): (r: U32)
    ensures t != 0 ==> r == t - 1
    ensures t == 0 ==> r == 0xFFFF_FFFF
  {
    (t - 1) % 0x1_0000_0000
  }

  /** The budget `twi_timer` is loaded with before each bounded wait. */
  const TWI_TIMER_DELAY: U32 := 0xFF

  /** Poll number `i` (counting from 0) shows the awaited event. */
  predicate Ready(flags: seq<bool>, i: nat)
  {
    i < |flags| && flags[i]
  }

  /** The script left after `n` polls have consumed its head. */
  function Drop(flags: seq<bool>, n: nat): (r: seq<bool>)
    ensures |r| == if n <= |flags| then |flags| - n else 0
    ensures forall j: nat :: Ready(r, j) == Ready(flags, n + j)
  {
    if n <= |flags| then flags[n..] else []
  }

  lemma DropDrop(flags: seq<bool>, m: nat, n: nat)
    ensures Drop(Drop(flags, m), n) == Drop(flags, m + n)
  {
  }

  /** How a bounded wait ends: the value left in `twi_timer`, and how many
      times TWCR was read. */
  datatype WaitResult = WaitResult(timer: U32, polls: nat)

  /** `while (!event && twi_timer--) ;` entered at poll `i` with `twi_timer`
      equal to `timer`, in C's order of evaluation: the flag is read first and,
      when the event is seen, the loop ends with the counter untouched;
      otherwise the counter is tested and then post-decremented, so a test that
      sees 0 leaves the unsigned 32-bit counter wrapped to 0xFFFFFFFF. */
  function WaitFrom(flags: seq<bool>, i: nat, timer: U32): (r: WaitResult)
    ensures i < r.polls <= i + timer + 1
    ensures forall k: nat :: i <= k < r.polls - 1 ==> !Ready(flags, k)
    ensures Ready(flags, r.polls - 1) || r.polls == i + timer + 1
    decreases timer
  {
    if Ready(flags, i) then WaitResult(timer, i + 1)
    else if timer == 0 then WaitResult(Decrement(timer), i + 1)
    else WaitFrom(flags, i + 1, Decrement(timer))
  }

  /** One bounded wait of avrTWI.c, starting with `twi_timer = TWI_TIMER_DELAY`.
      Whatever the script says, it reads the flag at least once and at most
      256 times. */
  function Wait(flags: seq<bool>): (r: WaitResult)
    ensures 1 <= r.polls <= 256
  {
    WaitFrom(flags, 0, TWI_TIMER_DELAY)
  }

  /** When the event is first seen on poll `j`, the wait stops there with the
      counter decremented once for each earlier poll. */
  lemma {:induction false} WaitSeenAt(flags: seq<bool>, i: nat, timer: U32, j: nat)
    requires i <= j <= i + timer
    requires Ready(flags, j)
    requires forall k: nat :: i <= k < j ==> !Ready(flags, k)
    ensures WaitFrom(flags, i, timer).timer == timer - (j - i)
    ensures WaitFrom(flags, i, timer).polls == j + 1
    decreases timer
  {
    if j > i {
      WaitSeenAt(flags, i + 1, timer - 1, j);
    }
  }

  /** When the event is never seen, the counter runs out and wraps. */
  lemma {:induction false} WaitNeverSeen(flags: seq<bool>, i: nat, timer: U32)
    requires forall k: nat :: i <= k <= i + timer ==> !Ready(flags, k)
    ensures WaitFrom(flags, i, timer) == WaitResult(0xFFFF_FFFF, i + timer + 1)
    decreases timer
  {
    if timer != 0 {
      WaitNeverSeen(flags, i + 1, timer - 1);
    }
  }

  /** Event first seen on poll j < 255: the loop leaves 255 - j in the counter,
      which is not 0, so no timeout code is returned. */
  lemma WaitSeenEarly(flags: seq<bool>, j: nat)
    requires j < 255 && Ready(flags, j)
    requires forall k: nat :: k < j ==> !Ready(flags, k)
    ensures Wait(flags) == WaitResult(255 - j, j + 1)
    ensures Wait(flags).timer != 0
  {
    WaitSeenAt(flags, 0, TWI_TIMER_DELAY, j);
  }

  /** Event first seen on the last poll (number 255): the counter is 0 and the
      caller returns its timeout code. */
  lemma WaitSeenLast(flags: seq<bool>)
    requires Ready(flags, 255)
    requires forall k: nat :: k < 255 ==> !Ready(flags, k)
    ensures Wait(flags) == WaitResult(0, 256)
  {
    WaitSeenAt(flags, 0, TWI_TIMER_DELAY, 255);
  }

  /** Event never seen: the counter wraps to 0xFFFFFFFF, the caller's
      `twi_timer == 0` test fails, and execution falls through to the status
      check instead of the timeout return. */
  lemma WaitNeverReady(flags: seq<bool>)
    requires forall k: nat :: k < 256 ==> !Ready(flags, k)
    ensures Wait(flags) == WaitResult(0xFFFF_FFFF, 256)
    ensures Wait(flags).timer != 0
  {
    WaitNeverSeen(flags, 0, TWI_TIMER_DELAY);
  }

  /** The counter is 0 after a bounded wait exactly when the event was first
      seen on the 256th poll. */
  lemma WaitTimesOutIff(flags: seq<bool>)
    ensures Wait(flags).timer == 0 <==>
              Ready(flags, 255) && forall k: nat :: k < 255 ==> !Ready(flags, k)
  {
    var p := Wait(flags).polls - 1;
    if Ready(flags, p) {
      WaitSeenAt(flags, 0, TWI_TIMER_DELAY, p);
    } else {
      WaitNeverReady(flags);
    }
  }

  /** The first poll that shows the event, for the waits that have no budget. */
  function FirstReady(flags: seq<bool>): (i: nat)
    requires true in flags
    ensures i < |flags| && flags[i]
    ensures forall k :: 0 <= k < i ==> !flags[k]
  {
    if flags[0] then 0 else FirstReady(flags[1..]) + 1
  }
}
