/**
 * Two-bit channel status fields of the analog I/O modules.
 *
 * The X20AI4622 and X20AT6402 modules report the status of each channel
 * in two bits of an 8-bit status register (USINT): channel k of a register
 * occupies bits 2k and 2k+1. The status IDs are 0 (no error), 1 (lower
 * limit undershot), 2 (upper limit exceeded) and 3 (wire breakage).
 */
module IOStatus {

  /** The status of field k (0..3) of a status register: (s >> 2k) & 3. */
  function StatusField(s: bv8, k: nat): (r: bv8)
    requires k < 4
    ensures r <= 3
  {
    (s >> (2 * k)) & 3
  }

  /** The status register that reports statuses a, b, c and d in fields 0 to 3. */
  function PackStatus(a: bv8, b: bv8, c: bv8, d: bv8): (s: bv8)
    requires a <= 3 && b <= 3 && c <= 3 && d <= 3
  {
    a | (b << 2) | (c << 4) | (d << 6)
  }

  /** Each field reads back the status packed into it. */
  lemma StatusOfPack(a: bv8, b: bv8, c: bv8, d: bv8)
    requires a <= 3 && b <= 3 && c <= 3 && d <= 3
    ensures StatusField(PackStatus(a, b, c, d), 0) == a
    ensures StatusField(PackStatus(a, b, c, d), 1) == b
    ensures StatusField(PackStatus(a, b, c, d), 2) == c
    ensures StatusField(PackStatus(a, b, c, d), 3) == d
  {
  }

  /** The four fields together are the whole register: no bit is lost or shared. */
  lemma PackOfStatus(s: bv8)
    ensures PackStatus(StatusField(s, 0), StatusField(s, 1), StatusField(s, 2), StatusField(s, 3)) == s
  {
  }

  /** A status field as the uint16_t getIOStatus returns. */
  function StatusValue(f: bv8): (r: int)
    requires f <= 3
    ensures 0 <= r <= 3
  {
    f as int
  }
}
