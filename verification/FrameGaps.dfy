/** Skipped-frame accounting over 32-bit frame identifiers that roll over. */
module FrameGaps {

  const Modulus := 0x1_0000_0000
  const Half := 0x8000_0000

  type Int32 = x: int | -0x8000_0000 <= x < 0x8000_0000

  /** What configuration allows as the largest gap. */
  type Gap = x: int | 0 <= x <= 2147483646

  datatype Assessment = Assessment(skipped: nat, discontinuity: bool)

  /** The identifier a frame carries when its true, unbounded number is `id`. */
  function Carried(id: int): Int32 {
    (id + Half) % Modulus - Half
  }

  /** The difference of two identifiers in 32-bit serial arithmetic, section 3.2 of RFC 1982. */
  function SerialStep(previous: Int32, current: Int32): nat {
    (current % Modulus - previous % Modulus) % Modulus
  }

  function Assess(previous: Int32, current: Int32, maxGap: Gap): Assessment {
    var step := SerialStep(previous, current);
    if step <= 1 then Assessment(0, false)
    else if step >= Half || step - 1 > maxGap then Assessment(0, true)
    else Assessment(step - 1, false)
  }

  /** Two true advances that differ by whole rollovers cannot be told apart. */
  predicate Alias(a: int, b: int) {
    a % Modulus == b % Modulus
  }

  ghost predicate AliasesWithin(advance: int, maxGap: Gap) {
    exists small | 0 <= small <= maxGap + 1 :: Alias(advance, small)
  }

  lemma CarriedStep(a: int, b: int)
    ensures SerialStep(Carried(a), Carried(b)) == (b - a) % Modulus
  {
    CarriedMod(a);
    CarriedMod(b);
    ModDifference(b, a);
  }

  lemma CarriedMod(a: int)
    ensures Carried(a) % Modulus == a % Modulus
  {
    var q := (a + Half) / Modulus;
    assert Carried(a) == a - q * Modulus;
  }

  lemma ModDifference(b: int, a: int)
    ensures (b % Modulus - a % Modulus) % Modulus == (b - a) % Modulus
  {
    var p, q := b / Modulus, a / Modulus;
    assert b % Modulus - a % Modulus == b - a - (p - q) * Modulus;
  }

  /** One frame: the exact number skipped for every advance that aliases one within the gap, a discontinuity for every other. */
  lemma AssessIs(a: int, b: int, maxGap: Gap)
    ensures var r := (b - a) % Modulus;
            Assess(Carried(a), Carried(b), maxGap)
            == if r > maxGap + 1 then Assessment(0, true) else Assessment(if r == 0 then 0 else r - 1, false)
  {
    CarriedStep(a, b);
  }

  lemma NotAliased(a: int, b: int, maxGap: Gap)
    ensures Assess(Carried(a), Carried(b), maxGap).discontinuity <==> !AliasesWithin(b - a, maxGap)
  {
    AssessIs(a, b, maxGap);
    var r := (b - a) % Modulus;
    assert r % Modulus == r;
    if r <= maxGap + 1 {
      assert Alias(b - a, r);
    }
  }

  // ---- whole sequences ----

  /** A good frame: its true number and the reader epoch it arrived in. */
  datatype Frame = Frame(id: int, epoch: nat)

  datatype Totals = Totals(skipped: nat, discontinuities: nat)

  /** Frames of different epochs are not compared. */
  function Count(frames: seq<Frame>, maxGap: Gap): Totals {
    if |frames| < 2 then Totals(0, 0)
    else
      var before := Count(frames[..|frames| - 1], maxGap);
      var a, b := frames[|frames| - 2], frames[|frames| - 1];
      if a.epoch != b.epoch then before
      else
        var gap := Assess(Carried(a.id), Carried(b.id), maxGap);
        Totals(before.skipped + gap.skipped, before.discontinuities + if gap.discontinuity then 1 else 0)
  }

  /** The sum of the true advances within epochs, and how many of them are not zero. */
  function Advance(frames: seq<Frame>): int {
    if |frames| < 2 then 0
    else
      Advance(frames[..|frames| - 1])
      + if frames[|frames| - 2].epoch != frames[|frames| - 1].epoch then 0 else frames[|frames| - 1].id - frames[|frames| - 2].id
  }

  function Moves(frames: seq<Frame>): nat {
    if |frames| < 2 then 0
    else
      Moves(frames[..|frames| - 1])
      + if frames[|frames| - 2].epoch == frames[|frames| - 1].epoch && frames[|frames| - 1].id != frames[|frames| - 2].id
        then 1 else 0
  }

  predicate WithinGap(a: Frame, b: Frame, maxGap: Gap) {
    a.epoch == b.epoch ==> 0 <= b.id - a.id <= maxGap + 1
  }

  /** Across any number of rollovers, what is counted as skipped is exactly what is missing, and nothing is a discontinuity. */
  lemma {:induction false} SkippedIsExact(frames: seq<Frame>, maxGap: Gap)
    requires forall i | 0 < i < |frames| :: WithinGap(frames[i - 1], frames[i], maxGap)
    ensures Count(frames, maxGap).skipped == Advance(frames) - Moves(frames) && Count(frames, maxGap).discontinuities == 0
  {
    if |frames| >= 2 {
      var n := |frames| - 1;
      SkippedIsExact(frames[..n], maxGap);
      assert WithinGap(frames[n - 1], frames[n], maxGap);
      if frames[n - 1].epoch == frames[n].epoch {
        AssessIs(frames[n - 1].id, frames[n].id, maxGap);
        assert (frames[n].id - frames[n - 1].id) % Modulus == frames[n].id - frames[n - 1].id;
      }
    }
  }

  /** Every frame whose advance aliases none within the gap adds nothing skipped and one discontinuity. */
  lemma JumpIsDiscontinuity(frames: seq<Frame>, next: Frame, maxGap: Gap)
    requires frames != [] && frames[|frames| - 1].epoch == next.epoch
    requires !AliasesWithin(next.id - frames[|frames| - 1].id, maxGap)
    ensures Count(frames + [next], maxGap)
            == Totals(Count(frames, maxGap).skipped, Count(frames, maxGap).discontinuities + 1)
  {
    var last := frames[|frames| - 1];
    assert (frames + [next])[..|frames|] == frames;
    NotAliased(last.id, next.id, maxGap);
    AssessIs(last.id, next.id, maxGap);
  }

  // ---- the counters ----

  class FrameCounter {
    const maxGap: Gap
    var haveGoodFrame: bool
    var lastUniqueId: Int32
    var epoch: nat
    var skipped: nat
    var discontinuities: nat
    ghost var frames: seq<Frame>

    ghost predicate Valid()
      reads this
    {
      && haveGoodFrame == (frames != [])
      && (frames != [] ==> lastUniqueId == Carried(frames[|frames| - 1].id) && epoch == frames[|frames| - 1].epoch)
      && Totals(skipped, discontinuities) == Count(frames, maxGap)
    }

    constructor (maxGap: Gap)
      ensures Valid() && frames == [] && this.maxGap == maxGap
    {
      this.maxGap := maxGap;
      haveGoodFrame, lastUniqueId, epoch, skipped, discontinuities, frames := false, 0, 0, 0, 0, [];
    }

    /** A good frame arrives. */
    method Accept(uniqueId: Int32, epoch: nat, ghost id: int)
      requires Valid() && uniqueId == Carried(id)
      modifies this
      ensures Valid() && frames == old(frames) + [Frame(id, epoch)]
    {
      assert (frames + [Frame(id, epoch)])[..|frames|] == frames;
      if haveGoodFrame && this.epoch == epoch {
        var gap := Assess(lastUniqueId, uniqueId, maxGap);
        skipped := skipped + gap.skipped;
        discontinuities := discontinuities + if gap.discontinuity then 1 else 0;
      }
      lastUniqueId, haveGoodFrame, this.epoch := uniqueId, true, epoch;
      frames := frames + [Frame(id, epoch)];
    }
  }
}
