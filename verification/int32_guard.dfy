/**
 The capacity guard of `buildParticleNode` as the C++ evaluates it: `m_count`
 is a 32-bit `int`, so `m_count * 4` is a 32-bit product. Under two's
 complement wrap-around a huge count makes the product small again and passes
 the guard, after which the build allocates `4*count` (wrapped) vertices and
 fills `count` quads. `QuadBuffer.CheckCapacity` is the guard on unbounded
 integers that the rest of the model uses.
 */
module Int32Guard {
  import QuadBuffer
  import Wrappers

  /** Values of a 32-bit signed `int` */
  predicate IsInt32(x: int)
  {
    -0x8000_0000 <= x < 0x8000_0000
  }

  /** Two's complement reduction of `x` to 32 bits */
  function Wrap32(x: int): (r: int)
    ensures IsInt32(r)
    ensures (x - r) % 0x1_0000_0000 == 0
    ensures IsInt32(x) ==> r == x
  {
    var m := x % 0x1_0000_0000;
    if m < 0x8000_0000 then m else m - 0x1_0000_0000
  }

  /** The guard as written: `m_count * 4 > 0xffff` with a wrapping product,
      then `m_count <= 0`. True when the build is rejected. */
  function RejectsAsWritten(count: int): (r: bool)
    requires IsInt32(count)
    ensures count <= 0 ==> r
    ensures 0 < count <= 0x3fff ==> !r
  {
    Wrap32(count * 4) > 0xffff || count <= 0
  }

  /** The count 2^30 passes the guard as written although it needs 2^32
      vertices, far beyond what 16-bit indices can address */
  lemma GuardAdmitsOverflowingCount()
    ensures IsInt32(0x4000_0000)
    ensures !RejectsAsWritten(0x4000_0000)
    ensures QuadBuffer.CheckCapacity(0x4000_0000) == Wrappers.Some(QuadBuffer.TooManyParticles)
  {
  }

  /** Whenever the product cannot overflow, the guard as written and the
      corrected guard agree */
  lemma GuardsAgreeWithoutOverflow(count: int)
    requires -0x2000_0000 <= count < 0x2000_0000
    ensures RejectsAsWritten(count) <==> QuadBuffer.CheckCapacity(count).Some?
  {
  }
}
