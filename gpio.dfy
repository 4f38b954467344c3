/**
  GPIO output pins over the ports' output data registers.

  A 16-bit register value is modelled as the set of its bit positions that
  are 1, and a pin mask as the set of bit positions it covers. The bank holds
  one output data register per port; a pin is a port number and its mask.
  Writing a mask to a port's bit-set register sets exactly those bits,
  writing it to the bit-reset register clears them, and `ODR ^= mask`
  flips them.
 */
module Gpio {

  /** A bit position of a 16-bit register. */
  type BitIndex = b: nat | b < 16

  /** A register value or mask: the positions of its 1-bits. */
  type Bits16 = set<BitIndex>

  datatype Pin = Pin(port: nat, mask: Bits16)

  /** The output data registers of all ports, indexed by port number. */
  type Bank = seq<Bits16>

  predicate OnBank(bank: Bank, p: Pin)
  {
    p.port < |bank|
  }

  /** The register bits of `bank` that pin `p` drives. */
  function Bits(bank: Bank, p: Pin): Bits16
    requires OnBank(bank, p)
  {
    bank[p.port] * p.mask
  }

  predicate IsHigh(bank: Bank, p: Pin)
    requires OnBank(bank, p)
  {
    Bits(bank, p) == p.mask
  }

  predicate IsLow(bank: Bank, p: Pin)
    requires OnBank(bank, p)
  {
    Bits(bank, p) == {}
  }

  /** Two pins that never share a register bit. */
  predicate Disjoint(p: Pin, q: Pin)
  {
    p.port != q.port || p.mask !! q.mask
  }

  /** A write of `p.mask` to the bit-set register (BSRR) of `p.port`. */
  function SetPin(bank: Bank, p: Pin): (r: Bank)
    requires OnBank(bank, p)
    ensures |r| == |bank| && IsHigh(r, p)
    ensures r[p.port] - p.mask == bank[p.port] - p.mask
    ensures forall i :: 0 <= i < |bank| && i != p.port ==> r[i] == bank[i]
  {
    bank[p.port := bank[p.port] + p.mask]
  }

  /** A write of `p.mask` to the bit-reset register (BRR) of `p.port`. */
  function ClearPin(bank: Bank, p: Pin): (r: Bank)
    requires OnBank(bank, p)
    ensures |r| == |bank| && IsLow(r, p)
    ensures r[p.port] - p.mask == bank[p.port] - p.mask
    ensures forall i :: 0 <= i < |bank| && i != p.port ==> r[i] == bank[i]
  {
    bank[p.port := bank[p.port] - p.mask]
  }

  /** The read-modify-write `ODR ^= mask` on `p.port`. */
  function TogglePin(bank: Bank, p: Pin): (r: Bank)
    requires OnBank(bank, p)
    ensures |r| == |bank|
    ensures Bits(r, p) == p.mask - bank[p.port]
    ensures r[p.port] - p.mask == bank[p.port] - p.mask
    ensures forall i :: 0 <= i < |bank| && i != p.port ==> r[i] == bank[i]
  {
    bank[p.port := (bank[p.port] - p.mask) + (p.mask - bank[p.port])]
  }

  /** Toggling a pin twice gives back the register bank it started from. */
  lemma ToggleTwiceRestores(bank: Bank, p: Pin)
    requires OnBank(bank, p)
    ensures TogglePin(TogglePin(bank, p), p) == bank
  {
    var twice := TogglePin(TogglePin(bank, p), p);
    assert twice[p.port] == bank[p.port];
  }

  /** A toggle turns a pin that was fully high low and one that was low high. */
  lemma ToggleFlipsLevel(bank: Bank, p: Pin)
    requires OnBank(bank, p)
    ensures IsHigh(bank, p) ==> IsLow(TogglePin(bank, p), p)
    ensures IsLow(bank, p) ==> IsHigh(TogglePin(bank, p), p)
  {
    if IsLow(bank, p) {
      forall b | b in p.mask
        ensures b !in bank[p.port]
      {
        assert b !in Bits(bank, p);
      }
      assert p.mask - bank[p.port] == p.mask;
    }
  }

  /** Driving one pin never disturbs the bits of a pin it shares no bit with. */
  lemma DisjointPinUntouched(bank: Bank, p: Pin, q: Pin)
    requires OnBank(bank, p) && OnBank(bank, q) && Disjoint(p, q)
    ensures Bits(SetPin(bank, p), q) == Bits(bank, q)
    ensures Bits(ClearPin(bank, p), q) == Bits(bank, q)
    ensures Bits(TogglePin(bank, p), q) == Bits(bank, q)
  {
  }

  /** Clearing a pin never raises a bit of any other pin. */
  lemma ClearKeepsLow(bank: Bank, p: Pin, q: Pin)
    requires OnBank(bank, p) && OnBank(bank, q) && IsLow(bank, q)
    ensures IsLow(ClearPin(bank, p), q)
  {
  }

  /**
    The bank after clearing each pin of `pins` in order, first to last:
    the effect of a loop that switches off a list of outputs one by one.
   */
  function ClearEach(bank: Bank, pins: seq<Pin>): (r: Bank)
    requires forall k :: 0 <= k < |pins| ==> OnBank(bank, pins[k])
    ensures |r| == |bank|
    decreases |pins|
  {
    if pins == [] then bank
    else
      var init, last := pins[..|pins| - 1], pins[|pins| - 1];
      assert forall k :: 0 <= k < |init| ==> init[k] == pins[k];
      assert OnBank(bank, last);
      ClearPin(ClearEach(bank, init), last)
  }

  /** After `ClearEach`, every pin of the list is low, whatever the bank held. */
  lemma {:induction false} ClearEachLeavesAllLow(bank: Bank, pins: seq<Pin>)
    requires forall k :: 0 <= k < |pins| ==> OnBank(bank, pins[k])
    ensures forall k :: 0 <= k < |pins| ==> IsLow(ClearEach(bank, pins), pins[k])
    decreases |pins|
  {
    if pins != [] {
      var init, last := pins[..|pins| - 1], pins[|pins| - 1];
      ClearEachLeavesAllLow(bank, init);
      var before := ClearEach(bank, init);
      forall k | 0 <= k < |pins|
        ensures IsLow(ClearEach(bank, pins), pins[k])
      {
        if k < |pins| - 1 {
          assert pins[k] == init[k];
          ClearKeepsLow(before, last, pins[k]);
        }
      }
    }
  }

  /** `ClearEach` leaves the bits of every pin disjoint from the list as they were. */
  lemma {:induction false} ClearEachKeepsOthers(bank: Bank, pins: seq<Pin>, q: Pin)
    requires forall k :: 0 <= k < |pins| ==> OnBank(bank, pins[k])
    requires OnBank(bank, q)
    requires forall k :: 0 <= k < |pins| ==> Disjoint(pins[k], q)
    ensures Bits(ClearEach(bank, pins), q) == Bits(bank, q)
    decreases |pins|
  {
    if pins != [] {
      var init, last := pins[..|pins| - 1], pins[|pins| - 1];
      ClearEachKeepsOthers(bank, init, q);
      DisjointPinUntouched(ClearEach(bank, init), last, q);
    }
  }
}
