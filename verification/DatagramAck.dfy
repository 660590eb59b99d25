/** `struct DatagramACK`: the record updated in place, slot by slot. */
module DatagramAcks {
  import opened AckTable

  newtype Uint32 = x: int | 0 <= x < 0x1_0000_0000

  const NO_NAK: Uint32 := 0xFFFF_FFFF

  /** The 16 slots hold `naks`, followed only by INACTIVE. */
  ghost predicate Encodes(slots: seq<Uint32>, naks: seq<nat>) {
    && |slots| == NAK_SIZE
    && |naks| <= NAK_SIZE
    && (forall k | 0 <= k < |naks| :: slots[k] as nat == naks[k] && slots[k] != NO_NAK)
    && (forall k | |naks| <= k < NAK_SIZE :: slots[k] == NO_NAK)
  }

  class DatagramAck {
    ghost var view: Ack
    var mainAck: Uint32
    const naks: array<Uint32>

    ghost predicate Valid()
      reads this, naks
    {
      && naks.Length == NAK_SIZE
      && mainAck as nat == view.mainAck
      && Encodes(naks[..], view.naks)
      && Canonical(view)
    }

    constructor ()
      ensures Valid() && fresh(naks)
      ensures view == EMPTY
    {
      view := EMPTY;
      mainAck := 0;
      naks := new Uint32[NAK_SIZE](_ => NO_NAK);
    }

    /** Struct assignment: the slots are copied, nothing is shared. */
    method CopyFrom(other: DatagramAck)
      requires Valid() && other.Valid() && naks != other.naks
      modifies this, naks
      ensures Valid() && view == other.view
    {
      for k := 0 to NAK_SIZE
        invariant naks[..k] == other.naks[..k]
        invariant unchanged(other) && unchanged(other.naks)
      {
        naks[k] := other.naks[k];
      }
      assert naks[..] == other.naks[..];
      mainAck := other.mainAck;
      view := other.view;
    }

    function BottomAck(): (b: nat)
      requires Valid()
      reads this, naks
      ensures b == Bottom(view)
      ensures !Holds(view, b) && forall i: nat | i < b :: Holds(view, i)
    {
      BottomIsLeastMissing(view);
      assert |view.naks| > 0 ==> naks[0] as nat == view.naks[0];
      if naks[0] == NO_NAK then mainAck as nat else naks[0] as nat
    }

    method IsAcked(seqIndex: nat) returns (acked: bool)
      requires Valid()
      ensures acked <==> Holds(view, seqIndex)
    {
      if seqIndex >= mainAck as nat {
        return false;
      }
      for k := 0 to NAK_SIZE
        invariant forall j | 0 <= j < k && j < |view.naks| :: view.naks[j] != seqIndex
      {
        if seqIndex == naks[k] as nat {
          return false;
        }
      }
      return true;
    }

    method Update(seqIndex: Uint32) returns (accepted: bool)
      requires Valid() && seqIndex < NO_NAK
      modifies this, naks
      ensures Valid()
      ensures Outcome(view, accepted) == AckTable.Update(old(view), seqIndex as nat)
    {
      UpdateExact(view, seqIndex as nat);
      if mainAck == seqIndex {
        mainAck := mainAck + 1;
        view := Ack(mainAck as nat, view.naks);
        return true;
      } else if mainAck < seqIndex {
        accepted := OpenHoles(seqIndex);
      } else {
        accepted := FillHole(seqIndex);
      }
    }

    /** The branch for a packet above the mark. */
    method OpenHoles(seqIndex: Uint32) returns (accepted: bool)
      requires Valid() && mainAck < seqIndex < NO_NAK
      requires Canonical(AckTable.Update(view, seqIndex as nat).ack)
      modifies this, naks
      ensures Valid()
      ensures Outcome(view, accepted) == AckTable.Update(old(view), seqIndex as nat)
    {
      ghost var m, n := mainAck as nat, |view.naks|;
      for i := 0 to NAK_SIZE
        invariant mainAck < seqIndex
        invariant i <= n ==> mainAck as nat == m && naks[..] == old(naks[..])
        invariant i > n ==> mainAck as nat + (NAK_SIZE - i) == m + (NAK_SIZE - n) >= seqIndex as nat
        invariant i > n ==> Encodes(naks[..], view.naks + Range(m, mainAck as nat))
        invariant view == old(view)
      {
        assert i < n ==> view.naks[i] in view.naks;
        if naks[i] == NO_NAK {
          // all the holes must fit, or none is opened
          if mainAck as int + (NAK_SIZE - i) < seqIndex as int {
            return false;
          }
          naks[i] := mainAck;
          mainAck := mainAck + 1;
          if mainAck == seqIndex {
            mainAck := mainAck + 1;
            view := Ack(mainAck as nat, view.naks + Range(m, seqIndex as nat));
            return true;
          }
        } else if naks[i] == seqIndex {
          return false;
        }
      }
      return false;
    }

    /** The branch for a packet below the mark. */
    method FillHole(seqIndex: Uint32) returns (accepted: bool)
      requires Valid() && mainAck > seqIndex
      requires Canonical(AckTable.Update(view, seqIndex as nat).ack)
      modifies this, naks
      ensures Valid()
      ensures Outcome(view, accepted) == AckTable.Update(old(view), seqIndex as nat)
    {
      for i := 0 to NAK_SIZE
        invariant unchanged(this) && naks[..] == old(naks[..])
        invariant forall j | 0 <= j < i && j < |view.naks| :: view.naks[j] != seqIndex as nat
      {
        if naks[i] == seqIndex {
          WithoutAt(view.naks, i);
          ClosedSlots(naks[..], view.naks, i);
          CloseSlot(i);
          view := Ack(view.mainAck, Without(view.naks, seqIndex as nat));
          return true;
        }
      }
      return false;
    }

    /** Move the slots behind slot i one place forward and free the last one. */
    method CloseSlot(i: nat)
      requires i < naks.Length == NAK_SIZE
      modifies naks
      ensures naks[..] == old(naks[..i]) + old(naks[i + 1..]) + [NO_NAK]
    {
      var k := i + 1;
      while k < NAK_SIZE
        invariant i < k <= NAK_SIZE
        invariant forall j | 0 <= j < NAK_SIZE ::
                    naks[j] == old(naks[if i <= j < k - 1 then j + 1 else j])
      {
        naks[k - 1] := naks[k];
        k := k + 1;
      }
      naks[NAK_SIZE - 1] := NO_NAK;
    }
  }

  lemma ClosedSlots(slots: seq<Uint32>, naks: seq<nat>, i: nat)
    requires Encodes(slots, naks) && i < |naks|
    ensures Encodes(slots[..i] + slots[i + 1..] + [NO_NAK], naks[..i] + naks[i + 1..])
  {
  }

  lemma {:induction false} WithoutAt(s: seq<nat>, i: nat)
    requires i < |s| && Increasing(s)
    ensures Without(s, s[i]) == s[..i] + s[i + 1..]
  {
    if i > 0 {
      var t := s[1..];
      assert s[0] < s[i] == t[i - 1];
      WithoutAt(t, i - 1);
      assert t[..i - 1] == s[1..i] && t[i..] == s[i + 1..];
      assert [s[0]] + s[1..i] == s[..i];
    }
  }
}
