/** The acknowledgement record of protocol/file_udp.cpp, as a value: a mark `mainAck`
    and the active entries of the 16-slot NAK table, read as a set of received packets. */
module AckTable {

  const NAK_SIZE: nat := 16
  const INACTIVE: nat := 0xFFFF_FFFF

  /** `naks` lists the active slots; the slots after them hold INACTIVE. */
  datatype Ack = Ack(mainAck: nat, naks: seq<nat>)

  datatype Outcome = Outcome(ack: Ack, accepted: bool)

  const EMPTY: Ack := Ack(0, [])

  predicate Increasing(s: seq<nat>) {
    forall i, j | 0 <= i < j < |s| :: s[i] < s[j]
  }

  /** The NAKs are increasing and lie below a received packet, `mainAck - 1`. */
  predicate Shaped(a: Ack) {
    && Increasing(a.naks)
    && forall n | n in a.naks :: n + 1 < a.mainAck
  }

  predicate Canonical(a: Ack) {
    Shaped(a) && |a.naks| <= NAK_SIZE
  }

  /** `isAcked`: below the mark and not a hole. */
  predicate Holds(a: Ack, i: nat) {
    i < a.mainAck && i !in a.naks
  }

  /** `bottom_ack`. */
  function Bottom(a: Ack): nat {
    if |a.naks| == 0 then a.mainAck else a.naks[0]
  }

  function Received(a: Ack): (r: set<nat>)
    ensures forall i: nat :: i in r <==> Holds(a, i)
  {
    set i: nat | 0 <= i < a.mainAck && i !in a.naks
  }

  ghost predicate Contained(a: Ack, b: Ack) {
    forall i: nat | Holds(a, i) :: Holds(b, i)
  }

  function Range(lo: nat, hi: nat): (r: seq<nat>)
    requires lo <= hi
    ensures |r| == hi - lo
    ensures forall k | 0 <= k < |r| :: r[k] == lo + k
    ensures forall n: nat :: n in r <==> lo <= n < hi
    decreases hi
  {
    if lo == hi then [] else Range(lo, hi - 1) + [hi - 1]
  }

  function Without(s: seq<nat>, x: nat): (r: seq<nat>)
    ensures |s| - 1 <= |r| <= |s|
  {
    if s == [] then []
    else if s[0] == x then s[1..]
    else [s[0]] + Without(s[1..], x)
  }

  /** `update`: extend the mark, open new holes while there are slots for all of them,
      or fill an old hole; a refusal changes nothing. */
  function Update(a: Ack, s: nat): Outcome {
    if s == a.mainAck then
      Outcome(Ack(s + 1, a.naks), true)
    else if a.mainAck < s then
      if a.mainAck + (NAK_SIZE - |a.naks|) < s then Outcome(a, false)
      else Outcome(Ack(s + 1, a.naks + Range(a.mainAck, s)), true)
    else if s in a.naks then
      Outcome(Ack(a.mainAck, Without(a.naks, s)), true)
    else
      Outcome(a, false)
  }

  // ----- The table is a canonical form of the received set -----

  /** Indices below `m` that are missing from `r`. */
  function Missing(r: set<nat>, m: nat): set<nat> {
    set i: nat | 0 <= i < m && i !in r
  }

  /** `m` is one more than the largest element of `r`, or 0 when `r` is empty. */
  ghost predicate IsMark(r: set<nat>, m: nat) {
    && (forall i | i in r :: i < m)
    && (m == 0 || m - 1 in r)
  }

  /** The set can be written down with 16 NAK slots. */
  ghost predicate Representable(r: set<nat>) {
    exists m: nat :: IsMark(r, m) && |Missing(r, m)| <= NAK_SIZE
  }

  function Elements(s: seq<nat>): set<nat> {
    set x | x in s
  }

  lemma {:induction false} SizeOfIncreasing(s: seq<nat>)
    requires Increasing(s)
    ensures |Elements(s)| == |s|
  {
    if s != [] {
      var front, last := s[..|s| - 1], s[|s| - 1];
      SizeOfIncreasing(front);
      assert s == front + [last];
      assert Elements(s) == Elements(front) + {last};
      assert last !in front;
    }
  }

  lemma ShapeOfSet(a: Ack)
    requires Shaped(a)
    ensures IsMark(Received(a), a.mainAck)
    ensures Missing(Received(a), a.mainAck) == Elements(a.naks)
    ensures |Missing(Received(a), a.mainAck)| == |a.naks|
  {
    SizeOfIncreasing(a.naks);
    assert Missing(Received(a), a.mainAck) == Elements(a.naks);
    if a.mainAck > 0 {
      assert Holds(a, a.mainAck - 1);
    }
  }

  lemma RepresentableIff(a: Ack)
    requires Shaped(a)
    ensures Representable(Received(a)) <==> |a.naks| <= NAK_SIZE
  {
    ShapeOfSet(a);
    var r := Received(a);
    forall m: nat | IsMark(r, m) ensures m == a.mainAck {
    }
    if |a.naks| <= NAK_SIZE {
      assert IsMark(r, a.mainAck) && |Missing(r, a.mainAck)| <= NAK_SIZE;
    }
  }

  lemma {:induction false} WithoutFacts(s: seq<nat>, x: nat)
    requires Increasing(s)
    ensures Increasing(Without(s, x))
    ensures forall n :: n in Without(s, x) <==> n in s && n != x
    ensures x in s ==> |Without(s, x)| == |s| - 1
  {
    if s != [] {
      WithoutFacts(s[1..], x);
      var t := Without(s[1..], x);
      if s[0] == x {
        assert forall n :: n in s <==> n == s[0] || n in s[1..];
      } else {
        var r := [s[0]] + t;
        forall i, j | 0 <= i < j < |r| ensures r[i] < r[j] {
          if i == 0 {
            assert t[j - 1] in t;
            assert t[j - 1] in s[1..];
          } else {
            assert r[i] == t[i - 1] && r[j] == t[j - 1];
          }
        }
        assert forall n :: n in s <==> n == s[0] || n in s[1..];
      }
    }
  }

  /** The record of `Received(a) + {s}`, of any size. */
  function Extended(a: Ack, s: nat): Ack {
    if s >= a.mainAck then Ack(s + 1, a.naks + Range(a.mainAck, s))
    else Ack(a.mainAck, Without(a.naks, s))
  }

  lemma ExtendedFacts(a: Ack, s: nat)
    requires Shaped(a) && !Holds(a, s)
    ensures Shaped(Extended(a, s))
    ensures Received(Extended(a, s)) == Received(a) + {s}
  {
    var e := Extended(a, s);
    if s < a.mainAck {
      WithoutFacts(a.naks, s);
    } else {
      forall n | n in e.naks ensures n + 1 < e.mainAck {
        assert n in a.naks || n in Range(a.mainAck, s);
      }
      forall i, j | 0 <= i < j < |e.naks| ensures e.naks[i] < e.naks[j] {
        if i < |a.naks| <= j {
          assert a.naks[i] in a.naks;
        }
      }
    }
    forall i: nat ensures Holds(e, i) <==> Holds(a, i) || i == s {
    }
  }

  /** `update` is exact and all-or-nothing: it returns true exactly when the packet is new and
      the enlarged set fits the table; then the set gains that packet and nothing else, and
      otherwise the record is the same. */
  lemma UpdateExact(a: Ack, s: nat)
    requires Canonical(a)
    ensures var o := Update(a, s);
            && Canonical(o.ack)
            && (o.accepted <==> s !in Received(a) && Representable(Received(a) + {s}))
            && Received(o.ack) == (if o.accepted then Received(a) + {s} else Received(a))
            && (!o.accepted ==> o.ack == a)
  {
    if !Holds(a, s) {
      ExtendedFacts(a, s);
      RepresentableIff(Extended(a, s));
      if s < a.mainAck {
        assert s in a.naks;
      } else if s == a.mainAck {
        assert a.naks + Range(s, s) == a.naks;
      }
    }
  }

  lemma SubsetSize(a: set<nat>, b: set<nat>)
    requires a <= b
    ensures |a| <= |b|
  {
    assert b == a + (b - a);
  }

  lemma {:induction false} RangeSize(lo: nat, hi: nat)
    requires lo <= hi
    ensures |Elements(Range(lo, hi))| == hi - lo
  {
    SizeOfIncreasing(Range(lo, hi));
  }

  /** The holes below s: those of the table, and the gap up to s. */
  lemma HolesBelow(a: Ack, s: nat)
    requires Shaped(a)
    ensures |Missing(Received(a), s)| <= |a.naks| + if s >= a.mainAck then s - a.mainAck else 0
    ensures s >= a.mainAck ==> |Missing(Received(a), s)| == |a.naks| + (s - a.mainAck)
  {
    SizeOfIncreasing(a.naks);
    if s >= a.mainAck {
      RangeSize(a.mainAck, s);
      var gap := Elements(Range(a.mainAck, s));
      assert Elements(a.naks) !! gap;
      assert Missing(Received(a), s) == Elements(a.naks) + gap;
    } else {
      SubsetSize(Missing(Received(a), s), Elements(a.naks));
    }
  }

  /** A packet is accepted exactly when it is new and the holes below it fit in the 16 slots. */
  lemma AcceptedIffHolesFit(a: Ack, s: nat)
    requires Canonical(a)
    ensures Update(a, s).accepted <==> !Holds(a, s) && |Missing(Received(a), s)| <= NAK_SIZE
  {
    HolesBelow(a, s);
  }

  lemma {:induction false} IncreasingUnique(s: seq<nat>, t: seq<nat>)
    requires Increasing(s) && Increasing(t)
    requires forall n :: n in s <==> n in t
    ensures s == t
  {
    assert |s| > 0 ==> s[0] in t;
    assert |t| > 0 ==> t[0] in s;
    if s != [] {
      forall n ensures n in s[1..] <==> n in t[1..] {
        assert n in s <==> n == s[0] || n in s[1..];
        assert n in t <==> n == t[0] || n in t[1..];
      }
      IncreasingUnique(s[1..], t[1..]);
      assert s == [s[0]] + s[1..];
      assert t == [t[0]] + t[1..];
    }
  }

  /** The record is determined by the set it stands for. */
  lemma CanonicalUnique(a: Ack, b: Ack)
    requires Shaped(a) && Shaped(b)
    requires Received(a) == Received(b)
    ensures a == b
  {
    ShapeOfSet(a);
    ShapeOfSet(b);
    assert a.mainAck == b.mainAck;
    forall n ensures n in a.naks <==> n in b.naks {
      assert n in Missing(Received(a), a.mainAck) <==> n in a.naks;
      assert n in Missing(Received(b), b.mainAck) <==> n in b.naks;
    }
    IncreasingUnique(a.naks, b.naks);
  }

  // ----- Histories of update calls -----

  function Replay(a: Ack, history: seq<nat>): Ack
    decreases |history|
  {
    if history == [] then a else Replay(Update(a, history[0]).ack, history[1..])
  }

  /** The packets of a history for which `update` returns true. */
  function AcceptedIn(a: Ack, history: seq<nat>): set<nat>
    decreases |history|
  {
    if history == [] then {}
    else
      var o := Update(a, history[0]);
      (if o.accepted then {history[0]} else {}) + AcceptedIn(o.ack, history[1..])
  }

  lemma {:induction false} ReplayExact(a: Ack, history: seq<nat>)
    requires Canonical(a)
    ensures Canonical(Replay(a, history))
    ensures Received(Replay(a, history)) == Received(a) + AcceptedIn(a, history)
    decreases |history|
  {
    if history != [] {
      UpdateExact(a, history[0]);
      ReplayExact(Update(a, history[0]).ack, history[1..]);
    }
  }

  /** After any calls the record is the canonical one of the accepted set: the mark is one past
      its maximum, the NAKs are its holes in increasing order, and the order of the calls and
      the refused packets leave no trace. */
  lemma HistoryIndependent(h1: seq<nat>, h2: seq<nat>)
    ensures var a := Replay(EMPTY, h1);
            && Received(a) == AcceptedIn(EMPTY, h1)
            && IsMark(AcceptedIn(EMPTY, h1), a.mainAck)
            && Elements(a.naks) == Missing(AcceptedIn(EMPTY, h1), a.mainAck)
            && Increasing(a.naks)
    ensures AcceptedIn(EMPTY, h1) == AcceptedIn(EMPTY, h2) ==>
              Replay(EMPTY, h1) == Replay(EMPTY, h2)
  {
    ReplayExact(EMPTY, h1);
    ReplayExact(EMPTY, h2);
    assert Received(EMPTY) == {};
    ShapeOfSet(Replay(EMPTY, h1));
    if AcceptedIn(EMPTY, h1) == AcceptedIn(EMPTY, h2) {
      CanonicalUnique(Replay(EMPTY, h1), Replay(EMPTY, h2));
    }
  }

  // ----- bottom_ack and containment -----

  /** `bottom_ack` is the least index not received. */
  lemma BottomIsLeastMissing(a: Ack)
    requires Shaped(a)
    ensures !Holds(a, Bottom(a))
    ensures forall i: nat | i < Bottom(a) :: Holds(a, i)
    ensures Bottom(a) <= a.mainAck
  {
    if |a.naks| > 0 {
      assert a.naks[0] in a.naks;
      assert forall k | 0 < k < |a.naks| :: a.naks[0] < a.naks[k];
    }
  }

  lemma ContainedBounds(a: Ack, b: Ack)
    requires Shaped(a) && Shaped(b) && Contained(a, b)
    ensures Bottom(a) <= Bottom(b)
    ensures a.mainAck <= b.mainAck
  {
    BottomIsLeastMissing(a);
    BottomIsLeastMissing(b);
    assert !Holds(b, Bottom(b));
    assert !Holds(a, Bottom(b));
    if a.mainAck > 0 {
      assert a.mainAck - 1 !in a.naks;
      assert Holds(a, a.mainAck - 1);
      assert Holds(b, a.mainAck - 1);
    }
  }

  lemma UpdateGrows(a: Ack, s: nat)
    requires Canonical(a)
    ensures var o := Update(a, s);
            && Canonical(o.ack) && Contained(a, o.ack)
            && (forall i: nat :: Holds(o.ack, i) <==> Holds(a, i) || (o.accepted && i == s))
            && (!o.accepted ==> o.ack == a)
            && Bottom(a) <= Bottom(o.ack)
  {
    UpdateExact(a, s);
    var o := Update(a, s);
    forall i: nat ensures Holds(o.ack, i) <==> Holds(a, i) || (o.accepted && i == s) {
      assert i in Received(o.ack) <==> Holds(o.ack, i);
      assert i in Received(a) <==> Holds(a, i);
    }
    ContainedBounds(a, o.ack);
  }
}
