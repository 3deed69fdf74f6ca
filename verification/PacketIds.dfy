// Packet identifier candidates (src/runtime/pkid.rs).
module PacketIds {
  import opened Bytes

  // The values of a PacketIdPool's fields.
  datatype Pool = Pool(last: uint16, max: uint16)

  ghost predicate ValidPool(p: Pool) {
    0 < p.max && p.last <= p.max
  }

  // The candidate after `p.last`; the u16 addition wraps.
  function NextId(p: Pool): uint16 {
    var next := (p.last + 1) % 0x1_0000;
    if next == 0 || next > p.max then 1 else next
  }

  function Advance(p: Pool): Pool {
    p.(last := NextId(p))
  }

  // The next n candidates.
  function Candidates(p: Pool, n: nat): seq<uint16>
    decreases n
  {
    if n == 0 then [] else [NextId(p)] + Candidates(Advance(p), n - 1)
  }

  class PacketIdPool {
    var lastPkid: uint16
    const maxInflight: uint16

    ghost function View(): Pool
      reads this
    {
      Pool(lastPkid, maxInflight)
    }

    constructor (max: uint16)
      requires max > 0
      ensures View() == Pool(0, max)
    {
      lastPkid := 0;
      maxInflight := max;
    }

    method NextCandidate() returns (next: uint16)
      modifies this
      ensures next == NextId(old(View()))
      ensures View() == Advance(old(View()))
    {
      next := (lastPkid + 1) % 0x1_0000;
      if next == 0 || next > maxInflight {
        next := 1;
      }
      lastPkid := next;
    }

    method Reset()
      modifies this
      ensures View() == old(View()).(last := 0)
    {
      lastPkid := 0;
    }
  }

  // Candidate number i, in closed form, for the first two turns around the ring.
  lemma {:induction false} CandidateAt(p: Pool, n: nat, i: nat)
    requires ValidPool(p) && i < n && p.last + i < 2 * p.max
    ensures |Candidates(p, n)| == n
    ensures Candidates(p, n)[i] == if p.last + i < p.max then p.last + i + 1 else p.last + i + 1 - p.max
    decreases n, 1
  {
    CandidatesLength(p, n);
    if i > 0 {
      CandidatesLength(Advance(p), n - 1);
      if p.last == p.max {
        WrapCandidate(p, n, i);
      } else {
        CandidateAt(Advance(p), n - 1, i - 1);
      }
    }
  }

  lemma {:induction false} CandidatesLength(p: Pool, n: nat)
    ensures |Candidates(p, n)| == n
    decreases n
  {
    if n > 0 {
      CandidatesLength(Advance(p), n - 1);
    }
  }

  // A pool that stands on its last id counts on like a fresh one.
  lemma {:induction false} WrapCandidate(p: Pool, n: nat, i: nat)
    requires ValidPool(p) && p.last == p.max && i < n && i < p.max
    ensures |Candidates(p, n)| == n && Candidates(p, n)[i] == i + 1
    decreases n, 0
  {
    CandidatesLength(p, n);
    if i > 0 {
      var q := Advance(p);
      CandidatesLength(q, n - 1);
      CandidateAt(q, n - 1, i - 1);
    }
  }

  // Any max consecutive candidates are a permutation of 1..max.
  lemma {:induction false} WindowIsPermutation(p: Pool)
    requires ValidPool(p)
    ensures var ids := Candidates(p, p.max);
            && |ids| == p.max
            && (forall i, j :: 0 <= i < j < |ids| ==> ids[i] != ids[j])
            && (forall id: uint16 :: id in ids <==> 1 <= id <= p.max)
  {
    var ids := Candidates(p, p.max);
    CandidatesLength(p, p.max);
    forall i | 0 <= i < |ids|
      ensures ids[i] == if p.last + i < p.max then p.last + i + 1 else p.last + i + 1 - p.max
    {
      CandidateAt(p, p.max, i);
    }
    forall id: uint16 | 1 <= id <= p.max
      ensures id in ids
    {
      var i := if id > p.last then id - 1 - p.last else id - 1 - p.last + p.max;
      assert ids[i] == id;
    }
  }
}
