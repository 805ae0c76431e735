/**
 * Identifier generation: 32 characters drawn at random from a 62-character alphanumeric set,
 * redrawn until the result has not been handed out before.
 */
module Ids {

  type Uuid = string

  const UuidLength: nat := 32
  const Charset: string := "abcdefghijklmnopqrstuvwxyzABCDEFGHIJKLMNOPQRSTUVWXYZ0123456789"

  /** One round of the random source: an index into `Charset` for each position of an id. */
  predicate IsDraw(draw: seq<nat>) {
    |draw| == UuidLength && forall i :: 0 <= i < |draw| ==> draw[i] < |Charset|
  }

  /** The successive rounds the random source produces. */
  predicate AreDraws(draws: seq<seq<nat>>) {
    forall k :: 0 <= k < |draws| ==> IsDraw(draws[k])
  }

  /** A well-formed identifier: the right length, every character from the charset. */
  predicate IsUuid(id: Uuid) {
    |id| == UuidLength && forall i :: 0 <= i < |id| ==> id[i] in Charset
  }

  /** The identifier a round of draws spells out. */
  function Candidate(draw: seq<nat>): Uuid
    requires IsDraw(draw)
  {
    seq(UuidLength, i requires 0 <= i < UuidLength => Charset[draw[i]])
  }

  function Candidates(draws: seq<seq<nat>>): set<Uuid>
    requires AreDraws(draws)
  {
    set k | 0 <= k < |draws| :: Candidate(draws[k])
  }

  /** Some round spells an identifier outside `used`: the retry loop then stops. */
  predicate HasFreshCandidate(draws: seq<seq<nat>>, used: set<Uuid>)
    requires AreDraws(draws)
  {
    exists k :: 0 <= k < |draws| && Candidate(draws[k]) !in used
  }

  /** The inner loop of `newUUID`: fill the byte buffer one position at a time. */
  method DrawCandidate(draw: seq<nat>) returns (id: Uuid)
    requires IsDraw(draw)
    ensures id == Candidate(draw) && IsUuid(id)
  {
    var b := new char[UuidLength];
    for i := 0 to UuidLength
      invariant forall j :: 0 <= j < i ==> b[j] == Charset[draw[j]]
    {
      b[i] := Charset[draw[i]];
    }
    id := b[..];
  }

  /** The set of identifiers handed out so far (Go's `uuids`). */
  class UuidPool {
    var uuids: set<Uuid>

    constructor ()
      ensures uuids == {}
    {
      uuids := {};
    }

    /** `newUUID`: redraw until the candidate is unused, then record it. */
    method NewUuid(draws: seq<seq<nat>>) returns (id: Uuid)
      requires AreDraws(draws) && HasFreshCandidate(draws, uuids)
      modifies this
      ensures id !in old(uuids) && uuids == old(uuids) + {id}
      ensures IsUuid(id) && id in Candidates(draws)
    {
      ghost var w :| 0 <= w < |draws| && Candidate(draws[w]) !in uuids;
      var k := 0;
      id := DrawCandidate(draws[k]);
      while id in uuids
        invariant uuids == old(uuids)
        invariant 0 <= k <= w && id == Candidate(draws[k])
        decreases w - k
      {
        k := k + 1;
        id := DrawCandidate(draws[k]);
      }
      uuids := uuids + {id};
    }
  }

  /** Two successive calls never return the same identifier. */
  method NewUuidTwice(pool: UuidPool, first: seq<seq<nat>>, second: seq<seq<nat>>) returns (a: Uuid, b: Uuid)
    requires AreDraws(first) && AreDraws(second)
    requires HasFreshCandidate(first, pool.uuids)
    requires HasFreshCandidate(second, pool.uuids + Candidates(first))
    modifies pool
    ensures a != b && a !in old(pool.uuids) && b !in old(pool.uuids)
    ensures pool.uuids == old(pool.uuids) + {a, b}
  {
    a := pool.NewUuid(first);
    ghost var k :| 0 <= k < |second| && Candidate(second[k]) !in old(pool.uuids) + Candidates(first);
    assert Candidate(second[k]) !in pool.uuids;
    b := pool.NewUuid(second);
  }
}
