/** backend/app/security/integrity.py and the MAC of backend/app/security/crypto.py.
    The MAC and the canonical metadata encoding are parameters; where a theorem needs them injective it says so. */
module IntegrityChain {
  import opened Basics
  import opened Framing

  /** The JSON object built by integrity_metadata. */
  datatype Metadata = Metadata(
    eventId: string, eventType: string, schemaVersion: string, sourceId: string,
    occurredAt: int, receivedAt: int, streamId: string, seqNo: int)

  /** The columns of a raw_events row that take part in the chain. */
  datatype Link = Link(
    metadata: Metadata, ciphertext: bytes, nonce: bytes, keyId: bytes, prevMac: bytes, mac: bytes)

  /** The keyed MAC over framed bytes and the metadata encoding. */
  datatype Keys = Keys(mac: bytes -> bytes, encode: Metadata -> bytes)

  ghost predicate Injective<A(!new), B>(f: A -> B)
  {
    forall x, y :: f(x) == f(y) ==> x == y
  }

  /** compute_integrity_mac, or None where a length does not fit its prefix. */
  function ComputeMac(k: Keys, prev: bytes, m: Metadata, ciphertext: bytes, nonce: bytes, keyId: bytes): Option<bytes>
  {
    match Frame(MacInput(prev, k.encode(m), ciphertext, nonce, keyId))
    case None => None
    case Some(framed) => Some(k.mac(framed))
  }

  function Recompute(k: Keys, l: Link): Option<bytes>
  {
    ComputeMac(k, l.prevMac, l.metadata, l.ciphertext, l.nonce, l.keyId)
  }

  function LastMac(links: seq<Link>): bytes
  {
    if links == [] then [] else links[|links| - 1].mac
  }

  /** l continues the chain `before`: next number, predecessor's MAC (empty at first), MAC recomputes. */
  predicate Continues(k: Keys, before: seq<Link>, l: Link)
  {
    && l.metadata.seqNo == |before| + 1
    && l.prevMac == LastMac(before)
    && Recompute(k, l) == Some(l.mac)
  }

  ghost predicate Clean(k: Keys, links: seq<Link>)
  {
    links == [] || (Clean(k, links[..|links| - 1]) && Continues(k, links[..|links| - 1], links[|links| - 1]))
  }

  lemma CleanAppend(k: Keys, links: seq<Link>, l: Link)
    ensures Clean(k, links + [l]) <==> Clean(k, links) && Continues(k, links, l)
  {
    assert (links + [l])[..|links|] == links;
  }

  /** Cutting off the end of a clean chain leaves a clean chain: verification alone does not see truncation. */
  lemma {:induction false} TruncationStaysClean(k: Keys, links: seq<Link>, n: nat)
    requires Clean(k, links) && n <= |links|
    ensures Clean(k, links[..n])
  {
    if n < |links| {
      TruncationStaysClean(k, links[..|links| - 1], n);
      assert links[..|links| - 1][..n] == links[..n];
    } else {
      assert links[..n] == links;
    }
  }

  /** Position i carries number i + 1, the preceding MAC (empty at first) and a MAC that recomputes. */
  ghost predicate Stands(k: Keys, links: seq<Link>, i: nat)
    requires i < |links|
  {
    && links[i].metadata.seqNo == i + 1
    && links[i].prevMac == (if i == 0 then [] else links[i - 1].mac)
    && Recompute(k, links[i]) == Some(links[i].mac)
  }

  /** Clean, position by position. */
  lemma {:induction false} CleanMeans(k: Keys, links: seq<Link>)
    ensures Clean(k, links) <==> forall i | 0 <= i < |links| :: Stands(k, links, i)
  {
    if links != [] {
      var n := |links| - 1;
      var init := links[..n];
      CleanMeans(k, init);
      forall i | 0 <= i < n ensures Stands(k, links, i) <==> Stands(k, init, i) {
        assert init[i] == links[i];
        if i > 0 { assert init[i - 1] == links[i - 1]; }
      }
      assert Continues(k, init, links[n]) <==> Stands(k, links, n);
      if forall i | 0 <= i < |links| :: Stands(k, links, i) {
        forall i | 0 <= i < n ensures Stands(k, init, i) {
          assert Stands(k, links, i);
        }
        assert Stands(k, links, n);
      }
      if Clean(k, links) {
        forall i | 0 <= i < |links| ensures Stands(k, links, i) {
          if i < n { assert Stands(k, init, i); }
        }
      }
    }
  }

  /** The bytes a link's MAC is computed over. */
  function Framed(k: Keys, l: Link): Option<bytes>
  {
    Frame(MacInput(l.prevMac, k.encode(l.metadata), l.ciphertext, l.nonce, l.keyId))
  }

  /** The MAC does not collide on any pair of links taken from the two chains. */
  ghost predicate CollisionFree(k: Keys, a: seq<Link>, b: seq<Link>)
  {
    forall x, y | x in a && y in b && Framed(k, x).Some? && Framed(k, y).Some? ::
      k.mac(Framed(k, x).value) == k.mac(Framed(k, y).value) ==> Framed(k, x) == Framed(k, y)
  }

  lemma SameMacSameLink(k: Keys, a: seq<Link>, b: seq<Link>, x: Link, y: Link)
    requires Injective(k.encode) && CollisionFree(k, a, b) && x in a && y in b
    requires Recompute(k, x) == Some(x.mac) && Recompute(k, y) == Some(y.mac) && x.mac == y.mac
    ensures x == y
  {
    FrameInjective(MacInput(x.prevMac, k.encode(x.metadata), x.ciphertext, x.nonce, x.keyId),
                   MacInput(y.prevMac, k.encode(y.metadata), y.ciphertext, y.nonce, y.keyId));
  }

  /** One MAC pins the whole history: two clean chains with the same final MAC are the same chain, in length and in
      every covered field, unless the MAC collides on two of their own links. */
  lemma {:induction false} ChainUnique(k: Keys, a: seq<Link>, b: seq<Link>)
    requires Injective(k.encode) && CollisionFree(k, a, b)
    requires Clean(k, a) && Clean(k, b)
    requires a != [] && b != [] && LastMac(a) == LastMac(b)
    ensures a == b
    decreases |a|
  {
    var n, m := |a| - 1, |b| - 1;
    SameMacSameLink(k, a, b, a[n], b[m]);
    if n > 0 {
      ChainUnique(k, a[..n], b[..m]);
    }
    assert a == a[..n] + [a[n]] && b == b[..m] + [b[m]];
  }

  datatype Reason = SequenceGap | PreviousMacMismatch | MacMismatch

  datatype Failure = Failure(streamId: string, eventId: string, seqNo: int, reason: Reason)

  /** What verification reports for the link in position |before| of a stream, given the links before it. */
  function LinkFailures(k: Keys, streamId: string, before: seq<Link>, l: Link): seq<Failure>
  {
    (if l.metadata.seqNo != |before| + 1
     then [Failure(streamId, l.metadata.eventId, l.metadata.seqNo, SequenceGap)] else []) +
    (if l.prevMac != LastMac(before)
     then [Failure(streamId, l.metadata.eventId, l.metadata.seqNo, PreviousMacMismatch)] else []) +
    (if Recompute(k, l) != Some(l.mac)
     then [Failure(streamId, l.metadata.eventId, l.metadata.seqNo, MacMismatch)] else [])
  }

  function StreamFailures(k: Keys, streamId: string, links: seq<Link>): seq<Failure>
  {
    if links == [] then []
    else
      var init := links[..|links| - 1];
      StreamFailures(k, streamId, init) + LinkFailures(k, streamId, init, links[|links| - 1])
  }

  /** f is a true statement about the link l that follows the links in before. */
  ghost predicate Fails(k: Keys, streamId: string, before: seq<Link>, l: Link, f: Failure)
  {
    && f.streamId == streamId && f.eventId == l.metadata.eventId && f.seqNo == l.metadata.seqNo
    && match f.reason
       case SequenceGap => l.metadata.seqNo != |before| + 1
       case PreviousMacMismatch => l.prevMac != LastMac(before)
       case MacMismatch => Recompute(k, l) != Some(l.mac)
  }

  lemma LinkFailureExact(k: Keys, streamId: string, before: seq<Link>, l: Link, f: Failure)
    ensures f in LinkFailures(k, streamId, before, l) <==> Fails(k, streamId, before, l, f)
  {
  }

  /** f is a true statement about one of the links. */
  ghost predicate FailsSomewhere(k: Keys, streamId: string, links: seq<Link>, f: Failure)
  {
    links != [] &&
    (FailsSomewhere(k, streamId, links[..|links| - 1], f) ||
      Fails(k, streamId, links[..|links| - 1], links[|links| - 1], f))
  }

  /** Every reported failure is a true one and every true one is reported. The stored MAC is chained on even
      when it does not recompute, so a single altered link does not condemn those after it. */
  lemma {:induction false} FailureExact(k: Keys, streamId: string, links: seq<Link>, f: Failure)
    ensures f in StreamFailures(k, streamId, links) <==> FailsSomewhere(k, streamId, links, f)
  {
    if links != [] {
      var n := |links| - 1;
      FailureExact(k, streamId, links[..n], f);
      LinkFailureExact(k, streamId, links[..n], links[n], f);
    }
  }

  /** Verification is exact: no failure is reported if and only if the stream is clean. */
  lemma {:induction false} VerificationExact(k: Keys, streamId: string, links: seq<Link>)
    ensures StreamFailures(k, streamId, links) == [] <==> Clean(k, links)
  {
    if links != [] {
      VerificationExact(k, streamId, links[..|links| - 1]);
    }
  }
}
