/**
 * The mailbox store. Each participant has an ordered queue of stored
 * records. The whole structure is read from, and written back to, one
 * durable file.
 */
module MailboxStore {
  import opened Crypto

  const User1: string := "user1"
  const User2: string := "user2"

  /** One stored message: the IV-framed ciphertext, its HMAC tag, and whether it was delivered. */
  datatype Record = Record(encryptedMessage: seq<byte>, signature: seq<byte>, retrieved: bool)

  type Queue = seq<Record>

  /** Participant to queue, in insertion order (= delivery order). */
  type Mailbox = map<string, Queue>

  /** The durable file: missing, present but not parseable, or a saved snapshot. */
  datatype StoreFile = Absent | Corrupt | Saved(mailbox: Mailbox)

  /** The structure used when there is no usable file: both participants with empty queues. */
  function DefaultMailbox(): Mailbox
  {
    map[User1 := [], User2 := []]
  }

  /** What load_messages returns for a given state of the file. */
  function Load(f: StoreFile): Mailbox
  {
    match f
    case Saved(m) => m
    case _ => DefaultMailbox()
  }

  /**
   * The recipient of the send route of each participant: user1 sends to
   * user2 and user2 sends to user1.
   */
  function Peer(sender: string): (recipient: string)
    requires sender == User1 || sender == User2
    ensures recipient == User1 || recipient == User2
    ensures recipient != sender
  {
    if sender == User1 then User2 else User1
  }

  /** Replies go back where they came from: the peer of the peer is the sender. */
  lemma PeerInvolutive(sender: string)
    requires sender == User1 || sender == User2
    ensures Peer(Peer(sender)) == sender
  {
  }

  /**
   * Appends one record to the end of `user`'s queue. The other queues are
   * left alone.
   */
  function Append(m: Mailbox, user: string, rec: Record): (r: Mailbox)
    requires user in m
    ensures r.Keys == m.Keys
    ensures |r[user]| == |m[user]| + 1 && r[user][..|m[user]|] == m[user] && r[user][|m[user]|] == rec
    ensures forall u :: u in m && u != user ==> r[u] == m[u]
  {
    m[user := m[user] + [rec]]
  }

  /** The queue after a receive has examined every record: all are marked retrieved. */
  function MarkRetrieved(q: Queue): Queue
  {
    seq(|q|, i requires 0 <= i < |q| => q[i].(retrieved := true))
  }

  /** The records a receive still has to deliver: those not yet retrieved, in queue order. */
  function Pending(q: Queue): (p: Queue)
    ensures |p| <= |q|
  {
    if q == [] then []
    else (if q[0].retrieved then [] else [q[0]]) + Pending(q[1..])
  }

  /** Every pending record is a record of the queue that has not been retrieved. */
  lemma {:induction false} PendingAreUnretrieved(q: Queue)
    ensures forall j :: 0 <= j < |Pending(q)| ==> Pending(q)[j] in q && !Pending(q)[j].retrieved
  {
    if q != [] {
      PendingAreUnretrieved(q[1..]);
    }
  }

  /** Every unretrieved record of the queue is pending. */
  lemma {:induction false} UnretrievedArePending(q: Queue, i: nat)
    requires i < |q| && !q[i].retrieved
    ensures q[i] in Pending(q)
  {
    if i > 0 {
      UnretrievedArePending(q[1..], i - 1);
    }
  }

  /** The pending records of a concatenation are those of each part, in order. */
  lemma {:induction false} PendingConcat(a: Queue, b: Queue)
    ensures Pending(a + b) == Pending(a) + Pending(b)
  {
    if a == [] {
      assert a + b == b;
    } else {
      assert (a + b)[0] == a[0];
      assert (a + b)[1..] == a[1..] + b;
      PendingConcat(a[1..], b);
    }
  }

  /** A new, unretrieved record at the end of a queue becomes its last pending record. */
  lemma AppendIsPending(q: Queue, rec: Record)
    requires !rec.retrieved
    ensures Pending(q + [rec]) == Pending(q) + [rec]
  {
    PendingConcat(q, [rec]);
    assert Pending([rec]) == [rec] + Pending([]);
  }

  /** Extending a prefix by one record extends its pending records by that record when it is unretrieved. */
  lemma PendingStep(q: Queue, i: nat)
    requires i < |q|
    ensures Pending(q[..i + 1]) == Pending(q[..i]) + (if q[i].retrieved then [] else [q[i]])
  {
    assert q[..i + 1] == q[..i] + [q[i]];
    PendingConcat(q[..i], [q[i]]);
    assert Pending([q[i]]) == (if q[i].retrieved then [] else [q[i]]) + Pending([]);
  }

  /** An unretrieved record at index i is pending, right after the pending records before it. */
  lemma PendingAt(q: Queue, i: nat)
    requires i < |q| && !q[i].retrieved
    ensures |Pending(q[..i])| < |Pending(q)| && Pending(q)[|Pending(q[..i])|] == q[i]
  {
    PendingStep(q, i);
    assert q == q[..i + 1] + q[i + 1..];
    PendingConcat(q[..i + 1], q[i + 1..]);
  }

  /** Once every record is marked retrieved, nothing is pending. */
  lemma {:induction false} NothingPendingAfterMark(q: Queue)
    ensures Pending(MarkRetrieved(q)) == []
  {
    if q != [] {
      assert MarkRetrieved(q)[1..] == MarkRetrieved(q[1..]);
      NothingPendingAfterMark(q[1..]);
    }
  }

  /** Marking an already marked queue changes nothing. */
  lemma MarkIdempotent(q: Queue)
    ensures MarkRetrieved(MarkRetrieved(q)) == MarkRetrieved(q)
  {
  }

  /**
   * Marking changes only the retrieved flags. The length, the order, and
   * each record's blob and tag stay as they were.
   */
  lemma MarkKeepsRecords(q: Queue)
    ensures |MarkRetrieved(q)| == |q|
    ensures forall i :: 0 <= i < |q| ==>
      MarkRetrieved(q)[i].encryptedMessage == q[i].encryptedMessage &&
      MarkRetrieved(q)[i].signature == q[i].signature &&
      MarkRetrieved(q)[i].retrieved
  {
  }

  /**
   * `after` is a possible later state of queue `before`. Records are never
   * removed, reordered or rewritten, and a retrieved record stays
   * retrieved. So each record makes the pending-to-retrieved step at most
   * once.
   */
  predicate Extends(before: Queue, after: Queue)
  {
    |before| <= |after| &&
    forall i :: 0 <= i < |before| ==>
      after[i].encryptedMessage == before[i].encryptedMessage &&
      after[i].signature == before[i].signature &&
      (before[i].retrieved ==> after[i].retrieved)
  }

  /** The same participants, and each queue extends its earlier state. */
  predicate Evolves(before: Mailbox, after: Mailbox)
  {
    before.Keys == after.Keys &&
    forall u :: u in before ==> Extends(before[u], after[u])
  }

  /** Evolving is reflexive and transitive, so it holds across any sequence of operations. */
  lemma EvolvesPreorder(m1: Mailbox, m2: Mailbox, m3: Mailbox)
    ensures Evolves(m1, m1)
    ensures Evolves(m1, m2) && Evolves(m2, m3) ==> Evolves(m1, m3)
  {
  }

  /** Appending a record is an evolution of the mailbox. */
  lemma AppendEvolves(m: Mailbox, user: string, rec: Record)
    requires user in m
    ensures Evolves(m, Append(m, user, rec))
  {
  }

  /** Marking one participant's queue retrieved is an evolution of the mailbox. */
  lemma MarkEvolves(m: Mailbox, user: string)
    requires user in m
    ensures Evolves(m, m[user := MarkRetrieved(m[user])])
  {
  }

  /** A saved snapshot loads back as itself. A missing or corrupt file loads as two empty queues. */
  lemma LoadAfterSave(m: Mailbox, f: StoreFile)
    ensures Load(Saved(m)) == m
    ensures !f.Saved? ==> Load(f).Keys == {User1, User2} && Load(f)[User1] == [] && Load(f)[User2] == []
  {
  }
}
