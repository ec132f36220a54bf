/**
 * The message pipeline of the chat server.
 *
 * Send: gate, encrypt, sign, then load, append and save.
 * Receive: load, then verify and decrypt each pending record, mark it
 * retrieved, and save.
 *
 * The durable file is the field `database`. Every operation loads it
 * afresh and saves the whole structure back. The key, the library
 * primitives and the classifier's probability oracle are fixed when the
 * server starts.
 */
module ChatServer {
  import opened Wrappers
  import opened Crypto
  import opened ContentGate
  import opened MailboxStore

  /** What a receive reports for a record whose tag does not verify. */
  const IntegritySentinel: string := "Message integrity compromised!"

  /** Result of a send route. */
  datatype SendOutcome =
    | Sent(encryptedMessage: seq<byte>)  // 200, the stored blob echoed back
    | RejectedUnsafe                     // 400, the classifier refused the text
    | UnknownRecipient                   // the loaded structure has no queue for the recipient (KeyError)
  {
    function Status(): int
    {
      match this
      case Sent(_) => 200
      case RejectedUnsafe => 400
      case UnknownRecipient => 500
    }
  }

  /** Result of a receive route. */
  datatype ReceiveOutcome =
    | Delivered(decryptedMessages: seq<string>)  // 200
    | UnknownUser                                // no queue for the user (KeyError)
    | UndecodableMessage                         // a verified blob failed to decrypt (exception)
  {
    function Status(): int
    {
      match this
      case Delivered(_) => 200
      case _ => 500
    }
  }

  class Server {
    const key: Key
    const prims: Primitives
    const phishingProbability: string -> real  // the trained model's probability of class "phishing"
    var database: StoreFile

    constructor (key: Key, prims: Primitives, phishingProbability: string -> real, database: StoreFile)
      ensures this.key == key && this.prims == prims
      ensures this.phishingProbability == phishingProbability
      ensures this.database == database
    {
      this.key := key;
      this.prims := prims;
      this.phishingProbability := phishingProbability;
      this.database := database;
    }

    /** classify_message with its default threshold. */
    function ClassifyMessage(message: string): Classification
    {
      Classify(phishingProbability(message), PhishingThreshold)
    }

    /** The record a successful send stores: blob, its tag, not yet retrieved. */
    function Seal(message: string, iv: Iv): Record
    {
      var blob := EncryptMessage(prims, message, key, iv);
      Record(blob, HmacSign(prims, key, blob), false)
    }

    /**
     * What a receive yields for one pending record. On a good tag it is the
     * decryption, which can fail (None). On a bad tag it is the sentinel.
     */
    function Open(rec: Record): Option<string>
    {
      if HmacVerify(prims, key, rec.encryptedMessage, rec.signature)
      then DecryptMessage(prims, rec.encryptedMessage, key)
      else Some(IntegritySentinel)
    }

    /** Every record of `pending` can be opened without an exception. */
    predicate AllOpen(pending: Queue)
    {
      forall j :: 0 <= j < |pending| ==> Open(pending[j]).Some?
    }

    /** `texts` holds one entry per record of `pending`, in order, each the record's opened value. */
    predicate DeliversAll(texts: seq<string>, pending: Queue)
    {
      |texts| == |pending| &&
      forall j :: 0 <= j < |pending| ==> Open(pending[j]) == Some(texts[j])
    }

    /** An envelope the server sealed itself verifies and decrypts to the text that was sent. */
    lemma OpenSealed(message: string, iv: Iv)
      requires Lawful(prims)
      ensures Open(Seal(message, iv)) == Some(message)
    {
    }

    /**
     * A delivered entry is the decrypted plaintext when the tag verifies and
     * the sentinel when it does not. The stored ciphertext is never handed
     * out in place of a plaintext.
     */
    lemma OpenedEntry(rec: Record, text: string)
      requires Open(rec) == Some(text)
      ensures HmacVerify(prims, key, rec.encryptedMessage, rec.signature) ==>
                Some(text) == DecryptMessage(prims, rec.encryptedMessage, key)
      ensures !HmacVerify(prims, key, rec.encryptedMessage, rec.signature) ==> text == IntegritySentinel
    {
    }

    /** load_messages: the saved snapshot, or two empty queues when the file is missing or corrupt. */
    method LoadMessages() returns (messages: Mailbox)
      ensures messages == Load(database)
    {
      match database
      case Saved(m) =>
        messages := m;
      case _ =>
        messages := DefaultMailbox();
    }

    /** save_messages: the file is replaced wholesale by the snapshot. */
    method SaveMessages(messages: Mailbox)
      modifies this
      ensures database == Saved(messages)
    {
      database := Saved(messages);
    }

    /**
     * send_message_user1 (recipient user2) and send_message_user2 (recipient
     * user1). `iv` is the fresh random IV the cipher draws.
     *
     * If the text is unsafe, nothing is loaded or saved. Otherwise exactly
     * one unretrieved record is appended to the end of the recipient's
     * queue, and the stored blob is returned.
     */
    method Send(recipient: string, message: string, iv: Iv) returns (outcome: SendOutcome)
      modifies this
      ensures ClassifyMessage(message) == Unsafe ==> outcome == RejectedUnsafe && database == old(database)
      ensures ClassifyMessage(message) == Safe && recipient !in Load(old(database)) ==>
                outcome == UnknownRecipient && database == old(database)
      ensures ClassifyMessage(message) == Safe && recipient in Load(old(database)) ==>
                outcome == Sent(EncryptMessage(prims, message, key, iv)) &&
                database == Saved(Append(Load(old(database)), recipient, Seal(message, iv)))
      ensures outcome.Sent? ==> database.Saved? && database.mailbox[recipient][|database.mailbox[recipient]| - 1].encryptedMessage == outcome.encryptedMessage
      ensures Evolves(Load(old(database)), Load(database))
    {
      EvolvesPreorder(Load(database), Load(database), Load(database));
      if ClassifyMessage(message) == Unsafe {
        return RejectedUnsafe;
      }
      var rec := Seal(message, iv);  // encrypt, then sign the blob
      var messages := LoadMessages();
      if recipient !in messages {
        return UnknownRecipient;
      }
      AppendEvolves(messages, recipient, rec);
      messages := Append(messages, recipient, rec);
      SaveMessages(messages);
      outcome := Sent(rec.encryptedMessage);
    }

    /**
     * The two send routes themselves: send_message_user1 delivers to user2
     * and send_message_user2 delivers to user1.
     */
    method SendFrom(sender: string, message: string, iv: Iv) returns (outcome: SendOutcome)
      requires sender == User1 || sender == User2
      modifies this
      ensures ClassifyMessage(message) == Unsafe ==> outcome == RejectedUnsafe && database == old(database)
      ensures ClassifyMessage(message) == Safe && Peer(sender) !in Load(old(database)) ==>
                outcome == UnknownRecipient && database == old(database)
      ensures ClassifyMessage(message) == Safe && Peer(sender) in Load(old(database)) ==>
                outcome == Sent(EncryptMessage(prims, message, key, iv)) &&
                database == Saved(Append(Load(old(database)), Peer(sender), Seal(message, iv)))
      ensures Evolves(Load(old(database)), Load(database))
    {
      outcome := Send(Peer(sender), message, iv);
    }

    /**
     * The loop of the receive routes, over one queue. Each record not yet
     * retrieved is verified. A good tag gives its decryption and a bad tag
     * gives the sentinel. Either way it is then marked retrieved.
     *
     * `result` is None when a decryption raises. In that case the server
     * saves nothing, so `marked` is then of no interest.
     */
    method RetrieveQueue(queue: Queue) returns (result: Option<seq<string>>, marked: Queue)
      ensures result.Some? <==> AllOpen(Pending(queue))
      ensures result.Some? ==> DeliversAll(result.value, Pending(queue))
      ensures result.Some? ==> marked == MarkRetrieved(queue)
    {
      var decryptedMessages: seq<string> := [];
      marked := queue;
      var i := 0;
      while i < |queue|
        invariant 0 <= i <= |queue|
        invariant |marked| == |queue|
        invariant forall k :: 0 <= k < i ==> marked[k] == queue[k].(retrieved := true)
        invariant forall k :: i <= k < |queue| ==> marked[k] == queue[k]
        invariant AllOpen(Pending(queue[..i]))
        invariant DeliversAll(decryptedMessages, Pending(queue[..i]))
      {
        var msg := marked[i];
        PendingStep(queue, i);
        if !msg.retrieved {
          var text: string;
          if HmacVerify(prims, key, msg.encryptedMessage, msg.signature) {
            var decrypted := DecryptMessage(prims, msg.encryptedMessage, key);
            if decrypted.None? {
              PendingAt(queue, i);
              return None, marked;
            }
            text := decrypted.value;
          } else {
            text := IntegritySentinel;
          }
          decryptedMessages := decryptedMessages + [text];
        }
        marked := marked[i := msg.(retrieved := true)];
        i := i + 1;
      }
      assert queue[..i] == queue;
      result := Some(decryptedMessages);
    }

    /**
     * receive_messages_user1 and receive_messages_user2. One entry is
     * returned per pending record, in queue order. Afterwards every record of
     * the user's queue is retrieved, and nothing else in the store changes.
     * If the user has no queue, or a decryption raises, nothing is saved.
     */
    method Receive(user: string) returns (outcome: ReceiveOutcome)
      modifies this
      ensures user !in Load(old(database)) ==> outcome == UnknownUser && database == old(database)
      ensures user in Load(old(database)) && !AllOpen(Pending(Load(old(database))[user])) ==>
                outcome == UndecodableMessage && database == old(database)
      ensures user in Load(old(database)) && AllOpen(Pending(Load(old(database))[user])) ==>
                outcome.Delivered? &&
                DeliversAll(outcome.decryptedMessages, Pending(Load(old(database))[user])) &&
                database == Saved(Load(old(database))[user := MarkRetrieved(Load(old(database))[user])])
      ensures Evolves(Load(old(database)), Load(database))
    {
      EvolvesPreorder(Load(database), Load(database), Load(database));
      var messages := LoadMessages();
      if user !in messages {
        return UnknownUser;
      }
      var result, marked := RetrieveQueue(messages[user]);
      if result.None? {
        return UndecodableMessage;
      }
      MarkEvolves(messages, user);
      messages := messages[user := marked];
      SaveMessages(messages);
      outcome := Delivered(result.value);
    }

    /**
     * Delivery happens once. A receive right after a successful receive
     * returns an empty list.
     */
    method ReceiveTwice(user: string) returns (first: ReceiveOutcome, second: ReceiveOutcome)
      modifies this
      ensures first.Delivered? ==>
                user in Load(old(database)) && second == Delivered([]) &&
                database == Saved(Load(old(database))[user := MarkRetrieved(Load(old(database))[user])])
    {
      first := Receive(user);
      if first.Delivered? {
        NothingPendingAfterMark(Load(old(database))[user]);
        MarkIdempotent(Load(old(database))[user]);
      }
      second := Receive(user);
    }

    /**
     * End to end: when the recipient has nothing pending, a safe send
     * followed by a receive yields exactly the sent text. An unsafe send
     * leaves nothing to receive.
     */
    method SendThenReceive(recipient: string, message: string, iv: Iv) returns (sent: SendOutcome, received: ReceiveOutcome)
      requires Lawful(prims)
      modifies this
      ensures recipient in Load(old(database)) && Pending(Load(old(database))[recipient]) == [] ==>
                (sent.Sent? ==> received == Delivered([message])) &&
                (sent == RejectedUnsafe ==> received == Delivered([]))
    {
      ghost var before := Load(database);
      sent := Send(recipient, message, iv);
      if recipient in before && Pending(before[recipient]) == [] && sent.Sent? {
        AppendIsPending(before[recipient], Seal(message, iv));
        OpenSealed(message, iv);
        assert Load(database)[recipient] == before[recipient] + [Seal(message, iv)];
      }
      received := Receive(recipient);
    }
  }
}
