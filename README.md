# Encrypted two-party chat: a Dafny model of the message pipeline

This project models the message pipeline of the chat server (`chatserver.py`)
and proves properties of it.

**Send** runs in this order:
1. The text goes through the phishing gate, and an unsafe text is refused.
2. The text is encrypted with AES-256-CFB under a fresh IV, and the blob is `IV ++ ciphertext`.
3. The blob is signed with HMAC-SHA256.
4. The mailbox file is loaded, an unretrieved record is appended to the recipient's queue, and the whole file is saved.

**Receive** runs in this order:
1. The mailbox file is loaded.
2. Each record the user has not yet retrieved is verified. The result for it is either the decrypted text or the sentinel `"Message integrity compromised!"`.
3. That record is marked retrieved, whatever the verification said.
4. The whole file is saved.

The two send routes are one `Send(recipient, …)`. `SendFrom(sender, …)` is that send with the recipient `Peer(sender)`: user1's route sends to `user2`, user2's route to `user1`. The two receive routes are one `Receive(user)`.

Files and modules:
- `wrappers.dfy` (`Wrappers`): `Option`.
- `crypto.dfy` (`Crypto`): bytes, the 32-byte key, the 16-byte IV, and the IV framing of `encrypt_message`/`decrypt_message`.
  - `hmac_sign`/`hmac_verify`: verification recomputes the tag and compares it.
  - `Primitives` bundles the library operations as function values: the AES-CFB encryptor and decryptor, HMAC-SHA256, and UTF-8 encode and decode.
  - `Lawful` holds the laws assumed of them: CFB decryption inverts encryption under the same key and IV, and keeps the length; a tag is 32 bytes; UTF-8 decoding inverts encoding. Each lemma that needs a law takes `Lawful` as a hypothesis.
- `content_gate.dfy` (`ContentGate`): `classify_message` as a threshold on the classifier's probability. The default threshold is 0.7.
- `mailbox_store.dfy` (`MailboxStore`): records, queues, the mailbox map and the file.
  - The file is `Absent`, `Corrupt` or `Saved(snapshot)`. `Load` falls back to two empty queues for the first two.
  - `Pending` is the specification of "not yet retrieved, in order". `MarkRetrieved` is the queue after a receive.
  - `Evolves` is the invariant every operation keeps: no record is removed, reordered or rewritten, and `retrieved` only goes from false to true.
- `chat_server.dfy` (`ChatServer`): the class `Server`.
  - It holds the key, the primitives, the probability oracle, and the file as the mutable field `database`.
  - `LoadMessages` and `SaveMessages` read and replace the file.
  - `Send` is the send routes. `Receive` is the receive routes, and its loop is `RetrieveQueue`.
  - `ReceiveTwice` and `SendThenReceive` are clients that prove how the routes compose.

The handlers' error paths are modelled as results:
- An unsafe text is `RejectedUnsafe` (status 400).
- A loaded structure without the needed queue raises a `KeyError` in the source. Here that is `UnknownRecipient` or `UnknownUser`, and nothing is saved.
- A verified blob whose decryption raises is `UndecodableMessage`. The blob is shorter than an IV, or it does not decode as UTF-8. Nothing is saved, because the exception comes before `save_messages`.

## Model

| member | source | states |
|---|---|---|
| `Crypto.EncryptMessage` | chatserver.py:68-76 | the blob starts with the 16-byte IV that was drawn for the message |
| `Crypto.DecryptMessage` | chatserver.py:79-86 | the IV is read from the first 16 bytes and the rest decrypted and UTF-8 decoded; a blob shorter than an IV or bytes that are not UTF-8 fail |
| `Crypto.HmacSign` | chatserver.py:89-95 | the tag is the HMAC-SHA256 of the blob under the key |
| `Crypto.HmacVerify` | chatserver.py:98-108 | recomputes the tag and compares, giving true or false rather than raising |
| `Crypto.DecryptInvertsEncrypt` | chatserver.py:68-86 | reading the IV back from `blob[:16]` and decrypting `blob[16:]` under the same key returns the original message |
| `Crypto.EncryptedLength` | chatserver.py:70-74 | the blob is 16 bytes longer than the UTF-8 plaintext (no padding in CFB) |
| `Crypto.VerifyAcceptsExactlySign` | chatserver.py:89-108 | verify accepts the tag sign produced for the same key and blob, and returns false (it does not raise) for every other signature |
| `Crypto.VerifiedTagLength` | chatserver.py:89-108 | a signature that verifies is 32 bytes long |
| `ContentGate.ClassifyIsThreshold` | chatserver.py:58-65 | unsafe exactly when the probability is at least the threshold, safe otherwise; monotone in the probability and in the threshold |
| `ContentGate.Classify` | chatserver.py:58-65 | the threshold policy of classify_message on the reported phishing probability |
| `ContentGate.DefaultThreshold` | chatserver.py:32 | with the default threshold, unsafe exactly when the probability is at least 0.7 |
| `MailboxStore.Peer` | chatserver.py:130 | a send goes to the other participant: user1 to user2 (line 130), user2 to user1 (line 161) |
| `MailboxStore.PeerInvolutive` | chatserver.py:161 | the peer of the peer is the sender |
| `MailboxStore.Load` | chatserver.py:35-48 | the file as load_messages reads it: the saved map, or two empty queues |
| `MailboxStore.Pending` | chatserver.py:179-180 | the records a receive walks over and delivers: the unretrieved ones, in queue order |
| `MailboxStore.MarkRetrieved` | chatserver.py:179-191 | the queue after a receive, with every record's flag set |
| `MailboxStore.MarkIdempotent` | chatserver.py:191 | marking an already marked queue leaves it unchanged |
| `MailboxStore.Append` | chatserver.py:130-134 | the recipient's queue grows by exactly the new record at its end, earlier records and the other queues unchanged |
| `MailboxStore.PendingAreUnretrieved` | chatserver.py:179-180 | every record a receive delivers is one of the queue's records that was not yet retrieved |
| `MailboxStore.UnretrievedArePending` | chatserver.py:179-180 | every record that is not yet retrieved is delivered |
| `MailboxStore.PendingConcat` | chatserver.py:179-180 | the pending records of a concatenation are those of each part, in order |
| `MailboxStore.PendingStep` | chatserver.py:179-180 | walking one more record of the queue adds it to the delivered records exactly when it is not yet retrieved |
| `MailboxStore.PendingAt` | chatserver.py:179-189 | a non-retrieved record is delivered right after the pending records that precede it in the queue |
| `MailboxStore.AppendIsPending` | chatserver.py:130-134 | a freshly sent record is the last record the next receive delivers |
| `MailboxStore.NothingPendingAfterMark` | chatserver.py:191 | once every record is marked retrieved, no record is pending |
| `MailboxStore.MarkKeepsRecords` | chatserver.py:179-191 | marking keeps the queue's length, order, blobs and tags; only the flag becomes true |
| `MailboxStore.EvolvesPreorder` | chatserver.py:127-137 | the "records only move from pending to retrieved" relation is reflexive and transitive |
| `MailboxStore.AppendEvolves` | chatserver.py:127-137 | a send only adds a record at the end of one queue |
| `MailboxStore.MarkEvolves` | chatserver.py:175-193 | a receive only sets retrieved flags, and never clears one |
| `MailboxStore.LoadAfterSave` | chatserver.py:35-55 | a saved snapshot loads back unchanged; a missing or corrupt file loads as `{'user1': [], 'user2': []}` |
| `ChatServer.Server.OpenSealed` | chatserver.py:121-124 | a record the server sealed itself verifies and decrypts to the text that was sent |
| `ChatServer.Server.OpenedEntry` | chatserver.py:185-189 | a delivered entry is the decryption when the tag verifies and the sentinel when it does not |
| `ChatServer.Server.ClassifyMessage` | chatserver.py:117 | the route's gate: classify_message at the default threshold 0.7 on the oracle's probability |
| `ChatServer.Server.Seal` | chatserver.py:121-134 | the stored record: the encrypted blob, its HMAC tag of the blob, not retrieved |
| `ChatServer.Server.Open` | chatserver.py:185-189 | the entry a pending record yields: its decryption when the tag verifies, the sentinel otherwise |
| `ChatServer.Server.LoadMessages` | chatserver.py:35-48 | returns what `Load` gives for the file: the saved snapshot, or two empty queues when the file is missing or does not parse |
| `ChatServer.Server.SaveMessages` | chatserver.py:51-55 | the file is replaced wholesale by the snapshot |
| `ChatServer.Server.Send` | chatserver.py:112-139 | unsafe: status 400 with the store untouched. Otherwise the load, one unretrieved record appended to the recipient's queue only, the save, and the stored blob returned (same for lines 143-170) |
| `ChatServer.Server.SendFrom` | chatserver.py:143-170 | the two routes: a send from user1 is Send to user2 and a send from user2 is Send to user1, with Send's whole contract for that recipient |
| `ChatServer.Server.RetrieveQueue` | chatserver.py:177-191 | one entry per non-retrieved record, in queue order (decryption or sentinel); the queue comes back with every record retrieved, same length and order |
| `ChatServer.Server.Receive` | chatserver.py:174-194 | the result RetrieveQueue computes; the user's queue saved fully retrieved, including failed records; the other queues unchanged; nothing saved on an error (same for lines 198-218) |
| `ChatServer.Server.ReceiveTwice` | chatserver.py:191-193 | a receive right after a successful receive returns an empty list and saves the store exactly as the first receive left it |
| `ChatServer.Server.SendThenReceive` | chatserver.py:112-194 | with nothing pending, a safe send then a receive returns exactly the sent text; after an unsafe send the receive returns nothing |

## Left out

- The Flask routing, `request.json`, `jsonify`, CORS and the server start-up (`app.run`) are transport. The routes are methods returning an outcome, and `Status()` gives its HTTP code.
- `get_key` and the key file. The key is a constant of the server that is fixed at construction, so regeneration and persistence of the key are not modelled.
- The file system. `database.json` is the field `database`. Only "absent or unparsable" versus "a saved mailbox map" is modelled. A file that parses to JSON of another shape, such as a list, is not modelled.
- `Corrupt` stands only for a file that is not valid JSON, which is the `JSONDecodeError` fallback. A file that cannot even be read as text raises `UnicodeDecodeError` in the source, so the operation fails and the file is not overwritten. That case is not modelled: here such a file would be `Corrupt`, and a send would save over it.
- Texts are Dafny strings, which are sequences of Unicode scalar values. A request text holding a lone surrogate makes `message.encode('utf-8')` raise in the source before anything is loaded or saved. That failure is not modelled, so here a safe send always ends in `Sent` or `UnknownRecipient`.
- Hex encoding. Records hold the blob and the tag as bytes rather than hex strings, and `Sent` returns the blob bytes. So the `ValueError` of `bytes.fromhex` on a stored non-hex string is not modelled.
- The internals of AES-CFB, HMAC-SHA256, UTF-8 and `os.urandom`. The IV is a parameter of `Send`. The library operations are function values, constrained only by `Lawful`.
- Constant-time comparison in `hmac_verify`. Verification is an equality test here.
- Tamper detection of the blob. Rejecting an altered blob needs the unforgeability of HMAC, which a function value cannot express. Only an altered tag is proved rejected.
- The sklearn vectorizer and model, and float arithmetic. The phishing probability is an arbitrary `real` from an oracle function.
- Print tracing.
- Races between concurrent load, modify and save cycles. Each operation runs to completion here.
- `training_model.py`, `network_diagram.py`, `cryptograph.py`, `ecnrypt.py` and the React UI are not part of this model.
