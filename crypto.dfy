/**
 * The cipher engine and the integrity engine of the chat server: AES-256 in
 * CFB mode with the IV framed in front of the ciphertext, and HMAC-SHA256
 * over that framed blob.
 *
 * The block cipher, the MAC, and UTF-8 encoding and decoding are library
 * code. Here they are function values bundled in `Primitives`. The only
 * facts the model uses about them are the round-trip and length laws
 * collected in `Lawful`.
 */
module Crypto {
  import opened Wrappers

  newtype byte = x: int | 0 <= x < 0x100

  const KeySize: nat := 32  // AES-256
  const IvSize: nat := 16   // one AES block, drawn fresh per message
  const TagSize: nat := 32  // SHA-256 output

  type Key = s: seq<byte> | |s| == KeySize witness seq(KeySize, _ => 0)
  type Iv = s: seq<byte> | |s| == IvSize witness seq(IvSize, _ => 0)

  /** The library operations the server calls. */
  datatype Primitives = Primitives(
    cfbEncrypt: (Key, Iv, seq<byte>) -> seq<byte>,  // AES-256-CFB encryptor
    cfbDecrypt: (Key, Iv, seq<byte>) -> seq<byte>,  // AES-256-CFB decryptor
    mac: (Key, seq<byte>) -> seq<byte>,             // HMAC-SHA256
    utf8Encode: string -> seq<byte>,
    utf8Decode: seq<byte> -> Option<string>)        // None: not valid UTF-8

  /**
   * The laws the libraries promise. CFB is a stream mode: the ciphertext is
   * as long as the plaintext, and decrypting under the same key and IV
   * gives the plaintext back. An HMAC-SHA256 tag is 32 bytes. Decoding a
   * UTF-8 encoding gives the text back.
   */
  ghost predicate Lawful(p: Primitives) {
    && (forall k: Key, iv: Iv, data: seq<byte> ::
          |p.cfbEncrypt(k, iv, data)| == |data| &&
          p.cfbDecrypt(k, iv, p.cfbEncrypt(k, iv, data)) == data)
    && (forall k: Key, blob: seq<byte> :: |p.mac(k, blob)| == TagSize)
    && (forall text: string :: p.utf8Decode(p.utf8Encode(text)) == Some(text))
  }

  /** encrypt_message: the fresh IV `iv` comes first, then the CFB ciphertext of the UTF-8 text. */
  function EncryptMessage(p: Primitives, message: string, key: Key, iv: Iv): (blob: seq<byte>)
    ensures |blob| >= IvSize && blob[..IvSize] == iv
  {
    iv + p.cfbEncrypt(key, iv, p.utf8Encode(message))
  }

  /**
   * decrypt_message: the IV is read back from the first 16 bytes and the
   * rest is decrypted. A blob shorter than one IV is rejected by the cipher
   * (an invalid IV size). Bytes that are not UTF-8 make the decode fail.
   * Both failures are exceptions in the server, and here they are None.
   */
  function DecryptMessage(p: Primitives, blob: seq<byte>, key: Key): Option<string>
  {
    if |blob| < IvSize then None
    else p.utf8Decode(p.cfbDecrypt(key, blob[..IvSize], blob[IvSize..]))
  }

  /** hmac_sign: the HMAC-SHA256 tag of the blob under the key. */
  function HmacSign(p: Primitives, key: Key, blob: seq<byte>): seq<byte>
  {
    p.mac(key, blob)
  }

  /**
   * hmac_verify: recomputes the tag and compares it with `signature`. A
   * mismatch is the result false, not an exception.
   */
  function HmacVerify(p: Primitives, key: Key, blob: seq<byte>, signature: seq<byte>): bool
  {
    HmacSign(p, key, blob) == signature
  }

  /** Decrypting an encrypted message under the same key gives back the message. */
  lemma DecryptInvertsEncrypt(p: Primitives, message: string, key: Key, iv: Iv)
    requires Lawful(p)
    ensures DecryptMessage(p, EncryptMessage(p, message, key, iv), key) == Some(message)
  {
  }

  /** The blob is 16 bytes of IV plus one ciphertext byte per plaintext byte (no padding). */
  lemma EncryptedLength(p: Primitives, message: string, key: Key, iv: Iv)
    requires Lawful(p)
    ensures |EncryptMessage(p, message, key, iv)| == IvSize + |p.utf8Encode(message)|
  {
  }

  /**
   * Verification accepts exactly the tag that signing produces for the same
   * key and blob. Any other signature, such as a tag with a flipped bit, is
   * rejected.
   */
  lemma VerifyAcceptsExactlySign(p: Primitives, key: Key, blob: seq<byte>, signature: seq<byte>)
    ensures HmacVerify(p, key, blob, HmacSign(p, key, blob))
    ensures HmacVerify(p, key, blob, signature) <==> signature == HmacSign(p, key, blob)
  {
  }

  /** A tag that verifies has the length of an HMAC-SHA256 output. */
  lemma VerifiedTagLength(p: Primitives, key: Key, blob: seq<byte>, signature: seq<byte>)
    requires Lawful(p)
    requires HmacVerify(p, key, blob, signature)
    ensures |signature| == TagSize
  {
  }
}
