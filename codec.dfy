/**
 * The message-body cipher. The application encrypts every stored message body
 * with a symmetric cipher keyed from a server secret. The cipher itself is
 * abstract here: a pair of total functions, one that seals a text into a
 * token and one that opens a token or reports failure. `Sound` is the
 * round-trip property the application relies on.
 */
module Codec {
  import opened Base

  /** What a body that cannot be decrypted reads as. */
  const DECRYPT_FAILED := "[Unable to decrypt message]"

  datatype Cipher = Cipher(seal: string -> string, open: string -> Option<string>)

  /** Opening what was sealed gives back the text, and a sealed text is never empty. */
  ghost predicate Sound(c: Cipher) {
    forall x :: x != "" ==> c.seal(x) != "" && c.open(c.seal(x)) == Some(x)
  }

  /** `encrypt_message`: an empty text is stored as it is, anything else is sealed. */
  function Encrypt(c: Cipher, text: string): (token: string)
    ensures text == "" ==> token == ""
    ensures Sound(c) && text != "" ==> token != "" && c.open(token) == Some(text)
  {
    if text == "" then text else c.seal(text)
  }

  /**
   * `decrypt_message`: an empty token reads as empty; otherwise the token is
   * opened, and any failure reads as `DECRYPT_FAILED` instead of raising.
   */
  function Decrypt(c: Cipher, token: string): (text: string)
    ensures token == "" ==> text == ""
    ensures token != "" ==> text == DECRYPT_FAILED || c.open(token) == Some(text)
    ensures token != "" && c.open(token).None? ==> text == DECRYPT_FAILED
  {
    if token == "" then token
    else match c.open(token)
      case Some(t) => t
      case None => DECRYPT_FAILED
  }

  /** Decrypting what was encrypted gives the original text, the empty text included. */
  lemma RoundTrip(c: Cipher, text: string)
    requires Sound(c)
    ensures Decrypt(c, Encrypt(c, text)) == text
  {
  }

  /** `decrypt_message` never fails: its result is empty, a decryption, or the fixed sentinel. */
  lemma DecryptTotal(c: Cipher, token: string)
    ensures var t := Decrypt(c, token);
      (token == "" && t == "") || (token != "" && (c.open(token) == Some(t) || t == DECRYPT_FAILED))
  {
  }

  /** A cipher that prefixes a marker: evidence that `Sound` can be met. */
  function MarkerCipher(): (c: Cipher)
  {
    Cipher(x => "#" + x, t => if |t| > 0 && t[0] == '#' then Some(t[1..]) else None)
  }

  lemma {:induction false} MarkerCipherSound()
    ensures Sound(MarkerCipher())
  {
    var c := MarkerCipher();
    forall x | x != "" ensures c.seal(x) != "" && c.open(c.seal(x)) == Some(x) {
      assert c.seal(x) == "#" + x;
      assert ("#" + x)[1..] == x;
    }
  }
}
