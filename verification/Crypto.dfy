/** Encryption of the stored refresh token (auth/crypto.go). AES-256-GCM and Argon2id are
    parameters; the size checks around them are the source's. */
module Crypto {
  import opened Wrappers
  import Base64
  import P = PasswordHash

  type bytes = Base64.bytes

  const KEY_SIZE := 32
  const NONCE_SIZE := 12
  const TAG_SIZE := 16
  const KDF_SALT_SIZE := 16

  /** raw gives the bytes of a Go string; plaintexts are Go strings. seal and open take the key,
      the nonce and the text, and are only called with a key of 32 and a nonce of 12 bytes. */
  datatype Cipher = Cipher(
    raw: string -> bytes,
    seal: (bytes, bytes, string) -> bytes,
    open: (bytes, bytes, bytes) -> Option<string>)

  /** What an authenticated cipher promises: it opens what it sealed, and appends a tag. */
  ghost predicate Lawful(c: Cipher) {
    && (forall k, n, p :: |k| == KEY_SIZE && |n| == NONCE_SIZE ==> c.open(k, n, c.seal(k, n, p)) == Some(p))
    && (forall k, n, p :: |k| == KEY_SIZE && |n| == NONCE_SIZE ==> |c.seal(k, n, p)| >= TAG_SIZE)
  }

  datatype CryptoError = WrongKeySize | WrongNonceSize | NotAuthentic

  datatype Sealed = Sealed(ciphertext: bytes, nonce: bytes)

  /** nonce is what the operating system's generator supplied. */
  function Encrypt(c: Cipher, key: bytes, plaintext: string, nonce: bytes): Result<Sealed, CryptoError>
    requires |nonce| == NONCE_SIZE
  {
    if |key| != KEY_SIZE then Err(WrongKeySize) else Ok(Sealed(c.seal(key, nonce, plaintext), nonce))
  }

  function Decrypt(c: Cipher, key: bytes, ciphertext: bytes, nonce: bytes): Result<string, CryptoError> {
    if |key| != KEY_SIZE then Err(WrongKeySize)
    else if |nonce| != NONCE_SIZE then Err(WrongNonceSize)
    else match c.open(key, nonce, ciphertext)
         case None => Err(NotAuthentic)
         case Some(p) => Ok(p)
  }

  /** Argon2id with the key-derivation costs. */
  function DeriveKey(pr: P.Primitives, c: Cipher, password: string, salt: bytes): (key: bytes)
    requires P.Lawful(pr)
    ensures |key| == KEY_SIZE
  {
    pr.idKey(c.raw(password), salt, 3, 64 * 1024, 4, 32).value
  }

  /** Under a key of the right size encryption succeeds, is never empty, and is undone by
      decryption with the stored nonce; under any other it fails. */
  lemma DecryptOfEncrypt(c: Cipher, key: bytes, plaintext: string, nonce: bytes)
    requires Lawful(c) && |nonce| == NONCE_SIZE
    ensures Encrypt(c, key, plaintext, nonce).Ok? <==> |key| == KEY_SIZE
    ensures Encrypt(c, key, plaintext, nonce).Ok? ==>
              var s := Encrypt(c, key, plaintext, nonce).value;
              s.ciphertext != [] && Decrypt(c, key, s.ciphertext, s.nonce) == Ok(plaintext)
  {
    if |key| == KEY_SIZE {
      assert c.open(key, nonce, c.seal(key, nonce, plaintext)) == Some(plaintext);
      assert |c.seal(key, nonce, plaintext)| >= TAG_SIZE;
    }
  }

  /** The key is Argon2id's, with the key-derivation costs, of the very password and salt. */
  lemma KeyIsArgons(pr: P.Primitives, c: Cipher, password: string, salt: bytes)
    requires P.Lawful(pr)
    ensures pr.idKey(c.raw(password), salt, 3, 65536, 4, 32) == Some(DeriveKey(pr, c, password, salt))
  {
  }

  /** Nothing but a text that the cipher itself opens under that key and nonce is decrypted. */
  lemma DecryptsOnlyAuthentic(c: Cipher, key: bytes, ciphertext: bytes, nonce: bytes)
    ensures Decrypt(c, key, ciphertext, nonce) == Err(WrongKeySize) <==> |key| != 32
    ensures |key| == 32 ==> (Decrypt(c, key, ciphertext, nonce) == Err(WrongNonceSize) <==> |nonce| != 12)
    ensures forall p :: Decrypt(c, key, ciphertext, nonce) == Ok(p) <==>
                        |key| == 32 && |nonce| == 12 && c.open(key, nonce, ciphertext) == Some(p)
  {
  }
}
