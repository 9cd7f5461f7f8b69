/**
  The encryption keyring of app/security.py. Encryption is symbolic: a ciphertext records the key,
  the plaintext and the nonce it was made from, and opens under that key alone.
 */
module Secrets {
  import opened Prelude

  type Kid = string
  type Key = string

  datatype Cipher = Cipher(key: Key, plaintext: string, nonce: nat)

  datatype Entry = Entry(kid: Kid, key: Key)

  /** A process's settings: its keyring in dictionary order, and its active kid. */
  datatype Keyring = Keyring(entries: seq<Entry>, active: Kid)

  /** A dictionary has each kid once. */
  predicate IsDictionary(entries: seq<Entry>) {
    forall i, j :: 0 <= i < j < |entries| ==> entries[i].kid != entries[j].kid
  }

  function KeyOf(entries: seq<Entry>, kid: Kid): Option<Key> {
    if entries == [] then None
    else if entries[0].kid == kid then Some(entries[0].key)
    else KeyOf(entries[1..], kid)
  }

  datatype Opened = Opened(plaintext: string, kid: Kid)

  function Open(entry: Entry, cipher: Cipher): Option<Opened> {
    if entry.key == cipher.key then Some(Opened(cipher.plaintext, entry.kid)) else None
  }

  /** The keyring with the entry of the stated key version, if there is one, in front. */
  function Candidates(entries: seq<Entry>, keyVersion: Option<Kid>): seq<Entry> {
    if keyVersion.Some? && keyVersion.value != "" && KeyOf(entries, keyVersion.value).Some? then
      [Entry(keyVersion.value, KeyOf(entries, keyVersion.value).value)] + Without(entries, keyVersion.value)
    else entries
  }

  function Without(entries: seq<Entry>, kid: Kid): seq<Entry> {
    if entries == [] then []
    else (if entries[0].kid == kid then [] else [entries[0]]) + Without(entries[1..], kid)
  }

  function FirstOpened(candidates: seq<Entry>, cipher: Cipher): Option<Opened> {
    if candidates == [] then None
    else if Open(candidates[0], cipher).Some? then Open(candidates[0], cipher)
    else FirstOpened(candidates[1..], cipher)
  }

  /** `decrypt_secret_with_key_version`; None stands for the ValueError. */
  function Decrypt(ring: Keyring, cipher: Cipher, keyVersion: Option<Kid>): Option<Opened> {
    FirstOpened(Candidates(ring.entries, keyVersion), cipher)
  }

  /** The same as a loop over candidate kids. */
  method DecryptSecretWithKeyVersion(ring: Keyring, cipher: Cipher, keyVersion: Option<Kid>) returns (r: Option<Opened>)
    ensures r == Decrypt(ring, cipher, keyVersion)
  {
    var candidates := Candidates(ring.entries, keyVersion);
    for i := 0 to |candidates|
      invariant FirstOpened(candidates, cipher) == FirstOpened(candidates[i..], cipher)
    {
      if candidates[i].key == cipher.key {
        return Some(Opened(cipher.plaintext, candidates[i].kid));
      }
    }
    return None;
  }

  /** `encrypt_secret`; None stands for the ValueError when the active kid is not in the keyring. */
  function Encrypt(ring: Keyring, plaintext: string, nonce: nat): Option<Cipher> {
    match KeyOf(ring.entries, ring.active)
    case Some(key) => Some(Cipher(key, plaintext, nonce))
    case None => None
  }

  lemma {:induction false} KeyOfMember(entries: seq<Entry>, kid: Kid)
    ensures KeyOf(entries, kid).Some? ==> Entry(kid, KeyOf(entries, kid).value) in entries
    ensures KeyOf(entries, kid).None? ==> forall e :: e in entries ==> e.kid != kid
  {
    if entries != [] {
      KeyOfMember(entries[1..], kid);
    }
  }

  lemma {:induction false} MemberHasKey(entries: seq<Entry>, e: Entry)
    requires IsDictionary(entries) && e in entries
    ensures KeyOf(entries, e.kid) == Some(e.key)
  {
    if entries[0] != e {
      assert e in entries[1..];
      MemberHasKey(entries[1..], e);
    }
  }

  lemma {:induction false} WithoutMembers(entries: seq<Entry>, kid: Kid, e: Entry)
    ensures e in Without(entries, kid) <==> e in entries && e.kid != kid
  {
    if entries != [] {
      WithoutMembers(entries[1..], kid, e);
      assert e in entries <==> e == entries[0] || e in entries[1..];
    }
  }

  lemma CandidatesAreTheRing(entries: seq<Entry>, keyVersion: Option<Kid>, e: Entry)
    requires IsDictionary(entries)
    ensures e in Candidates(entries, keyVersion) <==> e in entries
  {
    if keyVersion.Some? && KeyOf(entries, keyVersion.value).Some? {
      WithoutMembers(entries, keyVersion.value, e);
      KeyOfMember(entries, keyVersion.value);
      if e in entries && e.kid == keyVersion.value { MemberHasKey(entries, e); }
    }
  }

  lemma {:induction false} FirstOpenedOpens(candidates: seq<Entry>, cipher: Cipher)
    ensures FirstOpened(candidates, cipher).Some? <==> exists e :: e in candidates && e.key == cipher.key
    ensures FirstOpened(candidates, cipher).Some? ==>
      FirstOpened(candidates, cipher).value.plaintext == cipher.plaintext
      && Entry(FirstOpened(candidates, cipher).value.kid, cipher.key) in candidates
  {
    if candidates != [] {
      FirstOpenedOpens(candidates[1..], cipher);
      if candidates[0].key != cipher.key {
        assert forall e :: e in candidates <==> e == candidates[0] || e in candidates[1..];
      }
    }
  }

  /**
    Decryption succeeds exactly when some key of the ring opens the ciphertext, whatever the label says;
    it gives the plaintext and a kid whose key opens it, the label itself when the label is right.
   */
  lemma DecryptFindsTheKey(ring: Keyring, cipher: Cipher, keyVersion: Option<Kid>)
    requires IsDictionary(ring.entries)
    ensures
      var r := Decrypt(ring, cipher, keyVersion);
      && (r.Some? <==> exists e :: e in ring.entries && e.key == cipher.key)
      && (r.Some? ==> r.value.plaintext == cipher.plaintext && KeyOf(ring.entries, r.value.kid) == Some(cipher.key))
      && (keyVersion.Some? && keyVersion.value != "" && KeyOf(ring.entries, keyVersion.value) == Some(cipher.key) ==>
            r == Some(Opened(cipher.plaintext, keyVersion.value)))
  {
    var candidates := Candidates(ring.entries, keyVersion);
    FirstOpenedOpens(candidates, cipher);
    forall e ensures e in candidates <==> e in ring.entries {
      CandidatesAreTheRing(ring.entries, keyVersion, e);
    }
    var r := Decrypt(ring, cipher, keyVersion);
    if r.Some? {
      MemberHasKey(ring.entries, Entry(r.value.kid, cipher.key));
    }
  }

  /** What a process encrypts, every process opens whose ring still has that key, under any label. */
  lemma DecryptUndoesEncrypt(writer: Keyring, reader: Keyring, plaintext: string, nonce: nat, stated: Option<Kid>)
    requires IsDictionary(reader.entries)
    requires KeyOf(writer.entries, writer.active).Some?
    requires exists e :: e in reader.entries && Some(e.key) == KeyOf(writer.entries, writer.active)
    ensures
      var cipher := Encrypt(writer, plaintext, nonce);
      cipher.Some? && Decrypt(reader, cipher.value, stated).Some?
      && Decrypt(reader, cipher.value, stated).value.plaintext == plaintext
  {
    DecryptFindsTheKey(reader, Encrypt(writer, plaintext, nonce).value, stated);
  }
}
