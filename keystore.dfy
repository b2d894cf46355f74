/**
 * The part of go-ethereum's encrypted keystore (accounts/keystore) and of
 * bind.NewTransactor that the account manager relies on. Key files are kept
 * as (account, passphrase) pairs, and cryptography is reduced to one question:
 * does the passphrase match the one the key was encrypted under?
 */
module Keystore {
  import opened Results

  /** A 20-byte account address. */
  type Address = a: seq<bv8> | |a| == 20 witness seq(20, _ => 0)

  /** accounts.Account, reduced to its address (the key file URL is not modelled). */
  datatype Account = Account(address: Address)

  /** One key file: the account and the passphrase its private key is encrypted under. */
  datatype Entry = Entry(account: Account, passphrase: string)

  /** The JSON key blob Export returns: the key, re-encrypted under `passphrase`. */
  datatype KeyJson = KeyJson(address: Address, passphrase: string)

  /** A signature over `digest` made with the key of `signer`. */
  datatype Signature = Signature(signer: Address, digest: seq<bv8>)

  /** bind.TransactOpts: the account that transactions are signed as. */
  datatype TransactOpts = TransactOpts(from: Address)

  /** crypto.DigestLength: signatures are made over 32-byte hashes only. */
  const DIGEST_LENGTH := 32

  /** The position of the first key file of account `a`, as the keystore's lookup finds it. */
  function FirstIndex(es: seq<Entry>, a: Account): (r: Option<nat>)
    ensures r.Some? ==> r.value < |es| && es[r.value].account == a
    ensures r.Some? ==> forall j :: 0 <= j < r.value ==> es[j].account != a
    ensures r.None? ==> forall j :: 0 <= j < |es| ==> es[j].account != a
  {
    if es == [] then None
    else if es[0].account == a then Some(0)
    else match FirstIndex(es[1..], a)
      case None => None
      case Some(i) => Some(i + 1)
  }

  /** bind.NewTransactor: decrypts the key blob with `passphrase` and signs as its account. */
  function NewTransactor(key: KeyJson, passphrase: string): (r: Result<TransactOpts>)
    ensures r.Ok? <==> passphrase == key.passphrase
    ensures r.Ok? ==> r.value.from == key.address
    ensures r.Err? ==> r.error == Decrypt
  {
    if passphrase != key.passphrase then Err(Decrypt) else Ok(TransactOpts(key.address))
  }

  class KeyStore {
    /** The key files, in the order Accounts() lists them. */
    var entries: seq<Entry>
    /** The addresses whose decrypted key is held in memory. */
    var unlocked: set<Address>

    ghost function Addresses(): set<Address>
      reads this
    {
      set e | e in entries :: e.account.address
    }

    /** Only an address the keystore holds a key for can be unlocked. */
    ghost predicate Valid()
      reads this
    {
      unlocked <= Addresses()
    }

    /** keystore.NewKeyStore: a keystore over the key files already present, none of them unlocked. */
    constructor (files: seq<Entry>)
      ensures Valid()
      ensures entries == files && unlocked == {}
    {
      entries := files;
      unlocked := {};
    }

    /** Accounts: every account that has a key file, in order. */
    function Accounts(): (r: seq<Account>)
      reads this
      ensures |r| == |entries|
      ensures forall i :: 0 <= i < |r| ==> r[i] == entries[i].account
    {
      seq(|entries|, i reads this requires 0 <= i < |entries| => entries[i].account)
    }

    /**
     * getDecryptedKey: finds the key file of `a` and decrypts it with `passphrase`.
     * It fails with NoMatch when there is no such file and with Decrypt when the
     * passphrase is not the one the key was encrypted under.
     */
    function DecryptKey(a: Account, passphrase: string): (r: Result<Entry>)
      reads this
      ensures r.Ok? ==> r.value in entries && r.value == Entry(a, passphrase)
      ensures r == Err(NoMatch) <==> forall e :: e in entries ==> e.account != a
      ensures r.Err? ==> r.error == NoMatch || r.error == Decrypt
      ensures FirstIndex(entries, a).Some? ==>
        (r.Ok? <==> entries[FirstIndex(entries, a).value].passphrase == passphrase)
    {
      match FirstIndex(entries, a)
      case None => Err(NoMatch)
      case Some(i) => if entries[i].passphrase == passphrase then Ok(entries[i]) else Err(Decrypt)
    }

    /**
     * NewAccount: stores a new key encrypted under `passphrase`. Key generation
     * is random; `address` is the address of the key it produced.
     */
    method NewAccount(passphrase: string, address: Address) returns (a: Account)
      requires Valid()
      modifies this
      ensures Valid()
      ensures a == Account(address)
      ensures entries == old(entries) + [Entry(a, passphrase)]
      ensures unlocked == old(unlocked)
    {
      a := Account(address);
      entries := entries + [Entry(a, passphrase)];
      assert Entry(a, passphrase) in entries;
    }

    /**
     * Unlock: decrypts the key of `a` with `passphrase` and keeps it in memory
     * until further notice. A failure leaves the set of unlocked accounts as it was.
     */
    method Unlock(a: Account, passphrase: string) returns (r: Result<()>)
      requires Valid()
      modifies this
      ensures Valid()
      ensures entries == old(entries)
      ensures r.Ok? <==> old(DecryptKey(a, passphrase)).Ok?
      ensures r.Err? ==> r.error == old(DecryptKey(a, passphrase)).error && unlocked == old(unlocked)
      ensures r.Ok? ==> unlocked == old(unlocked) + {a.address}
    {
      var key := DecryptKey(a, passphrase);
      if key.Err? {
        return Err(key.error);
      }
      assert key.value in entries;
      unlocked := unlocked + {a.address};
      r := Ok(());
    }

    /** SignHash: signs `hash` with the key of `a`, which must be unlocked. */
    function SignHash(a: Account, hash: seq<bv8>): (r: Result<Signature>)
      reads this
      ensures r.Ok? <==> a.address in unlocked && |hash| == DIGEST_LENGTH
      ensures r.Ok? ==> r.value == Signature(a.address, hash)
      ensures a.address !in unlocked ==> r == Err(Locked)
    {
      if a.address !in unlocked then Err(Locked)
      else if |hash| != DIGEST_LENGTH then Err(HashLength)
      else Ok(Signature(a.address, hash))
    }

    /** Export: the key of `a`, decrypted with `passphrase` and re-encrypted under `newPassphrase`. */
    function Export(a: Account, passphrase: string, newPassphrase: string): (r: Result<KeyJson>)
      reads this
      ensures r.Ok? <==> DecryptKey(a, passphrase).Ok?
      ensures r.Ok? ==> r.value == KeyJson(a.address, newPassphrase)
      ensures r.Err? ==> r.error == DecryptKey(a, passphrase).error
    {
      match DecryptKey(a, passphrase)
      case Err(e) => Err(e)
      case Ok(entry) => Ok(KeyJson(entry.account.address, newPassphrase))
    }
  }
}
