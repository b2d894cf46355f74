/**
 * Package blockchain's account.go: the account manager, which keeps at most one
 * account in its keystore and always acts on the first one, and the part of
 * GetAccountBalance that turns the explorer's `result` string into a Balance.
 */
module Blockchain {
  import opened Results
  import opened Decimal
  import opened Keystore

  /** The blank hash Unlocked signs to probe the account: the 32 bytes of []byte("000...0"). */
  const PROBE_HASH: seq<bv8> := seq(32, _ => 0x30)

  /**
   * GladiusAccountManager: performs every action on the first account of its
   * keystore and creates an account only while the keystore holds none.
   */
  class AccountManager {
    const keystore: KeyStore

    constructor (ks: KeyStore)
      ensures keystore == ks
    {
      keystore := ks;
    }

    /** HasAccount: whether the keystore holds any account at all. */
    function HasAccount(): (r: bool)
      reads keystore
      ensures r <==> keystore.entries != []
      ensures r <==> keystore.Addresses() != {}
    {
      assert keystore.entries != [] ==> keystore.entries[0].account.address in keystore.Addresses();
      |keystore.Accounts()| > 0
    }

    /** GetAccount: the first account, or NoAccount. */
    function GetAccount(): (r: Result<Account>)
      reads keystore
      ensures r.Ok? <==> HasAccount()
      ensures r.Ok? ==> r.value == keystore.entries[0].account
      ensures r.Ok? ==> r.value.address in keystore.Addresses()
      ensures r.Err? ==> r.error == NoAccount
    {
      var accounts := keystore.Accounts();
      if |accounts| < 1 then Err(NoAccount) else Ok(accounts[0])
    }

    /** GetAccountAddress: the first account's address, or GetAccount's error. */
    function GetAccountAddress(): (r: Result<Address>)
      reads keystore
      ensures r.Ok? <==> HasAccount()
      ensures r.Ok? ==> r.value == keystore.entries[0].account.address
      ensures r.Err? ==> r.error == NoAccount
    {
      match GetAccount()
      case Err(e) => Err(e)
      case Ok(account) => Ok(account.address)
    }

    /**
     * Unlocked: probes the first account by signing PROBE_HASH with it; no
     * unlock state of its own is kept. True exactly when there is an account
     * and the keystore holds it unlocked.
     */
    function Unlocked(): (r: bool)
      reads keystore
      ensures r <==> HasAccount() && keystore.entries[0].account.address in keystore.unlocked
    {
      if !HasAccount() || GetAccount().Err? then false
      else keystore.SignHash(GetAccount().value, PROBE_HASH).Ok?
    }

    /**
     * UnlockAccount: unlocks the first account with `passphrase`. Reports
     * (true, no error) exactly when the passphrase is the one the first account
     * was created with, and (false, an error) otherwise.
     */
    method UnlockAccount(passphrase: string) returns (ok: bool, err: Option<Error>)
      requires keystore.Valid()
      modifies keystore
      ensures keystore.Valid()
      ensures keystore.entries == old(keystore.entries)
      ensures ok <==> err.None?
      ensures ok <==> old(keystore.entries) != [] && passphrase == old(keystore.entries)[0].passphrase
      ensures old(keystore.entries) == [] ==> err == Some(NoAccount)
      ensures old(keystore.entries) != [] && !ok ==> err == Some(Decrypt)
      ensures ok ==> keystore.unlocked == old(keystore.unlocked) + {keystore.entries[0].account.address}
      ensures ok ==> Unlocked()
      ensures !ok ==> keystore.unlocked == old(keystore.unlocked)
    {
      var account := GetAccount();
      if account.Err? {
        return false, Some(account.error);
      }
      var r := keystore.Unlock(account.value, passphrase);
      if r.Ok? {
        return true, None;
      }
      return false, Some(r.error);
    }

    /**
     * CreateAccount: adds an account encrypted under `passphrase`, unless the
     * keystore already holds one, in which case nothing changes and the result
     * is AccountExists. `address` is the address of the freshly generated key.
     */
    method CreateAccount(passphrase: string, address: Address) returns (r: Result<Account>)
      requires keystore.Valid()
      modifies keystore
      ensures keystore.Valid()
      ensures keystore.unlocked == old(keystore.unlocked)
      ensures old(keystore.entries) != [] ==> r == Err(AccountExists) && keystore.entries == old(keystore.entries)
      ensures old(keystore.entries) == [] ==>
        r == Ok(Account(address)) && keystore.entries == [Entry(Account(address), passphrase)]
      ensures |old(keystore.entries)| <= 1 ==> |keystore.entries| <= 1
      ensures HasAccount() && GetAccount() == if old(HasAccount()) then old(GetAccount()) else r
    {
      if |keystore.Accounts()| < 1 {
        var account := keystore.NewAccount(passphrase, address);
        return Ok(account);
      }
      return Err(AccountExists);
    }

    /**
     * GetAuth: exports the first account's key under `passphrase` and builds a
     * transactor from it. It fails closed: no account, or a passphrase that is
     * not the account's, gives an error and no transactor.
     */
    function GetAuth(passphrase: string): (r: Result<TransactOpts>)
      reads keystore
      ensures r.Ok? <==> HasAccount() && passphrase == keystore.entries[0].passphrase
      ensures r.Ok? ==> r.value.from == keystore.entries[0].account.address
      ensures !HasAccount() ==> r == Err(NoAccount)
      ensures HasAccount() && r.Err? ==> r.error == Decrypt
    {
      match GetAccount()
      case Err(e) => Err(e)
      case Ok(account) =>
        match keystore.Export(account, passphrase, passphrase)
        case Err(e) => Err(e)
        case Ok(key) => NewTransactor(key, passphrase)
    }
  }

  /**
   * The life of an account on a new, empty keystore: creation succeeds once and
   * only once, only the creation passphrase unlocks and authorizes, and the
   * probe sees the account unlocked once it is.
   */
  method Lifecycle(passphrase: string, other: string, address: Address, address': Address)
    returns (created: Result<Account>, again: Result<Account>, unlockedBefore: bool,
             wrongUnlock: bool, rightUnlock: bool, unlockedAfter: bool,
             wrongAuth: Result<TransactOpts>, rightAuth: Result<TransactOpts>)
    requires other != passphrase
    ensures created == Ok(Account(address)) && again == Err(AccountExists)
    ensures !unlockedBefore && !wrongUnlock && rightUnlock && unlockedAfter
    ensures wrongAuth == Err(Decrypt) && rightAuth == Ok(TransactOpts(address))
  {
    var ks := new KeyStore([]);
    var manager := new AccountManager(ks);
    created := manager.CreateAccount(passphrase, address);
    again := manager.CreateAccount(other, address');
    unlockedBefore := manager.Unlocked();
    var err;
    wrongUnlock, err := manager.UnlockAccount(other);
    rightUnlock, err := manager.UnlockAccount(passphrase);
    unlockedAfter := manager.Unlocked();
    wrongAuth := manager.GetAuth(other);
    rightAuth := manager.GetAuth(passphrase);
  }

  /** BalanceType: the two assets a balance can be asked for. */
  datatype BalanceType = ETH | GLA

  /**
   * PrettyBalance. `value` is the display value, kept here as an exact
   * rational: the number of hundredths of a whole coin, over 100.
   */
  datatype PrettyBalance = PrettyBalance(value: real, symbol: string, name: string)

  /** Balance: the raw amount in the asset's smallest unit, its asset and its display form. */
  datatype Balance = Balance(
    rawValue: uint64,
    balanceType: BalanceType,
    prettyBalance: PrettyBalance,
    usdBalance: Option<PrettyBalance>)

  /** The asset's symbol: "ETH" names ETH and "GLA" names GLA. */
  function Symbol(t: BalanceType): (r: string)
    ensures r == "ETH" <==> t == ETH
    ensures r == "GLA" <==> t == GLA
  {
    match t
    case ETH => "ETH"
    case GLA => "GLA"
  }

  /** The asset's name: "Ethereum" names ETH and "Gladius" names GLA. */
  function Name(t: BalanceType): (r: string)
    ensures r == "Ethereum" <==> t == ETH
    ensures r == "Gladius" <==> t == GLA
  {
    match t
    case ETH => "Ethereum"
    case GLA => "Gladius"
  }

  /**
   * math.Round(raw / divisor * multiplier), in exact arithmetic, with
   * divisor 1e19 and multiplier 1000 for ETH and 1e8 and 100 for GLA: the
   * nearest integer, halves rounded away from zero. The display value is this
   * over 100. It is the raw amount in whole coins rounded to the nearest
   * hundredth: for ETH, dividing by 1e19 and multiplying by 1000 before taking
   * hundredths is dividing by 1e18, ether's 18 decimals.
   */
  function Cents(raw: uint64, t: BalanceType): (c: nat)
    ensures t == ETH ==>
      c * 10_000_000_000_000_000 <= raw + 5_000_000_000_000_000 < (c + 1) * 10_000_000_000_000_000
    ensures t == GLA ==> c * 1_000_000 <= raw + 500_000 < (c + 1) * 1_000_000
  {
    match t
    case ETH => (2 * raw * 1000 + 10_000_000_000_000_000_000) / (2 * 10_000_000_000_000_000_000)
    case GLA => (2 * raw * 100 + 100_000_000) / (2 * 100_000_000)
  }

  /**
   * Two worked values: 123456789012345678 wei is 0.1234... ether, shown as
   * 0.12; 250000000 GLA units at 8 decimals are shown as 2.5.
   */
  lemma DisplayExamples()
    ensures Cents(123456789012345678, ETH) == 12
    ensures Cents(250000000, GLA) == 250
  {
  }

  /** The PrettyBalance of a raw amount: its rounded display value, symbol and name. */
  function Pretty(raw: uint64, t: BalanceType): (p: PrettyBalance)
    ensures p.value == Cents(raw, t) as real / 100.0
    ensures t == ETH ==>
      -5_000_000_000_000_000.0 < p.value * 1_000_000_000_000_000_000.0 - raw as real <= 5_000_000_000_000_000.0
    ensures t == GLA ==> -500_000.0 < p.value * 100_000_000.0 - raw as real <= 500_000.0
    ensures t == ETH ==> p.symbol == "ETH" && p.name == "Ethereum"
    ensures t == GLA ==> p.symbol == "GLA" && p.name == "Gladius"
  {
    var c := Cents(raw, t);
    assert t == ETH ==> (c * 10_000_000_000_000_000) as real == (c as real / 100.0) * 1_000_000_000_000_000_000.0;
    assert t == GLA ==> (c * 1_000_000) as real == (c as real / 100.0) * 100_000_000.0;
    PrettyBalance(c as real / 100.0, Symbol(t), Name(t))
  }

  /**
   * The part of GetAccountBalance after the explorer's `result` field is in
   * hand: parse it as ParseUint(result, 10, 64) does, and on success build the
   * Balance of asset `t`. A result that is empty, not all digits or above
   * 2^64-1 gives the parser's error and no balance.
   */
  function BalanceFromResult(result: string, t: BalanceType): (r: Result<Balance>)
    ensures r.Ok? <==> result != [] && AllDigits(result) && Value(result) <= MAX_UINT64
    ensures r.Err? ==> r.error == ParseSyntax || r.error == ParseRange
    ensures r.Err? ==> ParseSpec(result) == Err(r.error)
    ensures r.Ok? ==> r.value.rawValue == Value(result) && r.value.balanceType == t
    ensures r.Ok? ==> r.value.prettyBalance == Pretty(Value(result), t) && r.value.usdBalance == None
  {
    ParseUintOk(result);
    ParseUintMatchesSpec(result);
    match ParseUint(result)
    case Err(e) => Err(e)
    case Ok(raw) => Ok(Balance(raw, t, Pretty(raw, t), None))
  }

  /**
   * GetAccountBalance once the query is answered. `response` is the transport
   * error, or the decoded `result` field, None when the body has none (the
   * JSON decoding error is ignored, so the field stays the empty string).
   */
  function AccountBalance(response: Result<Option<string>>, t: BalanceType): (r: Result<Balance>)
    ensures response.Err? ==> r == Err(response.error)
    ensures response == Ok(None) ==> r == Err(ParseSyntax)
    ensures r.Ok? ==> response.Ok? && response.value.Some? && AllDigits(response.value.value)
    ensures r.Ok? ==> r.value.balanceType == t && r.value.rawValue == Value(response.value.value)
    ensures response.Ok? && response.value.Some? ==> r == BalanceFromResult(response.value.value, t)
  {
    match response
    case Err(e) => Err(e)
    case Ok(field) =>
      var result := match field case None => "" case Some(s) => s;
      BalanceFromResult(result, t)
  }
}
