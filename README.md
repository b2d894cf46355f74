# Gladius account manager and balance construction, in Dafny

This project models the core of `pkg/blockchain/account.go` from gladius-common. It has two parts.

- **`GladiusAccountManager`**, here the class `Blockchain.AccountManager`. It sits over an encrypted
  keystore and manages a single account:
  - it creates an account only while the keystore holds none;
  - it always acts on the first account;
  - it reports "no account" as an error of its own;
  - it decides whether the account is unlocked by trying to sign a fixed 32-byte probe hash, so it keeps no unlock flag of its own;
  - it builds a transactor for the contract bindings by exporting the key under the caller's passphrase.
- **The post-fetch part of `GetAccountBalance`.** It parses the explorer's `result` string the way
  `strconv.ParseUint(s, 10, 64)` does, then builds the `Balance`: the raw amount, the asset tag, and
  a display value with the asset's symbol and name.

Files:

- `results.dfy` (module `Results`): `Option`, `Result` and the error values the code can report.
- `strconv.dfy` (module `Decimal`): Go's base-10 `ParseUint`, digit by digit, with the same
  error order as Go. Beside it are a whole-string reference description (`ParseSpec`) and the printer `FormatUint`.
  The lemmas prove that the parser meets the description and that parsing and printing are inverse to each other.
- `keystore.dfy` (module `Keystore`): the go-ethereum keystore operations the manager calls
  (`Accounts`, `NewAccount`, `Unlock`, `SignHash`, `Export`) and `bind.NewTransactor`. The keystore is a
  class whose state is a sequence of key files and a set of unlocked addresses. A key file is an
  account plus the passphrase it is encrypted under. Cryptography is reduced to whether a
  passphrase matches, whether an account is unlocked and whether a digest is 32 bytes long.
- `account.dfy` (module `Blockchain`): the manager class, `BalanceType`, `PrettyBalance`, `Balance`
  and the balance construction.

Notes on the code as written, which the model follows:

- `HasAccount` is true when the keystore holds *at least* one account. The keystore may already hold
  several key files. Every operation uses the first of them, and `CreateAccount` never adds a second.
- `UnlockAccount` with a wrong passphrase returns `false` together with the keystore's decryption
  error, not a plain `false`.
- For ETH the display value is `round(raw / 1e19 * 1000) / 100`. That is the raw wei amount in ether
  (18 decimals), rounded to hundredths (`Cents`). For example, 123456789012345678 wei
  is shown as 0.12 (`DisplayExamples`).
- "Unlocked" is a stateless probe here, as in the code: `Unlocked` reads the keystore's unlocked set
  through `SignHash` and changes nothing. An account stays unlocked in the keystore once `Unlock`
  succeeds, because unlocking never times out. A later wrong passphrase does not lock it again.

## Model

| member | source | states |
|---|---|---|
| `Blockchain.AccountManager.constructor` | pkg/blockchain/account.go:23-25 | a manager is a view over one given keystore |
| `Blockchain.AccountManager.HasAccount` | pkg/blockchain/account.go:63-66 | true exactly when the keystore holds at least one key file, i.e. its set of addresses is non-empty |
| `Blockchain.AccountManager.GetAccount` | pkg/blockchain/account.go:109-119 | NoAccount when the keystore is empty, otherwise the first account, which is one the keystore holds |
| `Blockchain.AccountManager.GetAccountAddress` | pkg/blockchain/account.go:99-107 | the first account's address, or NoAccount exactly when there is no account |
| `Blockchain.AccountManager.Unlocked` | pkg/blockchain/account.go:44-61 | false without an account; otherwise true exactly when the first account's address is in the keystore's unlocked set (the 32-byte probe hash can be signed); reads only |
| `Blockchain.AccountManager.UnlockAccount` | pkg/blockchain/account.go:73-86 | (true, no error) exactly when there is an account and the passphrase is the first account's; then that account is unlocked and `Unlocked()` holds; otherwise false with NoAccount or Decrypt and the unlocked set unchanged; key files never change; keystore invariant kept |
| `Blockchain.AccountManager.CreateAccount` | pkg/blockchain/account.go:88-97 | on an empty keystore adds exactly one key file under the passphrase and returns its account; otherwise AccountExists and the key files unchanged; at most one account stays at most one; afterwards there is an account and the first account is the old one when there was one |
| `Blockchain.AccountManager.GetAuth` | pkg/blockchain/account.go:268-287 | a transactor exactly when there is an account and the passphrase is the first account's, signing as that account's address; NoAccount or Decrypt otherwise, never both a transactor and an error |
| `Blockchain.Lifecycle` | pkg/blockchain/account.go:44-97 | on a new keystore: the first create succeeds, a second fails with AccountExists, the probe says not unlocked, a wrong passphrase does not unlock, the creation passphrase does, the probe then says unlocked, and only the creation passphrase authorizes |
| `Blockchain.Cents` | pkg/blockchain/account.go:183-195 | the rounded display amount, in hundredths of a coin, is the nearest to the raw amount in whole coins (halves rounded up): 1e18 units per ETH, 1e8 per GLA |
| `Blockchain.DisplayExamples` | pkg/blockchain/account.go:186-195 | 123456789012345678 wei displays as 0.12 ETH; 250000000 GLA units display as 2.5 GLA |
| `Blockchain.Symbol` | pkg/blockchain/account.go:149-160 | the symbol is "ETH" exactly for ETH and "GLA" exactly for GLA |
| `Blockchain.Name` | pkg/blockchain/account.go:149-160 | the name is "Ethereum" exactly for ETH and "Gladius" exactly for GLA |
| `Blockchain.Pretty` | pkg/blockchain/account.go:183-206 | the display value is a whole number of hundredths, `Cents` over 100, within half a hundredth of raw / 1e18 for ETH and raw / 1e8 for GLA; symbol and name "ETH"/"Ethereum" for ETH and "GLA"/"Gladius" for GLA |
| `Blockchain.BalanceFromResult` | pkg/blockchain/account.go:178-208 | a Balance exactly when the result is a non-empty all-digit string of value at most 2^64-1, with that raw value, the requested asset and its display form and no USD balance; otherwise no balance and exactly the error the parser gives: a range error when the leading run of digits exceeds 2^64-1, else a syntax error |
| `Blockchain.AccountBalance` | pkg/blockchain/account.go:162-181 | a transport error is passed on; a body without a result field is a syntax error; a result field gives exactly what `BalanceFromResult` gives for it, so a Balance only comes from a valid result field, with the requested asset and that field's value |
| `Decimal.ParseUint` | pkg/blockchain/account.go:178 | Go's base-10, 64-bit ParseUint: the empty string is a syntax error, a success comes only from a non-empty all-digit string, and every failure is a syntax or range error; `ParseUintMatchesSpec` gives its full meaning |
| `Decimal.Accumulate` | pkg/blockchain/account.go:178 | ParseUint's digit loop with Go's cutoff and overflow checks: it succeeds only when the rest of the string is digits, never with less than the value so far, and fails only with a syntax or range error |
| `Decimal.FormatUint` | pkg/blockchain/account.go:178 | the decimal printer used as the parser's partner: a non-empty digit string denoting n, with no leading zero |
| `Decimal.AccumulateFromPrefix` | pkg/blockchain/account.go:178 | the parser's digit loop, from any point inside the leading run of digits, ends in a range error, a syntax error or the value, as the whole-string description says |
| `Decimal.ParseUintMatchesSpec` | pkg/blockchain/account.go:178 | ParseUint agrees on every string with the whole-string description: empty is a syntax error; a leading digit run above 2^64-1 is a range error even if a bad character follows; a bad character otherwise is a syntax error |
| `Decimal.ParseUintOk` | pkg/blockchain/account.go:178 | ParseUint succeeds exactly on non-empty all-digit strings denoting at most 2^64-1, and returns their value; every failure is a syntax or range error |
| `Decimal.ParseFormatRoundTrip` | pkg/blockchain/account.go:178 | parsing the printed form of any uint64 gives it back |
| `Decimal.FormatParseRoundTrip` | pkg/blockchain/account.go:178 | printing the parsed value of a string without leading zeros gives that string back |
| `Keystore.KeyStore.constructor` | pkg/blockchain/account.go:36-39 | a keystore over the key files present, nothing unlocked, invariant established |
| `Keystore.KeyStore.Accounts` | pkg/blockchain/account.go:116 | the accounts of the key files, one per file, in order |
| `Keystore.KeyStore.DecryptKey` | pkg/blockchain/account.go:80 | the key file of the account opened with a passphrase: NoMatch exactly when no file belongs to the account; otherwise success exactly when the passphrase is that of the account's first key file, which is returned, and Decrypt if not |
| `Keystore.KeyStore.NewAccount` | pkg/blockchain/account.go:92 | appends exactly one key file for the new address under the passphrase; unlocked set unchanged; invariant kept |
| `Keystore.KeyStore.Unlock` | pkg/blockchain/account.go:80 | succeeds exactly when the key decrypts with the passphrase, and then adds the account's address to the unlocked set; a failure changes nothing; key files never change |
| `Keystore.KeyStore.SignHash` | pkg/blockchain/account.go:55 | a signature by the account exactly when it is unlocked and the digest is 32 bytes; Locked when it is not unlocked |
| `Keystore.KeyStore.Export` | pkg/blockchain/account.go:275 | the key re-encrypted under the new passphrase exactly when it decrypts with the old one; the decryption error otherwise |
| `Keystore.NewTransactor` | pkg/blockchain/account.go:281 | a transactor signing as the key's address exactly when the passphrase is the blob's; Decrypt otherwise |

## Left out

- `pkg/manager/manager.go`: service installation and lifecycle (the service library, command-line dispatch, a goroutine, a global logger). It holds no logic with statable properties.
- `NewGladiusAccountManager` (account.go:28-42): it reads the base directory and the wallet directory from configuration and the file system. The model starts from a manager over a given keystore.
- The HTTP requests, URLs and API key of `GetAccountBalance`, and the JSON decoding of its body. The model starts from the transport error or the decoded `result` field.
- `getTransactions`, `GetEthereumAccountTransactions`, `GetGladiusAccountTransactions`, `EtherscanTransactionsResponse`, `EtherscanTransaction`: network I/O and JSON decoding only.
- `TransactionOptions` and `TransactionFilter`: declared but never applied anywhere, so they have no behaviour to model.
- A `BalanceType` other than ETH or GLA. The Go code would dereference a nil response for such a value. The model's `BalanceType` has exactly those two values.
- The check-then-create race in `CreateAccount`: a concurrency issue. The model's operations run one at a time.
- Key generation, scrypt, secp256k1 signing and the key-file format. Only their observable outcome is kept: which passphrase opens which key, which accounts are unlocked and whether a digest is 32 bytes. Signatures, key blobs and transactors carry only the address they belong to.
- `accounts.Account`'s URL field (the key-file path). The keystore finds an account's key file by address, taking the first match. Go's ambiguous-address error therefore does not arise.
- `Keystore.KeyStore.NewAccount`: does not model the error returned when the key file cannot be written. As a result, `Blockchain.AccountManager.CreateAccount` always succeeds on an empty keystore.
- `Keystore.KeyStore.Unlock`: does not model the timed unlock of the keystore. The manager only ever unlocks without a time limit.
- `Blockchain.Cents`: rounds an exact half-hundredth up, in exact rational arithmetic. The code divides and multiplies in `float64`, and the decimal divisors 1e8 and 1e19 give inexact quotients. So at a half-hundredth `math.Round` can see a value just below .5 and round down, at any size of amount. For example, 14500000 GLA units give 14500000/1e8 = 0.14499999999999999, times 100 = 14.499999999999998, so the code shows 0.14 where the model shows 0.15. Away from half-hundredths the two can also differ whenever the `float64` error crosses a rounding boundary.
- `Blockchain.Pretty`: its display value is `Blockchain.Cents` over 100 in exact arithmetic, not the `float64` the code computes (see the line above). Separately, from 2^53 on, converting the raw amount itself to `float64` starts losing digits. The unused first initialisation of the display value (account.go:183-184) is overwritten in both branches and is not modelled.
- `Balance.UsdBalance`: never set by this code. The model always leaves it `None`.
