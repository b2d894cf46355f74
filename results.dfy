/** Results and errors shared by the account manager, the keystore beneath it and the decimal parser. */
module Results {

  datatype Option<T> = None | Some(value: T)

  /** Every failure the modelled code can report. Each stands for one Go error value. */
  datatype Error =
    | NoAccount            // the manager's error when the keystore holds no account
    | AccountExists        // the manager's error when asked to create a second account
    | NoMatch              // the keystore has no key file for the account
    | Decrypt              // the passphrase does not decrypt the key
    | Locked               // signing with an account that is not unlocked
    | HashLength           // signing a digest that is not 32 bytes long
    | ParseSyntax          // the parser met an empty string or a character that is not a digit
    | ParseRange           // the parser's value went past 2^64-1
    | Transport(reason: string)  // the HTTP request failed before a body arrived

  datatype Result<T> = Ok(value: T) | Err(error: Error)
}
