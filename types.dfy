/** Values shared by the card reader and the text application: octets,
    Go's `error` results, and the errors the text application can report. */
module Types {

  /** One octet, Go's `byte`. */
  type byte = b: int | 0 <= b < 0x100

  /** An optional value; as a Go `error`, `None` is `nil`. */
  datatype Option<T> = None | Some(value: T)

  /** A Go `(*T, error)` pair: the record is nil exactly when the error is not. */
  datatype Result<T> = Ok(value: T) | Err(error: Error)

  /** Every error the text application can return, by where it comes from. */
  datatype Error =
    | SelectFailed(ef: string)    // the card refused SELECT FILE for this EF
    | WrongPin(remaining: nat)    // VERIFY failed and tries remain
    | PinBlocked                  // VERIFY refused: the retry counter is exhausted
    | CardError                   // any other refusal by the card
    | ReadBinaryError             // "Error at ReadBinary()": a read came back short
    | InvalidAPInfoLength         // "invalid APInfo length"
    | InvalidKeyIDLength          // "invalid KeyID length"
    | Asn1Error(reason: string)   // reported by the ASN.1 library or the partial parser
}
