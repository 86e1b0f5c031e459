# My Number card text application, modelled in Dafny

This project models the card-reading logic of the text application of the
Japanese My Number card. The source is `libmyna/text_ap.go`, type `TextAP`,
and the two accessors on `TextAttrs`.

- **PIN methods.** Each `LookupPin`/`VerifyPin` variant selects its PIN file.
  The plain methods use EF 0011, the A variants EF 0014 and the B variants
  EF 0015. A lookup then queries the retry counter; a verify runs VERIFY.
- **Record readers.** `ReadMyNumber`, `ReadAttributes`, `ReadSignature`,
  `ReadCertificate` and `ReadBasicInfo` each select a fixed EF (0001 to
  0005). Each then reads a fixed number of bytes, checks the length where the
  source does, and decodes a BER-TLV record (ITU-T X.690) under a fixed outer
  tag. `ReadAttributes` first reads a 7-byte prefix and asks the partial
  parser for the full record size; only then does it read the record.
- **Accessors.** `SexString` maps an ISO/IEC 5218 sex code to a Japanese label
  after Go's `strconv.Atoi`. `HeaderString` renders the header bytes with
  `fmt`'s `% X` verb.

Files:

- `types.dfy` (module `Types`): octets, Go's `error` as `Option<Error>`, Go's
  `(*T, error)` as `Result<T>`, and the error taxonomy.
- `reader.dfy` (module `CardReader`): the shared `Reader` as a class over
  abstract card state. The state is the current selection, the data files'
  contents and the PIN files' retry counters. A ghost `trace` records every
  call issued to the reader together with what it returned.
- `strconv.dfy` (module `Strconv`): `Atoi` for a 64-bit `int`, with `Itoa`
  as its partner.
- `fmt.dfy` (module `Fmt`): the `% X` rendering of a byte slice and its
  inverse.
- `text_ap.dfy` (module `TextAp`): the records, the decoding library, and the
  `TextAP` class. A ghost `decodes` log on `TextAP` records every call into
  the decoding library.

The `TextAP` methods are proved against the reader's trace and the decode log.
Their contracts state:
- which EF is selected first;
- that a failed selection returns the reader's error unchanged and issues
  nothing else;
- the exact sizes and order of the reads;
- when a decode happens, on which bytes, and under which tag;
- the whole new state of the card.

The Go code of `Reader`, of `ASN1PartialParser` and of the `asn1` package is
not part of this model. The reader is a stand-in with the semantics below.
The decoding library is a value of type `Asn1Library` passed to the `TextAP`
constructor. Its unmarshal functions and its partial parser are arbitrary
function values, so nothing is assumed about them.

Stand-in reader semantics:
- `SelectEF` succeeds exactly when the card holds the EF. Otherwise it reports
  `SelectFailed(ef)` and leaves the selection alone.
- `ReadBinary(n)` returns as many of the first `n` bytes of the selected data
  file as it holds. With no data file selected it returns nothing.
- `LookupPin` returns the selected PIN file's counter, or -1 when the
  selection has no counter.
- `Verify` works as follows:
  - on a blocked slot it reports `PinBlocked`;
  - a correct PIN restores the slot's limit;
  - a wrong PIN costs one try and reports `WrongPin(k)`, or `PinBlocked` when
    `k` reaches 0.

Two behaviours of the source are kept as written:
- `ReadCertificate` decodes under the outer tag application 33 (line 157).
  The struct's only field carries application 78 (line 29); both constants
  are in `text_ap.dfy`.
- `ReadMyNumber` decodes whatever its 17-byte read returned, with no length
  check (line 96), unlike the other fixed-length readers.
  `ReadAttributes` likewise has no length check on its second read
  (line 121).

## Model

| member | source | states |
|---|---|---|
| TextAp.TextAP.LookupPin | libmyna/text_ap.go:37-44 | Selects EF 0011 before any other call. If the select fails, only the select was issued, the card is unchanged, and the result is (0, the select's error). Otherwise exactly one retry-count query follows, and its count is returned with a nil error. |
| TextAp.TextAP.VerifyPin | libmyna/text_ap.go:46-53 | Selects EF 0011 before any other call. A failed select is returned unchanged and nothing else is issued. Otherwise exactly one VERIFY follows, and its result is returned as it is. The new retry counter is stated. |
| TextAp.TextAP.LookupPinA | libmyna/text_ap.go:55-62 | As LookupPin, on EF 0014. |
| TextAp.TextAP.VerifyPinA | libmyna/text_ap.go:64-71 | As VerifyPin, on EF 0014. |
| TextAp.TextAP.LookupPinB | libmyna/text_ap.go:73-80 | As LookupPin, on EF 0015. |
| TextAp.TextAP.VerifyPinB | libmyna/text_ap.go:82-89 | As VerifyPin, on EF 0015. |
| TextAp.TextAP.ReadMyNumber | libmyna/text_ap.go:91-103 | Selects EF 0001. A failed select returns ("", that error) and issues nothing else. Otherwise it issues one 17-byte read and decodes its bytes, whatever their length, under private tag 16. A decode error returns ("", that error); success returns the payload bytes as a string with a nil error. |
| TextAp.TextAP.ReadAttributes | libmyna/text_ap.go:105-128 | Selects EF 0002, then reads 7 bytes. A prefix of another length is an error, with no parse and no second read. The prefix goes to the partial parser, and a parse error is returned before the second read. Otherwise exactly one more read of the parsed size follows. Only that read's bytes are decoded, under private tag 32, and the decode's result is returned. |
| TextAp.TextAP.ReadSignature | libmyna/text_ap.go:130-145 | Selects EF 0003 and reads exactly 336 bytes. Any other length returns the read error and no decode is logged. Otherwise the bytes are decoded once under private tag 48 and that result is returned. |
| TextAp.TextAP.ReadCertificate | libmyna/text_ap.go:147-162 | Selects EF 0004 and reads exactly 568 bytes. Any other length returns the read error without a decode. Otherwise the bytes are decoded under application tag 33, as written. |
| TextAp.TextAP.ReadBasicInfo | libmyna/text_ap.go:164-186 | Selects EF 0005 and reads exactly 256 bytes. Any other length returns the read error without a decode. Otherwise the bytes are decoded under private tag 64; a decode error is returned as it is, and a decoded record then goes through CheckBasicInfo. |
| TextAp.CheckBasicInfo | libmyna/text_ap.go:179-185 | Succeeds, returning the record unchanged, exactly when APInfo is 4 bytes and KeyID is 16. APInfo is checked first, so a record wrong in both reports the APInfo error. |
| TextAp.BytesToString | libmyna/text_ap.go:102 | The number string has one character per payload byte, with the same value. |
| TextAp.TextAttrs.SexString | libmyna/text_ap.go:194-209 | Total over five labels. Exactly the strings Atoi rejects give "エラー". Codes parsing as 1, 2 and 9 give "男性", "女性" and "適用不能". Every other integer gives "不明". |
| TextAp.SexStringPaddedCode | libmyna/text_ap.go:195-207 | A code within Go's int range, written with leading zeros after an optional '+', gets the label of its value, so "01" and "+001" give "男性". |
| TextAp.SexStringNegativeCode | libmyna/text_ap.go:195-207 | A code after '-' ("-1", "-0", "-09") gives "不明" when its negation is within Go's int range (down to -9223372036854775808), and "エラー" below that. |
| TextAp.SexStringNonNumeric | libmyna/text_ap.go:195-198 | A code with a non-digit after the optional sign gives "エラー". |
| TextAp.SexStringOutOfRange | libmyna/text_ap.go:195-198 | A value too large for a 64-bit int, with any leading zeros after an optional '+', gives "エラー", not "不明". |
| TextAp.TextAttrs.HeaderString | libmyna/text_ap.go:189-191 | The empty header gives "", and n ≥ 1 bytes give 3n-1 characters. The header can be parsed back from the text. |
| Fmt.HexByte | libmyna/text_ap.go:190 | One byte of the `% X` rendering: two upper-case hex digits, which read back as the high and the low nibble of the byte. |
| Fmt.SpacedHex | libmyna/text_ap.go:190 | The `% X` rendering has length 0 for no bytes and 3n-1 for n ≥ 1 bytes. |
| Fmt.SpacedHexAt | libmyna/text_ap.go:190 | Byte i appears as its high then low nibble in upper-case hex at positions 3i and 3i+1. A single space follows every byte but the last. |
| Fmt.ParseSpacedHexRoundTrip | libmyna/text_ap.go:190 | Parsing the rendering gives back exactly the header bytes. |
| Fmt.SpacedHexInjective | libmyna/text_ap.go:190 | Two headers with the same rendering are equal. |
| Strconv.Atoi | libmyna/text_ap.go:195 | Go's `strconv.Atoi` on a 64-bit platform. A result means the string is an optional sign followed by digits only, and the value lies in [MinInt, MaxInt] with the digits' value as magnitude and the sign's direction. Conversely every such string whose magnitude fits the range for its sign parses; anything else is `None`. |
| Strconv.AtoiItoa | libmyna/text_ap.go:195 | Every 64-bit int formatted in decimal parses back to itself. |
| Strconv.AtoiLeadingZeros | libmyna/text_ap.go:195 | Atoi ignores any number of leading zeros after an optional sign. |
| Strconv.AtoiDecimal | libmyna/text_ap.go:195 | A canonical decimal after an optional '+' parses as itself exactly when it is at most MaxInt. |
| Strconv.AtoiNegativeDecimal | libmyna/text_ap.go:195 | A canonical decimal after '-' parses as its negation exactly when that is at least MinInt. |
| Strconv.AtoiPaddedNonNegative | libmyna/text_ap.go:195 | With any number of leading zeros after an optional '+', a value parses as itself when it is at most MaxInt and fails otherwise. |
| Strconv.AtoiPaddedNegative | libmyna/text_ap.go:195 | With any number of leading zeros after '-', a value parses as its negation when that is at least MinInt and fails otherwise. |
| Strconv.AtoiRejectsNonDigit | libmyna/text_ap.go:195-198 | Atoi fails on a string with a non-digit after the optional sign. |
| Strconv.DecimalString | libmyna/text_ap.go:195 | The canonical decimal form of n is a non-empty digit run whose value is n, with no leading zero unless n is 0. |
| CardReader.Reader.SelectEF | libmyna/text_ap.go:38 | Stand-in for the reader's SELECT FILE. It succeeds exactly when the card holds the EF; otherwise it reports SelectFailed and keeps the old selection. The call is logged with its result. |
| CardReader.Reader.ReadBinary | libmyna/text_ap.go:96 | Stand-in for READ BINARY. It returns as many of the first n bytes of the selected data file as it holds, and logs the call with the data. |
| CardReader.Reader.LookupPin | libmyna/text_ap.go:42 | Stand-in for the retry-count query. It returns the selected slot's counter (-1 without one), logs it, and changes no counter. |
| CardReader.Reader.Verify | libmyna/text_ap.go:51 | Stand-in for VERIFY. Only the selected slot changes, as VerifyOutcome and AfterVerify say. Without a selected slot it reports CardError. The call is logged with its result. |
| CardReader.VerifyOutcome | libmyna/text_ap.go:51 | VERIFY succeeds exactly on an unblocked slot with the right PIN, and then restores the limit. A failure reports PinBlocked exactly when no tries remain afterwards, and otherwise WrongPin with the remaining count. |

## Left out

- The Go code of `Reader` is not part of this model. That covers APDU
  encoding, chunked READ BINARY, status-word decoding and the transport. Its
  four calls are stand-ins over abstract card state.
- The card's security status is not modelled: a read that needs a verified
  PIN first is not refused. No `TextAP` contract depends on it.
- Decoding internals are not modelled. The `asn1` package's
  `UnmarshalWithParams` and `ASN1PartialParser`'s `Parse`/`GetSize` are
  function values with no assumed behaviour. `Parse` followed by `GetSize` is
  one function returning a size or an error. The field-tag tables are
  recorded as constants but not interpreted.
- CardReader.Reader.ReadBinary: the integer width of the size argument is
  not modelled, because the reader's code is not part of this model. A parsed
  size beyond that width is passed through unchanged.
- TextAp.BytesToString: each byte becomes the character of the same value.
  This is exact for the ASCII digits the card stores; other bytes are not
  decoded as UTF-8 the way a Go string would be.
- Go's error messages are variants of `Error`, not text.
- `cmd/pin.go` as a whole is left out: command wiring, masked prompts,
  printing and exit codes. So are the `GetPinStatus` and `Change*Pin` calls
  it makes, whose code is not part of this model. Changing a PIN is therefore
  not modelled.
- `fmt` and `strconv` are modelled only as far as `% X` on a byte slice and
  `Atoi` on a 64-bit platform.
