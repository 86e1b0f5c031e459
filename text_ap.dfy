/** The text application of the My Number card: the records it stores, the
    PIN lookups and verifications on its three input-helper PIN files, and
    the readers that select an EF, read it and decode its BER-TLV record. */
module TextAp {
  import opened Types
  import opened CardReader
  import Strconv
  import Fmt

  /** ASN.1 tag classes (ITU-T X.690 section 8.1.2.2). */
  datatype TagClass = Universal | Application | ContextSpecific | Private

  /** The `asn1:"<class>,tag:<n>"` parameters handed to the decoder. */
  datatype Params = Params(cls: TagClass, tag: nat)

  // The elementary files of the text application.
  const HelperPinEF: EfId := "0011"    // card-info input-helper PIN
  const HelperPinAEF: EfId := "0014"   // input-helper PIN A
  const HelperPinBEF: EfId := "0015"   // input-helper PIN B
  const MyNumberEF: EfId := "0001"
  const AttributesEF: EfId := "0002"
  const SignatureEF: EfId := "0003"
  const CertificateEF: EfId := "0004"
  const BasicInfoEF: EfId := "0005"

  // The byte counts requested from the card.
  const MyNumberSize: nat := 17
  const AttributesPrefixSize: nat := 7
  const SignatureSize: nat := 336
  const CertificateSize: nat := 568
  const BasicInfoSize: nat := 256

  // The fixed sizes checked on the basic-info record.
  const APInfoSize: nat := 4
  const KeyIDSize: nat := 16

  // The outer tags each record is decoded under.
  const MyNumberParams := Params(Private, 16)
  const AttributesParams := Params(Private, 32)
  const SignatureParams := Params(Private, 48)
  const CertificateParams := Params(Application, 33)
  const BasicInfoParams := Params(Private, 64)

  // The field tags of each record, in field order, as its struct declares them.
  const AttributesFields := [Params(Private, 33), Params(Private, 34), Params(Private, 35), Params(Private, 36), Params(Private, 37)]
  const SignatureFields := [Params(Private, 49), Params(Private, 50), Params(Private, 51)]
  const CertificateFields := [Params(Application, 78)]
  const BasicInfoFields := [Params(Private, 65), Params(Private, 66)]

  /** The personal-attributes record: header, name, address, birth date, sex. */
  datatype TextAttrs = TextAttrs(header: seq<byte>, name: string, address: string, birth: string, sex: string)
  {
    /** The header as upper-case hex, one space between bytes. */
    function HeaderString(): (s: string)
      ensures |s| == if header == [] then 0 else 3 * |header| - 1
      ensures Fmt.ParseSpacedHex(s) == Some(header)
    {
      Fmt.ParseSpacedHexRoundTrip(header);
      Fmt.SpacedHex(header)
    }

    /** The ISO/IEC 5218 sex code as a Japanese label; a code that does not
        parse as an integer gives the error label. */
    function SexString(): (r: string)
      ensures r == "エラー" <==> Strconv.Atoi(sex) == None
      ensures r == "男性" <==> Strconv.Atoi(sex) == Some(1)
      ensures r == "女性" <==> Strconv.Atoi(sex) == Some(2)
      ensures r == "適用不能" <==> Strconv.Atoi(sex) == Some(9)
      ensures r == "不明" <==> Strconv.Atoi(sex).Some? && Strconv.Atoi(sex).value !in {1, 2, 9}
    {
      match Strconv.Atoi(sex)
      case None => "エラー"
      case Some(n) =>
        if n == 1 then "男性"
        else if n == 2 then "女性"
        else if n == 9 then "適用不能"
        else "不明"
    }
  }

  /** A non-negative code within Go's `int` range, written with any number
      of leading zeros after an optional '+', gets the label of its value:
      "1", "01" and "+001" all give the male label. */
  lemma SexStringPaddedCode(attrs: TextAttrs, sign: string, k: nat, code: nat)
    requires sign == "" || sign == "+"
    requires code <= Strconv.MaxInt
    requires attrs.sex == sign + Strconv.Zeros(k) + Strconv.DecimalString(code)
    ensures code == 1 ==> attrs.SexString() == "男性"
    ensures code == 2 ==> attrs.SexString() == "女性"
    ensures code == 9 ==> attrs.SexString() == "適用不能"
    ensures code !in {1, 2, 9} ==> attrs.SexString() == "不明"
  {
    Strconv.AtoiPaddedNonNegative(sign, k, code);
  }

  /** A code after a minus sign is never a known code: "-1", "-0" and
      "-09" give the unknown label, as does every negative value down to
      Go's smallest `int`; a value below that is a parse error. */
  lemma SexStringNegativeCode(attrs: TextAttrs, k: nat, code: nat)
    requires attrs.sex == "-" + Strconv.Zeros(k) + Strconv.DecimalString(code)
    ensures code <= -Strconv.MinInt ==> attrs.SexString() == "不明"
    ensures code > -Strconv.MinInt ==> attrs.SexString() == "エラー"
  {
    Strconv.AtoiPaddedNegative(k, code);
  }

  /** A code with a character other than a digit after the optional sign
      gives the error label. */
  lemma SexStringNonNumeric(attrs: TextAttrs, i: nat)
    requires i < |attrs.sex| && !Strconv.IsDigit(attrs.sex[i])
    requires i == 0 ==> attrs.sex[0] != '+' && attrs.sex[0] != '-'
    ensures attrs.SexString() == "エラー"
  {
    Strconv.AtoiRejectsNonDigit(attrs.sex, i);
  }

  /** A code too large for Go's 64-bit `int`, however it is padded, is a
      parse error, not an unknown code. */
  lemma SexStringOutOfRange(attrs: TextAttrs, sign: string, k: nat, code: nat)
    requires sign == "" || sign == "+"
    requires code > Strconv.MaxInt
    requires attrs.sex == sign + Strconv.Zeros(k) + Strconv.DecimalString(code)
    ensures attrs.SexString() == "エラー"
  {
    Strconv.AtoiPaddedNonNegative(sign, k, code);
  }

  /** The signature record: digests of the number and of the attributes, and
      the signature over them. */
  datatype TextSignature = TextSignature(myNumDigest: seq<byte>, attrsDigest: seq<byte>, signature: seq<byte>)

  /** The certificate record, kept as raw bytes. */
  datatype TextCertificate = TextCertificate(raw: seq<byte>)

  /** The basic-info record: AP info and key identifier. */
  datatype TextBasicInfo = TextBasicInfo(apInfo: seq<byte>, keyID: seq<byte>)

  /** An undecoded TLV value; only its content octets are used. */
  datatype RawValue = RawValue(bytes: seq<byte>)

  /** The decoding library, supplied from outside and left uninterpreted:
      one unmarshal per target type, and the partial parser that reports
      the total size of a record from a prefix of it. */
  datatype Asn1Library = Asn1Library(
    unmarshalRaw: (seq<byte>, Params) -> Result<RawValue>,
    unmarshalAttrs: (seq<byte>, Params) -> Result<TextAttrs>,
    unmarshalSignature: (seq<byte>, Params) -> Result<TextSignature>,
    unmarshalCertificate: (seq<byte>, Params) -> Result<TextCertificate>,
    unmarshalBasicInfo: (seq<byte>, Params) -> Result<TextBasicInfo>,
    partialParse: seq<byte> -> Result<nat>)

  /** One call into the decoding library. */
  datatype DecodeCall = Unmarshal(data: seq<byte>, params: Params) | PartialParse(data: seq<byte>)

  /** Go's `string(b)` on the digits of the personal number: one character per byte. */
  function BytesToString(bs: seq<byte>): (s: string)
    ensures |s| == |bs| && forall i :: 0 <= i < |bs| ==> s[i] as int == bs[i]
  {
    seq(|bs|, i requires 0 <= i < |bs| => bs[i] as char)
  }

  /** The checks on a decoded basic-info record, APInfo first. */
  function CheckBasicInfo(info: TextBasicInfo): (r: Result<TextBasicInfo>)
    ensures r.Ok? <==> |info.apInfo| == APInfoSize && |info.keyID| == KeyIDSize
    ensures r.Ok? ==> r.value == info
    ensures |info.apInfo| != APInfoSize ==> r == Err(InvalidAPInfoLength)
    ensures |info.apInfo| == APInfoSize && |info.keyID| != KeyIDSize ==> r == Err(InvalidKeyIDLength)
  {
    if |info.apInfo| != APInfoSize then Err(InvalidAPInfoLength)
    else if |info.keyID| != KeyIDSize then Err(InvalidKeyIDLength)
    else Ok(info)
  }

  class TextAP {
    /** The shared session, referenced, not owned. */
    const reader: Reader
    const asn1: Asn1Library
    /** Every call this application made into the decoding library, in order. */
    ghost var decodes: seq<DecodeCall>

    constructor (reader: Reader, asn1: Asn1Library)
      ensures this.reader == reader && this.asn1 == asn1 && decodes == []
    {
      this.reader := reader;
      this.asn1 := asn1;
      decodes := [];
    }

    /** SELECT FILE of `ef` failed: the call is the only one issued, and the
        card is as it was. */
    twostate predicate SelectRefused(ef: EfId)
      reads reader
    {
      && !old(reader.Has(ef))
      && reader.selected == old(reader.selected)
      && reader.slots == old(reader.slots)
      && reader.trace == old(reader.trace) + [CallSelectEF(ef, Some(SelectFailed(ef)))]
    }

    /** SELECT FILE of `ef` succeeded and was followed by exactly `calls`. */
    twostate predicate SelectedThen(ef: EfId, calls: seq<ReaderCall>)
      reads reader
    {
      && old(reader.Has(ef))
      && reader.selected == Some(ef)
      && reader.trace == old(reader.trace) + [CallSelectEF(ef, None)] + calls
    }

    /** The lookup pattern: select `ef`, then query its retry counter, which
        is returned with a nil error. */
    twostate predicate PinLookedUp(ef: EfId, count: int, new err: Option<Error>)
      reads reader
    {
      && reader.slots == old(reader.slots)
      && if old(reader.Has(ef)) then
           && SelectedThen(ef, [CallLookupPin(count)])
           && count == reader.Counter(ef) && err == None
         else
           SelectRefused(ef) && count == 0 && err == Some(SelectFailed(ef))
    }

    /** The verify pattern: select `ef`, then VERIFY, whose result is
        returned as it is. */
    twostate predicate PinVerified(ef: EfId, pin: string, new err: Option<Error>)
      reads reader
    {
      if old(reader.Has(ef)) then
        && SelectedThen(ef, [CallVerify(pin, err)])
        && if ef in old(reader.slots) then
             && err == VerifyOutcome(old(reader.slots)[ef], pin)
             && reader.slots == old(reader.slots)[ef := AfterVerify(old(reader.slots)[ef], pin)]
           else
             err == Some(CardError) && reader.slots == old(reader.slots)
      else
        SelectRefused(ef) && err == Some(SelectFailed(ef))
    }

    method LookupPin() returns (count: int, err: Option<Error>)
      modifies reader
      ensures PinLookedUp(HelperPinEF, count, err)
    {
      err := reader.SelectEF(HelperPinEF);
      if err != None {
        return 0, err;
      }
      count := reader.LookupPin();
      return count, None;
    }

    method VerifyPin(pin: string) returns (err: Option<Error>)
      modifies reader
      ensures PinVerified(HelperPinEF, pin, err)
    {
      err := reader.SelectEF(HelperPinEF);
      if err != None {
        return err;
      }
      err := reader.Verify(pin);
    }

    method LookupPinA() returns (count: int, err: Option<Error>)
      modifies reader
      ensures PinLookedUp(HelperPinAEF, count, err)
    {
      err := reader.SelectEF(HelperPinAEF);
      if err != None {
        return 0, err;
      }
      count := reader.LookupPin();
      return count, None;
    }

    method VerifyPinA(pin: string) returns (err: Option<Error>)
      modifies reader
      ensures PinVerified(HelperPinAEF, pin, err)
    {
      err := reader.SelectEF(HelperPinAEF);
      if err != None {
        return err;
      }
      err := reader.Verify(pin);
    }

    method LookupPinB() returns (count: int, err: Option<Error>)
      modifies reader
      ensures PinLookedUp(HelperPinBEF, count, err)
    {
      err := reader.SelectEF(HelperPinBEF);
      if err != None {
        return 0, err;
      }
      count := reader.LookupPin();
      return count, None;
    }

    method VerifyPinB(pin: string) returns (err: Option<Error>)
      modifies reader
      ensures PinVerified(HelperPinBEF, pin, err)
    {
      err := reader.SelectEF(HelperPinBEF);
      if err != None {
        return err;
      }
      err := reader.Verify(pin);
    }

    /** Reads 17 bytes and decodes whatever came back: there is no length
        check before the decode. */
    method ReadMyNumber() returns (number: string, err: Option<Error>)
      modifies reader, this`decodes
      ensures reader.slots == old(reader.slots)
      ensures !old(reader.Has(MyNumberEF)) ==>
        && SelectRefused(MyNumberEF) && decodes == old(decodes)
        && number == "" && err == Some(SelectFailed(MyNumberEF))
      ensures old(reader.Has(MyNumberEF)) ==>
        var data := reader.Read(MyNumberEF, MyNumberSize);
        var decoded := asn1.unmarshalRaw(data, MyNumberParams);
        && SelectedThen(MyNumberEF, [CallReadBinary(MyNumberSize, data)])
        && decodes == old(decodes) + [Unmarshal(data, MyNumberParams)]
        && (decoded.Err? ==> number == "" && err == Some(decoded.error))
        && (decoded.Ok? ==> number == BytesToString(decoded.value.bytes) && err == None)
    {
      err := reader.SelectEF(MyNumberEF);
      if err != None {
        return "", err;
      }
      var data := reader.ReadBinary(MyNumberSize);
      decodes := decodes + [Unmarshal(data, MyNumberParams)];
      var decoded := asn1.unmarshalRaw(data, MyNumberParams);
      if decoded.Err? {
        return "", Some(decoded.error);
      }
      return BytesToString(decoded.value.bytes), None;
    }

    /** Reads a 7-byte prefix, learns the record's total size from the
        partial parser, then reads and decodes the whole record. */
    method ReadAttributes() returns (r: Result<TextAttrs>)
      modifies reader, this`decodes
      ensures reader.slots == old(reader.slots)
      ensures !old(reader.Has(AttributesEF)) ==>
        SelectRefused(AttributesEF) && decodes == old(decodes) && r == Err(SelectFailed(AttributesEF))
      ensures old(reader.Has(AttributesEF)) && |reader.Read(AttributesEF, AttributesPrefixSize)| != AttributesPrefixSize ==>
        var prefix := reader.Read(AttributesEF, AttributesPrefixSize);
        && SelectedThen(AttributesEF, [CallReadBinary(AttributesPrefixSize, prefix)])
        && decodes == old(decodes) && r == Err(ReadBinaryError)
      ensures old(reader.Has(AttributesEF)) && |reader.Read(AttributesEF, AttributesPrefixSize)| == AttributesPrefixSize ==>
        var prefix := reader.Read(AttributesEF, AttributesPrefixSize);
        var parsed := asn1.partialParse(prefix);
        if parsed.Err? then
          && SelectedThen(AttributesEF, [CallReadBinary(AttributesPrefixSize, prefix)])
          && decodes == old(decodes) + [PartialParse(prefix)] && r == Err(parsed.error)
        else
          var data := reader.Read(AttributesEF, parsed.value);
          && SelectedThen(AttributesEF, [CallReadBinary(AttributesPrefixSize, prefix), CallReadBinary(parsed.value, data)])
          && decodes == old(decodes) + [PartialParse(prefix), Unmarshal(data, AttributesParams)]
          && r == asn1.unmarshalAttrs(data, AttributesParams)
    {
      var err := reader.SelectEF(AttributesEF);
      if err != None {
        return Err(err.value);
      }
      var data := reader.ReadBinary(AttributesPrefixSize);
      if |data| != AttributesPrefixSize {
        return Err(ReadBinaryError);
      }
      decodes := decodes + [PartialParse(data)];
      var parsed := asn1.partialParse(data);
      if parsed.Err? {
        return Err(parsed.error);
      }
      data := reader.ReadBinary(parsed.value);
      decodes := decodes + [Unmarshal(data, AttributesParams)];
      r := asn1.unmarshalAttrs(data, AttributesParams);
    }

    method ReadSignature() returns (r: Result<TextSignature>)
      modifies reader, this`decodes
      ensures reader.slots == old(reader.slots)
      ensures !old(reader.Has(SignatureEF)) ==>
        SelectRefused(SignatureEF) && decodes == old(decodes) && r == Err(SelectFailed(SignatureEF))
      ensures old(reader.Has(SignatureEF)) ==>
        var data := reader.Read(SignatureEF, SignatureSize);
        && SelectedThen(SignatureEF, [CallReadBinary(SignatureSize, data)])
        && (|data| != SignatureSize ==> decodes == old(decodes) && r == Err(ReadBinaryError))
        && (|data| == SignatureSize ==>
              && decodes == old(decodes) + [Unmarshal(data, SignatureParams)]
              && r == asn1.unmarshalSignature(data, SignatureParams))
    {
      var err := reader.SelectEF(SignatureEF);
      if err != None {
        return Err(err.value);
      }
      var data := reader.ReadBinary(SignatureSize);
      if |data| != SignatureSize {
        return Err(ReadBinaryError);
      }
      decodes := decodes + [Unmarshal(data, SignatureParams)];
      r := asn1.unmarshalSignature(data, SignatureParams);
    }

    /** Decodes under the outer tag application 33, as written. */
    method ReadCertificate() returns (r: Result<TextCertificate>)
      modifies reader, this`decodes
      ensures reader.slots == old(reader.slots)
      ensures !old(reader.Has(CertificateEF)) ==>
        SelectRefused(CertificateEF) && decodes == old(decodes) && r == Err(SelectFailed(CertificateEF))
      ensures old(reader.Has(CertificateEF)) ==>
        var data := reader.Read(CertificateEF, CertificateSize);
        && SelectedThen(CertificateEF, [CallReadBinary(CertificateSize, data)])
        && (|data| != CertificateSize ==> decodes == old(decodes) && r == Err(ReadBinaryError))
        && (|data| == CertificateSize ==>
              && decodes == old(decodes) + [Unmarshal(data, CertificateParams)]
              && r == asn1.unmarshalCertificate(data, CertificateParams))
    {
      var err := reader.SelectEF(CertificateEF);
      if err != None {
        return Err(err.value);
      }
      var data := reader.ReadBinary(CertificateSize);
      if |data| != CertificateSize {
        return Err(ReadBinaryError);
      }
      decodes := decodes + [Unmarshal(data, CertificateParams)];
      r := asn1.unmarshalCertificate(data, CertificateParams);
    }

    /** Succeeds only with a decoded record whose APInfo is 4 bytes and whose
        KeyID is 16 bytes. */
    method ReadBasicInfo() returns (r: Result<TextBasicInfo>)
      modifies reader, this`decodes
      ensures reader.slots == old(reader.slots)
      ensures !old(reader.Has(BasicInfoEF)) ==>
        SelectRefused(BasicInfoEF) && decodes == old(decodes) && r == Err(SelectFailed(BasicInfoEF))
      ensures old(reader.Has(BasicInfoEF)) ==>
        var data := reader.Read(BasicInfoEF, BasicInfoSize);
        var decoded := asn1.unmarshalBasicInfo(data, BasicInfoParams);
        && SelectedThen(BasicInfoEF, [CallReadBinary(BasicInfoSize, data)])
        && (|data| != BasicInfoSize ==> decodes == old(decodes) && r == Err(ReadBinaryError))
        && (|data| == BasicInfoSize ==>
              && decodes == old(decodes) + [Unmarshal(data, BasicInfoParams)]
              && (decoded.Err? ==> r == Err(decoded.error))
              && (decoded.Ok? ==> r == CheckBasicInfo(decoded.value)))
    {
      var err := reader.SelectEF(BasicInfoEF);
      if err != None {
        return Err(err.value);
      }
      var data := reader.ReadBinary(BasicInfoSize);
      if |data| != BasicInfoSize {
        return Err(ReadBinaryError);
      }
      decodes := decodes + [Unmarshal(data, BasicInfoParams)];
      var decoded := asn1.unmarshalBasicInfo(data, BasicInfoParams);
      if decoded.Err? {
        return Err(decoded.error);
      }
      return CheckBasicInfo(decoded.value);
    }
  }
}
