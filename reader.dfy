/** The card session the text application drives: an abstract card with a
    current selection, data files, retry-counted PIN files, and a ghost log of
    every call issued to the reader together with what it returned. The APDU
    transport and status-word decoding underneath are not modelled. */
module CardReader {
  import opened Types

  /** An elementary file identifier, written in hex as the source does ("0011"). */
  type EfId = string

  /** A retry-counted PIN file: the reference PIN stored on the card, the
      tries left, and the count a correct PIN restores. */
  datatype PinSlot = PinSlot(reference: string, remaining: nat, limit: nat)

  /** One call issued to the reader, with its result. */
  datatype ReaderCall =
    | CallSelectEF(ef: EfId, err: Option<Error>)
    | CallReadBinary(size: nat, data: seq<byte>)
    | CallLookupPin(count: int)
    | CallVerify(pin: string, err: Option<Error>)

  /** The bytes READ BINARY returns from a file: as many of the first `size`
      bytes as the file holds. */
  function Take(content: seq<byte>, size: nat): (r: seq<byte>)
    ensures |r| == if size <= |content| then size else |content|
    ensures r <= content
  {
    if size <= |content| then content[..size] else content
  }

  /** What VERIFY reports against a slot. */
  function VerifyOutcome(slot: PinSlot, pin: string): (err: Option<Error>)
    ensures err == None <==> slot.remaining > 0 && pin == slot.reference
    ensures err == None ==> AfterVerify(slot, pin).remaining == slot.limit
    ensures err != None ==> err == Some(PinBlocked) || err == Some(WrongPin(AfterVerify(slot, pin).remaining))
    ensures err == Some(PinBlocked) <==> AfterVerify(slot, pin).remaining == 0 && err != None
    ensures err != None ==> AfterVerify(slot, pin).remaining == if slot.remaining == 0 then 0 else slot.remaining - 1
  {
    if slot.remaining == 0 then Some(PinBlocked)
    else if pin == slot.reference then None
    else if slot.remaining == 1 then Some(PinBlocked)
    else Some(WrongPin(slot.remaining - 1))
  }

  /** The slot after VERIFY: a blocked slot stays blocked, a correct PIN
      restores the limit, a wrong one costs a try. */
  function AfterVerify(slot: PinSlot, pin: string): PinSlot
  {
    if slot.remaining == 0 then slot
    else if pin == slot.reference then slot.(remaining := slot.limit)
    else slot.(remaining := slot.remaining - 1)
  }

  class Reader {
    /** Contents of the card's data files; this system never writes them. */
    const files: map<EfId, seq<byte>>
    /** The card's PIN files and their retry counters. */
    var slots: map<EfId, PinSlot>
    /** The card's current selection, session state kept on the card. */
    var selected: Option<EfId>
    /** Every call issued to this reader, in order, with its result. */
    ghost var trace: seq<ReaderCall>

    constructor (files: map<EfId, seq<byte>>, slots: map<EfId, PinSlot>)
      ensures this.files == files && this.slots == slots
      ensures selected == None && trace == []
    {
      this.files := files;
      this.slots := slots;
      selected := None;
      trace := [];
    }

    /** The card holds an EF with this identifier. */
    predicate Has(ef: EfId)
      reads this
    {
      ef in files || ef in slots
    }

    /** What READ BINARY of `size` bytes returns while `ef` is selected. */
    function Read(ef: EfId, size: nat): (data: seq<byte>)
      ensures ef in files ==> data <= files[ef] && |data| <= size
      ensures ef !in files ==> data == []
    {
      if ef in files then Take(files[ef], size) else []
    }

    /** What the retry-count query reports while `ef` is selected. */
    function Counter(ef: EfId): int
      reads this
    {
      if ef in slots then slots[ef].remaining else -1
    }

    method SelectEF(ef: EfId) returns (err: Option<Error>)
      modifies this`selected, this`trace
      ensures err == if Has(ef) then None else Some(SelectFailed(ef))
      ensures selected == if Has(ef) then Some(ef) else old(selected)
      ensures trace == old(trace) + [CallSelectEF(ef, err)]
    {
      if Has(ef) {
        selected := Some(ef);
        err := None;
      } else {
        err := Some(SelectFailed(ef));
      }
      trace := trace + [CallSelectEF(ef, err)];
    }

    method ReadBinary(size: nat) returns (data: seq<byte>)
      modifies this`trace
      ensures data == if selected.Some? then Read(selected.value, size) else []
      ensures trace == old(trace) + [CallReadBinary(size, data)]
    {
      data := if selected.Some? then Read(selected.value, size) else [];
      trace := trace + [CallReadBinary(size, data)];
    }

    method LookupPin() returns (count: int)
      modifies this`trace
      ensures count == if selected.Some? then Counter(selected.value) else -1
      ensures trace == old(trace) + [CallLookupPin(count)]
    {
      count := if selected.Some? then Counter(selected.value) else -1;
      trace := trace + [CallLookupPin(count)];
    }

    method Verify(pin: string) returns (err: Option<Error>)
      modifies this`slots, this`trace
      ensures selected.Some? && selected.value in old(slots) ==>
        var ef := selected.value;
        && err == VerifyOutcome(old(slots)[ef], pin)
        && slots == old(slots)[ef := AfterVerify(old(slots)[ef], pin)]
      ensures !(selected.Some? && selected.value in old(slots)) ==>
        err == Some(CardError) && slots == old(slots)
      ensures trace == old(trace) + [CallVerify(pin, err)]
    {
      if selected.Some? && selected.value in slots {
        var ef := selected.value;
        err := VerifyOutcome(slots[ef], pin);
        slots := slots[ef := AfterVerify(slots[ef], pin)];
      } else {
        err := Some(CardError);
      }
      trace := trace + [CallVerify(pin, err)];
    }
  }
}
