/**
 The strict asset-packet decoder, and the independently written renewal encoder. The decoder accepts exactly
 the encodings of well-formed packets, so a packet it accepts has one meaning.
*/
module AssetPacket {
  import opened Common
  import opened PacketGrammar
  import SseFraming

  // ----- the cursor -----

  datatype PacketError =
    | Truncated | Oversized | NotMinimal | CountTooLarge | NotText | Trailing
    | TooManyGroups | UnknownPresence | RepeatedAsset | BadControl | BadInput | BadOutput | ZeroAmount

  /** A last byte below 128 ends the number whose continued bytes lie before it. */
  lemma NumberEnds(b: Bytes, start: nat, off: nat)
    requires start <= off < |b| && AllContinued(b, start, off) && b[off] < CONTINUED
    ensures b[off] > 0 || start == off ==>
              var v := Continued(b, start, off) + b[off] * Pow128(off - start);
              At(b, start, Uvarint(v)) && |Uvarint(v)| == off + 1 - start
    ensures b[off] == 0 && start < off ==> forall v :: !At(b, start, Uvarint(v))
  {
    UvarintAt(b, off, b[off]);
    ContinuedNumber(b, start, off, b[off]);
    if b[off] == 0 && start < off {
      forall v ensures !At(b, start, Uvarint(v)) {
        if At(b, start, Uvarint(v)) {
          var high := NumberGoesOn(b, start, off, v);
          UvarintAt(b, off, high);
        }
      }
    }
  }

  /** A number behind continued bytes goes on past them; ten bytes say more than 64 bits unless the last is one. */
  lemma NumberReaches(b: Bytes, start: nat, off: nat, v: nat)
    requires start <= off <= |b| && AllContinued(b, start, off) && At(b, start, Uvarint(v))
    ensures off < |b| && (off == start + 9 && b[off] > 1 ==> v > MAX_U64)
  {
    var high := NumberGoesOn(b, start, off, v);
    UvarintAt(b, off, high);
    Powers();
    if off == start + 9 && b[off] > 1 {
      assert high >= 2;
      assert high * Pow128(9) >= 2 * Pow128(9);
    }
  }

  class Cursor {
    const bytes: Bytes
    var offset: nat

    constructor (bytes: Bytes)
      ensures this.bytes == bytes && offset == 0
    {
      this.bytes, offset := bytes, 0;
    }

    predicate Valid()
      reads this
    {
      offset <= |bytes| <= MAX_U64
    }

    /** The next byte, or nothing at the end. */
    method Byte() returns (r: Result<byte, PacketError>)
      requires Valid()
      modifies this
      ensures Valid()
      ensures r.Err? <==> old(offset) == |bytes|
      ensures r.Ok? ==> offset == old(offset) + 1 && r.value == bytes[old(offset)]
    {
      if offset >= |bytes| { return Err(Truncated); }
      offset := offset + 1;
      return Ok(bytes[offset - 1]);
    }

    /** Exactly the shortest encodings of 64-bit numbers are read; ten continued bytes never occur. */
    method Varint() returns (r: Result<U64, PacketError>)
      requires Valid()
      modifies this
      ensures Valid()
      ensures r.Ok? ==> At(bytes, old(offset), Uvarint(r.value)) && offset == old(offset) + |Uvarint(r.value)|
      ensures r.Err? ==> forall v: U64 :: !At(bytes, old(offset), Uvarint(v))
    {
      hide At, Uvarint, Continued, Pow128;
      var start := offset;
      var value: nat := 0;
      assert Continued(bytes, start, start) == 0 && Pow128(0) == 1 by { NothingContinued(bytes, start); }
      for k := 0 to 10
        invariant k <= 9 && offset == start + k <= |bytes|
        invariant AllContinued(bytes, start, offset) && value == Continued(bytes, start, offset)
      {
        var byte := Byte();
        if byte.Err? || (k == 9 && byte.value > 1) {
          forall v: U64 ensures !At(bytes, start, Uvarint(v)) {
            if At(bytes, start, Uvarint(v)) { NumberReaches(bytes, start, start + k, v); }
          }
          return Err(if byte.Err? then byte.error else Oversized);
        }
        // The bits already read lie below 128^k, so the bitwise or of the source is a sum.
        value := value + byte.value % CONTINUED * Pow128(k);
        if byte.value < CONTINUED {
          NumberEnds(bytes, start, start + k);
          if offset - start > 1 && byte.value == 0 { return Err(NotMinimal); }
          FitsU64(bytes, start, start + k);
          return Ok(value);
        }
        ContinuedStep(bytes, start, offset);
      }
      assert false;
    }

    method U16() returns (r: Result<U16, PacketError>)
      requires Valid()
      modifies this
      ensures Valid()
      ensures r.Ok? ==> At(bytes, old(offset), U16Bytes(r.value)) && offset == old(offset) + 2
      ensures r.Err? ==> forall v: U16 :: !At(bytes, old(offset), U16Bytes(v))
    {
      if offset + 2 > |bytes| { return Err(Truncated); }
      offset := offset + 2;
      assert bytes[offset - 2..offset] == [bytes[offset - 2], bytes[offset - 1]];
      var low: nat, high: nat := bytes[offset - 2], bytes[offset - 1];
      return Ok(low + 256 * high);
    }

    method Hash() returns (r: Result<Digest, PacketError>)
      requires Valid()
      modifies this
      ensures Valid()
      ensures r.Ok? ==> At(bytes, old(offset), r.value) && offset == old(offset) + 32
      ensures r.Err? ==> forall d: Digest :: !At(bytes, old(offset), d)
    {
      if offset + 32 > |bytes| { return Err(Truncated); }
      offset := offset + 32;
      return Ok(bytes[offset - 32..offset]);
    }

    method ReadAssetId() returns (r: Result<AssetId, PacketError>)
      requires Valid()
      modifies this
      ensures Valid()
      ensures r.Ok? ==> At(bytes, old(offset), IdBytes(r.value)) && offset == old(offset) + 34
      ensures r.Err? ==> forall a: AssetId :: !At(bytes, old(offset), IdBytes(a))
    {
      ghost var start := offset;
      forall a: AssetId ensures At(bytes, start, IdBytes(a)) ==> At(bytes, start, Reversed(a.txid)) && At(bytes, start + 32, U16Bytes(a.group)) {
        AtSplit(bytes, start, Reversed(a.txid), U16Bytes(a.group));
      }
      var txid := Hash();
      if txid.Err? { return Err(txid.error); }
      var group := U16();
      if group.Err? { return Err(group.error); }
      ReversedTwice(txid.value);
      r := Ok(AssetId(Reversed(txid.value), group.value));
      AtSplit(bytes, start, txid.value, U16Bytes(group.value));
    }

    /** A count no larger than the bytes left; every list really there passes, as its items take a byte each. */
    method Count() returns (r: Result<nat, PacketError>)
      requires Valid()
      modifies this
      ensures Valid()
      ensures r.Ok? ==> At(bytes, old(offset), Uvarint(r.value)) && offset == old(offset) + |Uvarint(r.value)|
      ensures r.Ok? ==> r.value <= |bytes| - offset
      ensures r.Err? ==> forall n: nat, items: Bytes :: At(bytes, old(offset), Uvarint(n) + items) ==> |items| < n
    {
      hide At, Uvarint;
      ghost var start := offset;
      var count := Varint();
      forall n: nat, items: Bytes | At(bytes, start, Uvarint(n) + items) && |items| >= n
        ensures count.Ok? && count.value == n <= |bytes| - offset
      {
        AtSplit(bytes, start, Uvarint(n), items);
        AtFits(bytes, start + |Uvarint(n)|, items);
        assert At(bytes, start, Uvarint(n)) && n <= MAX_U64;
        UvarintUnique(bytes, start, n, count.value);
      }
      if count.Err? { return Err(count.error); }
      if count.value > |bytes| - offset { return Err(CountTooLarge); }
      return Ok(count.value);
    }

    /** A length-prefixed UTF-8 text, skipped over. */
    method Text() returns (r: Result<(), PacketError>, ghost text: Text)
      requires Valid()
      modifies this
      ensures Valid()
      ensures r.Ok? ==> At(bytes, old(offset), TextBytes(text)) && offset == old(offset) + |TextBytes(text)|
      ensures r.Err? ==> forall t: Text :: !At(bytes, old(offset), TextBytes(t))
    {
      hide At, Uvarint;
      ghost var start := offset;
      text := [];
      var length := Count();
      forall t: Text | At(bytes, start, TextBytes(t))
        ensures length.Ok? && offset + length.value <= |bytes| && t == bytes[offset..offset + length.value]
      {
        TextAt(bytes, start, t);
        UvarintUnique(bytes, start, |t|, length.value);
      }
      if length.Err? { return Err(length.error), text; }
      var body := bytes[offset..offset + length.value];
      if !SseFraming.Scan(body).1.Whole? { return Err(NotText), text; }
      text := body;
      TextHere(bytes, start, text, length.value);
      offset := offset + length.value;
      return Ok(()), text;
    }

    method Metadata() returns (r: Result<(), PacketError>, ghost entries: seq<Entry>)
      requires Valid()
      modifies this
      ensures Valid()
      ensures r.Ok? ==> At(bytes, old(offset), ListBytes(EntryBytes, entries)) && offset == old(offset) + |ListBytes(EntryBytes, entries)|
      ensures r.Err? ==> forall e: seq<Entry> :: !At(bytes, old(offset), ListBytes(EntryBytes, e))
    {
      hide At, Uvarint, ListBytes, EntryBytes;
      ghost var start := offset;
      entries := [];
      var count := Count();
      if count.Err? {
        EntriesPrefixFree();
        NoList(EntryBytes, bytes, start);
        return Err(count.error), entries;
      }
      ListBegins(EntryBytes, bytes, start, count.value);
      for k := 0 to count.value
        invariant Valid() && |entries| == k
        invariant Listing(EntryBytes, bytes, start, count.value, entries, offset)
      {
        ghost var here := offset;
        var item;
        ghost var entry;
        item, entry := ReadEntry();
        if item.Err? {
          forall all: seq<Entry> ensures !At(bytes, start, ListBytes(EntryBytes, all)) {
            EntriesPrefixFree();
            if At(bytes, start, ListBytes(EntryBytes, all)) { ListContinues(EntryBytes, bytes, start, count.value, entries, here, all); }
          }
          return Err(item.error), entries;
        }
        ListGrows(EntryBytes, bytes, start, count.value, entries, here, entry);
        entries := entries + [entry];
      }
      ListEnds(EntryBytes, bytes, start, count.value, entries, offset);
      return Ok(()), entries;
    }

    method ReadEntry() returns (r: Result<(), PacketError>, ghost entry: Entry)
      requires Valid()
      modifies this
      ensures Valid()
      ensures r.Ok? ==> At(bytes, old(offset), EntryBytes(entry)) && offset == old(offset) + |EntryBytes(entry)|
      ensures r.Err? ==> forall e: Entry :: !At(bytes, old(offset), EntryBytes(e))
    {
      hide At, Uvarint, TextBytes;
      ghost var start := offset;
      var first, key := Text();
      forall e: Entry | At(bytes, start, EntryBytes(e))
        ensures first.Ok? && At(bytes, offset, TextBytes(e.value))
      {
        AtSplit(bytes, start, TextBytes(e.key), TextBytes(e.value));
        if first.Ok? { TextUnique(bytes, start, e.key, key); }
      }
      entry := Entry([], []);
      if first.Err? { return first, entry; }
      var second, value := Text();
      if second.Err? { return second, entry; }
      entry := Entry(key, value);
      AtSplit(bytes, start, TextBytes(key), TextBytes(value));
      return Ok(()), entry;
    }
  }

  lemma NothingContinued(b: Bytes, start: nat)
    requires start <= |b|
    ensures Continued(b, start, start) == 0 && Pow128(0) == 1
  {}

  lemma ContinuedStep(b: Bytes, start: nat, off: nat)
    requires start < off <= |b|
    ensures Continued(b, start, off) == Continued(b, start, off - 1) + (b[off - 1] % CONTINUED) * Pow128(off - 1 - start)
  {}

  lemma FitsU64(b: Bytes, start: nat, off: nat)
    requires start <= off < |b| && off <= start + 9 && b[off] < CONTINUED && (off == start + 9 ==> b[off] <= 1)
    ensures Continued(b, start, off) + b[off] * Pow128(off - start) <= MAX_U64
  {
    Powers();
    ContinuedBound(b, start, off);
    if off < start + 9 { DigitFits(Continued(b, start, off), b[off], Pow128(off - start)); }
  }

  // ----- decoding a packet -----

  datatype Asset = Asset(id: AssetId, amount: U64)

  /** What one group's outputs assign at an output. */
  function AssignedIn(id: AssetId, outputs: seq<Output>, index: nat): seq<Asset> {
    if outputs == [] then []
    else
      var last := outputs[|outputs| - 1];
      var before := AssignedIn(id, outputs[..|outputs| - 1], index);
      if last.index == index then before + [Asset(id, last.amount)] else before
  }

  /** What a packet assigns at an output, group by group. */
  function Assigned(groups: seq<Group>, tx: Carrier, index: nat): seq<Asset>
    requires |groups| <= MAX_GROUPS
  {
    if groups == [] then []
    else
      var last := |groups| - 1;
      Assigned(groups[..last], tx, index) + AssignedIn(IdOf(groups[last].header, tx, last), groups[last].outputs, index)
  }

  /** The control reference of a group that announces one. */
  method ReadControl(cursor: Cursor) returns (r: Result<(), PacketError>, ghost control: Control)
    requires cursor.Valid()
    modifies cursor
    ensures cursor.Valid()
    ensures r.Ok? ==> At(cursor.bytes, old(cursor.offset), ControlBytes(control)) && cursor.offset == old(cursor.offset) + |ControlBytes(control)|
    ensures r.Err? ==> forall c: Control :: !At(cursor.bytes, old(cursor.offset), ControlBytes(c))
  {
    hide At, IdBytes, U16Bytes;
    ghost var (b, start) := (cursor.bytes, cursor.offset);
    forall c: Control ensures At(b, start, ControlBytes(c)) ==>
      start < |b| && (if c.ById? then b[start] == 1 && At(b, start + 1, IdBytes(c.asset)) else b[start] == 2 && At(b, start + 1, U16Bytes(c.group)))
    {
      TagAt(b, start, if c.ById? then 1 else 2, if c.ById? then IdBytes(c.asset) else U16Bytes(c.group));
    }
    control := ByGroup(0);
    var kind := cursor.Byte();
    if kind.Err? { return Err(kind.error), control; }
    if kind.value == 1 {
      var id := cursor.ReadAssetId();
      if id.Err? { return Err(id.error), control; }
      control := ById(id.value);
      TagAt(b, start, 1, IdBytes(id.value));
    } else if kind.value == 2 {
      var group := cursor.U16();
      if group.Err? { return Err(group.error), control; }
      control := ByGroup(group.value);
      TagAt(b, start, 2, U16Bytes(group.value));
    } else {
      return Err(BadControl), control;
    }
    return Ok(()), control;
  }

  /** Everything of a group before its inputs; its asset must not have been seen. */
  method ReadHeader(cursor: Cursor, tx: Carrier, position: U16, seen: set<AssetId>)
    returns (r: Result<AssetId, PacketError>, ghost h: Header)
    requires cursor.Valid()
    modifies cursor
    ensures cursor.Valid()
    ensures r.Ok? ==> At(cursor.bytes, old(cursor.offset), HeaderBytes(h)) && cursor.offset == old(cursor.offset) + |HeaderBytes(h)|
    ensures r.Ok? ==> r.value == IdOf(h, tx, position) && r.value !in seen
    ensures r.Err? ==> forall x: Header :: IdOf(x, tx, position) !in seen ==> !At(cursor.bytes, old(cursor.offset), HeaderBytes(x))
  {
    hide At, HeaderBytes, IdBytes, ControlBytes, ListBytes, EntryBytes;
    ghost var (b, start) := (cursor.bytes, cursor.offset);
    h := Header(None, None, None);
    forall x: Header ensures At(b, start, HeaderBytes(x)) ==> HeaderParts(b, start, x) { HeaderAt(b, start, x); }
    var presence := cursor.Byte();
    if presence.Err? { return Err(presence.error), h; }
    if presence.value >= 8 { return Err(UnknownPresence), h; }
    var id := AssetId(tx.txid, position);
    if presence.value % 2 == 1 {
      var read := cursor.ReadAssetId();
      if read.Err? { return Err(read.error), h; }
      id := read.value;
      h := h.(asset := Some(id));
      forall x: AssetId | At(b, start + 1, IdBytes(x)) ensures x == id { IdUnique(b, start + 1, x, id); }
    }
    if id in seen { return Err(RepeatedAsset), h; }
    ghost var past := cursor.offset;
    if presence.value / 2 % 2 == 1 {
      var read;
      ghost var control;
      read, control := ReadControl(cursor);
      if read.Err? { return Err(read.error), h; }
      h := h.(control := Some(control));
      forall x: Control | At(b, past, ControlBytes(x)) ensures x == control { ControlUnique(b, past, x, control); }
    }
    if presence.value / 4 == 1 {
      var read;
      ghost var entries;
      read, entries := cursor.Metadata();
      if read.Err? { return Err(read.error), h; }
      h := h.(metadata := Some(entries));
    }
    NothingAt(b, start + 1);
    NothingAt(b, past);
    NothingAt(b, cursor.offset);
    HeaderAt(b, start, h);
    HeaderSize(h);
    return Ok(id), h;
  }

  /** `HeaderAt` as a predicate. */
  predicate HeaderParts(b: Bytes, off: nat, h: Header) {
    && off < |b| && b[off] == Presence(h)
    && At(b, off + 1, OptionalId(h.asset))
    && At(b, off + 1 + |OptionalId(h.asset)|, OptionalControl(h.control))
    && At(b, off + 1 + |OptionalId(h.asset)| + |OptionalControl(h.control)|, OptionalMetadata(h.metadata))
  }

  lemma HeaderSize(h: Header)
    ensures |HeaderBytes(h)| == 1 + |OptionalId(h.asset)| + |OptionalControl(h.control)| + |OptionalMetadata(h.metadata)|
  {}

  lemma NothingAt(b: Bytes, off: nat)
    ensures At(b, off, []) <==> off <= |b|
  {}

  /** Where one input of a group comes from. */
  method ReadRef(cursor: Cursor, tx: Carrier) returns (r: Result<Ref, PacketError>)
    requires cursor.Valid()
    modifies cursor
    ensures cursor.Valid()
    ensures r.Ok? ==> At(cursor.bytes, old(cursor.offset), RefBytes(r.value)) && cursor.offset == old(cursor.offset) + |RefBytes(r.value)|
    ensures r.Ok? ==> InRange(r.value, tx)
    ensures r.Err? ==> forall x: Ref :: InRange(x, tx) ==> !At(cursor.bytes, old(cursor.offset), RefBytes(x))
  {
    hide At, U16Bytes, RefBytes;
    ghost var (b, start) := (cursor.bytes, cursor.offset);
    forall x: Ref ensures At(b, start, RefBytes(x)) ==> RefParts(b, start, x) { RefAt(b, start, x); }
    var kind := cursor.Byte();
    if kind.Err? { return Err(kind.error); }
    if kind.value == 1 {
      var index := cursor.U16();
      if index.Err? { return Err(index.error); }
      if index.value >= tx.inputs {
        forall i: U16 | At(b, start + 1, U16Bytes(i)) ensures i == index.value { U16Unique(b, start + 1, i, index.value); }
        return Err(BadInput);
      }
      RefAt(b, start, Local(index.value));
      RefSize(Local(index.value));
      return Ok(Local(index.value));
    } else if kind.value == 2 {
      var txid := cursor.Hash();
      if txid.Err? { return Err(txid.error); }
      var index := cursor.U16();
      if index.Err? { return Err(index.error); }
      RefAt(b, start, Intent(txid.value, index.value));
      RefSize(Intent(txid.value, index.value));
      return Ok(Intent(txid.value, index.value));
    } else {
      return Err(BadInput);
    }
  }

  predicate RefParts(b: Bytes, off: nat, r: Ref) {
    && off < |b| && b[off] == (if r.Local? then 1 else 2)
    && match r case Local(i) => At(b, off + 1, U16Bytes(i))
               case Intent(t, i) => At(b, off + 1, t) && At(b, off + 33, U16Bytes(i))
  }

  lemma RefSize(r: Ref)
    ensures |RefBytes(r)| == if r.Local? then 3 else 35
  {}

  /** A group's inputs; no reference may repeat. */
  method ReadInputs(cursor: Cursor, tx: Carrier) returns (r: Result<(), PacketError>, ghost inputs: seq<Input>)
    requires cursor.Valid()
    modifies cursor
    ensures cursor.Valid()
    ensures r.Ok? ==> At(cursor.bytes, old(cursor.offset), ListBytes(InputBytes, inputs))
    ensures r.Ok? ==> cursor.offset == old(cursor.offset) + |ListBytes(InputBytes, inputs)| && InputsOk(inputs, tx)
    ensures r.Err? ==> forall all: seq<Input> :: InputsOk(all, tx) ==> !At(cursor.bytes, old(cursor.offset), ListBytes(InputBytes, all))
  {
    hide At, Uvarint, ListBytes, InputBytes, RefBytes, Listing, PrefixFree;
    ghost var (b, start) := (cursor.bytes, cursor.offset);
    inputs := [];
    var count := cursor.Count();
    if count.Err? {
      NoList(InputBytes, b, start);
      return Err(count.error), inputs;
    }
    InputsPrefixFree();
    ListBegins(InputBytes, b, start, count.value);
    var seen: set<Ref> := {};
    for k := 0 to count.value
      invariant cursor.Valid() && |inputs| == k && InputsOk(inputs, tx)
      invariant Listing(InputBytes, b, start, count.value, inputs, cursor.offset)
      invariant forall x :: x in seen <==> exists i <- inputs :: i.ref == x
    {
      ghost var here := cursor.offset;
      forall all: seq<Input> | At(b, start, ListBytes(InputBytes, all))
        ensures k < |all| && all[..k] == inputs && At(b, here, InputBytes(all[k]))
      {
        ListContinues(InputBytes, b, start, count.value, inputs, here, all);
      }
      forall i: Input | At(b, here, InputBytes(i)) ensures At(b, here, RefBytes(i.ref)) && At(b, here + |RefBytes(i.ref)|, Uvarint(i.amount)) {
        InputAt(b, here, i);
      }
      var ref := ReadRef(cursor, tx);
      if ref.Err? { return Err(ref.error), inputs; }
      forall x: Ref | At(b, here, RefBytes(x)) ensures x == ref.value { RefUnique(b, here, x, ref.value); }
      if ref.value in seen {
        forall all: seq<Input> | At(b, start, ListBytes(InputBytes, all)) ensures !InputsOk(all, tx) {
          Repeats(all, k, ref.value);
        }
        return Err(BadInput), inputs;
      }
      seen := seen + {ref.value};
      var amount := cursor.Varint();
      if amount.Err? { return Err(amount.error), inputs; }
      ghost var item := Input(ref.value, amount.value);
      InputAt(b, here, item);
      ListGrows(InputBytes, b, start, count.value, inputs, here, item);
      OneMoreInput(inputs, item, tx);
      inputs := inputs + [item];
    }
    ListEnds(InputBytes, b, start, count.value, inputs, cursor.offset);
    return Ok(()), inputs;
  }

  lemma InputAt(b: Bytes, off: nat, i: Input)
    ensures At(b, off, InputBytes(i)) <==> At(b, off, RefBytes(i.ref)) && At(b, off + |RefBytes(i.ref)|, Uvarint(i.amount))
    ensures |InputBytes(i)| == |RefBytes(i.ref)| + |Uvarint(i.amount)|
  {
    AtSplit(b, off, RefBytes(i.ref), Uvarint(i.amount));
  }

  lemma Repeats(all: seq<Input>, k: nat, x: Ref)
    requires k < |all| && all[k].ref == x && exists i <- all[..k] :: i.ref == x
    ensures exists i, j :: 0 <= i < j < |all| && all[i].ref == all[j].ref
  {
    var i :| i in all[..k] && i.ref == x;
    var j :| 0 <= j < k && all[..k][j] == i;
    assert all[j].ref == all[k].ref;
  }

  lemma OneMoreInput(inputs: seq<Input>, item: Input, tx: Carrier)
    requires InputsOk(inputs, tx) && InRange(item.ref, tx) && forall i <- inputs :: i.ref != item.ref
    ensures InputsOk(inputs + [item], tx)
  {}

  predicate OutputOk(o: Output, tx: Carrier, seen: set<U16>) {
    o.index < tx.outputs && o.index !in seen && o.amount > 0
  }

  /** One output: local, at a new index of the transaction, and of a positive amount. */
  method ReadOutput(cursor: Cursor, tx: Carrier, seen: set<U16>) returns (r: Result<Output, PacketError>)
    requires cursor.Valid()
    modifies cursor
    ensures cursor.Valid()
    ensures r.Ok? ==> At(cursor.bytes, old(cursor.offset), OutputBytes(r.value)) && cursor.offset == old(cursor.offset) + |OutputBytes(r.value)|
    ensures r.Ok? ==> OutputOk(r.value, tx, seen)
    ensures r.Err? ==> forall o: Output :: OutputOk(o, tx, seen) ==> !At(cursor.bytes, old(cursor.offset), OutputBytes(o))
  {
    hide At, Uvarint, OutputBytes, U16Bytes;
    ghost var (b, start) := (cursor.bytes, cursor.offset);
    forall o: Output ensures At(b, start, OutputBytes(o)) ==> OutputParts(b, start, o) { OutputAt(b, start, o); }
    var kind := cursor.Byte();
    if kind.Err? { return Err(kind.error); }
    if kind.value != 1 { return Err(BadOutput); }
    var index := cursor.U16();
    if index.Err? { return Err(index.error); }
    forall x: U16 | At(b, start + 1, U16Bytes(x)) ensures x == index.value { U16Unique(b, start + 1, x, index.value); }
    if index.value >= tx.outputs || index.value in seen { return Err(BadOutput); }
    var amount := cursor.Varint();
    if amount.Err? { return Err(amount.error); }
    forall x: U64 | At(b, start + 3, Uvarint(x)) ensures x == amount.value { UvarintUnique(b, start + 3, x, amount.value); }
    if amount.value == 0 { return Err(ZeroAmount); }
    OutputAt(b, start, Output(index.value, amount.value));
    OutputSize(Output(index.value, amount.value));
    return Ok(Output(index.value, amount.value));
  }

  /** A group's outputs, and what they assign at one output of the transaction. */
  method ReadOutputs(cursor: Cursor, tx: Carrier, id: AssetId, index: nat)
    returns (r: Result<seq<Asset>, PacketError>, ghost outputs: seq<Output>)
    requires cursor.Valid()
    modifies cursor
    ensures cursor.Valid()
    ensures r.Ok? ==> At(cursor.bytes, old(cursor.offset), ListBytes(OutputBytes, outputs))
    ensures r.Ok? ==> cursor.offset == old(cursor.offset) + |ListBytes(OutputBytes, outputs)| && OutputsOk(outputs, tx)
    ensures r.Ok? ==> r.value == AssignedIn(id, outputs, index)
    ensures r.Err? ==> forall all: seq<Output> :: OutputsOk(all, tx) ==> !At(cursor.bytes, old(cursor.offset), ListBytes(OutputBytes, all))
  {
    hide At, Uvarint, ListBytes, OutputBytes, Listing, PrefixFree;
    ghost var (b, start) := (cursor.bytes, cursor.offset);
    outputs := [];
    var matches: seq<Asset> := [];
    var count := cursor.Count();
    if count.Err? {
      NoList(OutputBytes, b, start);
      return Err(count.error), outputs;
    }
    OutputsPrefixFree();
    ListBegins(OutputBytes, b, start, count.value);
    var seen: set<U16> := {};
    for k := 0 to count.value
      invariant cursor.Valid() && |outputs| == k && OutputsOk(outputs, tx)
      invariant Listing(OutputBytes, b, start, count.value, outputs, cursor.offset)
      invariant forall x :: x in seen <==> exists o <- outputs :: o.index == x
      invariant matches == AssignedIn(id, outputs, index)
    {
      ghost var here := cursor.offset;
      forall all: seq<Output> | At(b, start, ListBytes(OutputBytes, all)) && OutputsOk(all, tx)
        ensures k < |all| && At(b, here, OutputBytes(all[k])) && OutputOk(all[k], tx, seen)
      {
        ListContinues(OutputBytes, b, start, count.value, outputs, here, all);
        NextIsOk(all, k, tx, seen);
      }
      var output := ReadOutput(cursor, tx, seen);
      if output.Err? { return Err(output.error), outputs; }
      if output.value.index == index { matches := matches + [Asset(id, output.value.amount)]; }
      seen := seen + {output.value.index};
      ListGrows(OutputBytes, b, start, count.value, outputs, here, output.value);
      OneMoreOutput(outputs, output.value, tx);
      assert (outputs + [output.value])[..k] == outputs;
      outputs := outputs + [output.value];
    }
    ListEnds(OutputBytes, b, start, count.value, outputs, cursor.offset);
    return Ok(matches), outputs;
  }

  lemma NextIsOk(all: seq<Output>, k: nat, tx: Carrier, seen: set<U16>)
    requires k < |all| && OutputsOk(all, tx) && forall x :: x in seen <==> exists o <- all[..k] :: o.index == x
    ensures OutputOk(all[k], tx, seen)
  {
    assert all[k] in all;
    forall o <- all[..k] ensures o.index != all[k].index {
      var j :| 0 <= j < k && all[..k][j] == o;
      assert all[j].index != all[k].index;
    }
  }

  predicate OutputParts(b: Bytes, off: nat, o: Output) {
    off < |b| && b[off] == 1 && At(b, off + 1, U16Bytes(o.index)) && At(b, off + 3, Uvarint(o.amount))
  }

  lemma OutputSize(o: Output)
    ensures |OutputBytes(o)| == 3 + |Uvarint(o.amount)|
  {}

  lemma OneMoreOutput(outputs: seq<Output>, item: Output, tx: Carrier)
    requires OutputsOk(outputs, tx) && item.index < tx.outputs && item.amount > 0 && forall o <- outputs :: o.index != item.index
    ensures OutputsOk(outputs + [item], tx)
  {}

  /** One group: what it assigns at the output, under its asset. */
  method ReadGroup(cursor: Cursor, tx: Carrier, position: U16, seen: set<AssetId>, index: nat)
    returns (r: Result<(AssetId, seq<Asset>), PacketError>, ghost g: Group)
    requires cursor.Valid()
    modifies cursor
    ensures cursor.Valid()
    ensures r.Ok? ==> At(cursor.bytes, old(cursor.offset), GroupBytes(g)) && cursor.offset == old(cursor.offset) + |GroupBytes(g)|
    ensures r.Ok? ==> GroupOk(g, tx) && r.value.0 == IdOf(g.header, tx, position) && r.value.0 !in seen
    ensures r.Ok? ==> r.value.1 == AssignedIn(r.value.0, g.outputs, index)
    ensures r.Err? ==> forall x: Group :: GroupOk(x, tx) && IdOf(x.header, tx, position) !in seen ==>
                         !At(cursor.bytes, old(cursor.offset), GroupBytes(x))
  {
    hide At, HeaderBytes, ListBytes, InputBytes, OutputBytes, GroupBytes, PrefixFree, InputsOk, OutputsOk, IdOf;
    ghost var (b, start) := (cursor.bytes, cursor.offset);
    g := Group(Header(None, None, None), [], []);
    forall x: Group ensures At(b, start, GroupBytes(x)) ==> GroupParts(b, start, x) { GroupAt(b, start, x); }
    var id;
    ghost var header;
    id, header := ReadHeader(cursor, tx, position, seen);
    if id.Err? { return Err(id.error), g; }
    forall x: Header | At(b, start, HeaderBytes(x)) ensures x == header { HeaderUnique(b, start, x, header); }
    ghost var first := cursor.offset;
    var read;
    ghost var inputs;
    read, inputs := ReadInputs(cursor, tx);
    if read.Err? { return Err(read.error), g; }
    InputsPrefixFree();
    forall x: seq<Input> | At(b, first, ListBytes(InputBytes, x)) ensures x == inputs { ListUnique(InputBytes, b, first, x, inputs); }
    var matches;
    ghost var outputs;
    matches, outputs := ReadOutputs(cursor, tx, id.value, index);
    if matches.Err? { return Err(matches.error), g; }
    g := Group(header, inputs, outputs);
    GroupAt(b, start, g);
    GroupSize(g);
    return Ok((id.value, matches.value)), g;
  }

  predicate GroupParts(b: Bytes, off: nat, g: Group) {
    var first := off + |HeaderBytes(g.header)|;
    && At(b, off, HeaderBytes(g.header)) && At(b, first, ListBytes(InputBytes, g.inputs))
    && At(b, first + |ListBytes(InputBytes, g.inputs)|, ListBytes(OutputBytes, g.outputs))
  }

  lemma GroupSize(g: Group)
    ensures |GroupBytes(g)| == |HeaderBytes(g.header)| + |ListBytes(InputBytes, g.inputs)| + |ListBytes(OutputBytes, g.outputs)|
  {}

  // ----- the sorted result -----

  predicate IdLess(a: AssetId, b: AssetId) {
    LexLess(a.txid, b.txid) || (a.txid == b.txid && a.group < b.group)
  }

  function Inserted(a: Asset, sorted: seq<Asset>): seq<Asset> {
    if sorted == [] || !IdLess(sorted[0].id, a.id) then [a] + sorted else [sorted[0]] + Inserted(a, sorted[1..])
  }

  function Sorted(assets: seq<Asset>): seq<Asset> {
    if assets == [] then [] else Inserted(assets[0], Sorted(assets[1..]))
  }

  predicate InOrder(assets: seq<Asset>) {
    forall i, j :: 0 <= i < j < |assets| ==> !IdLess(assets[j].id, assets[i].id)
  }

  lemma {:induction false} LexOrder(a: Bytes, b: Bytes, c: Bytes)
    requires |a| == |b| == |c|
    ensures LexLess(a, c) ==> LexLess(a, b) || LexLess(b, c)
    ensures a != b ==> LexLess(a, b) || LexLess(b, a)
    ensures !(LexLess(a, b) && LexLess(b, a))
  {
    if a != [] {
      LexOrder(a[1..], b[1..], c[1..]);
      assert a == [a[0]] + a[1..] && b == [b[0]] + b[1..];
    }
  }

  lemma IdOrder(a: AssetId, b: AssetId, c: AssetId)
    requires IdLess(a, c)
    ensures IdLess(a, b) || IdLess(b, c)
  {
    LexOrder(a.txid, b.txid, c.txid);
    LexOrder(b.txid, a.txid, c.txid);
    LexOrder(c.txid, b.txid, a.txid);
  }

  lemma {:induction false} InsertedInOrder(a: Asset, sorted: seq<Asset>)
    requires InOrder(sorted)
    ensures InOrder(Inserted(a, sorted)) && multiset(Inserted(a, sorted)) == multiset{a} + multiset(sorted)
  {
    hide IdLess;
    if sorted != [] && IdLess(sorted[0].id, a.id) {
      InsertedInOrder(a, sorted[1..]);
      var rest := Inserted(a, sorted[1..]);
      assert sorted == [sorted[0]] + sorted[1..];
      forall x <- rest ensures !IdLess(x.id, sorted[0].id) {
        assert x in multiset(rest);
        if x == a { Asymmetric(sorted[0].id, a.id); }
        else { assert x in sorted[1..]; }
      }
      HeadInOrder(sorted[0], rest);
    } else {
      forall x <- sorted ensures !IdLess(x.id, a.id) {
        if IdLess(x.id, a.id) { IdOrder(x.id, sorted[0].id, a.id); }
      }
      HeadInOrder(a, sorted);
    }
  }

  lemma HeadInOrder(a: Asset, rest: seq<Asset>)
    requires InOrder(rest) && forall x <- rest :: !IdLess(x.id, a.id)
    ensures InOrder([a] + rest)
  {}

  lemma Asymmetric(a: AssetId, b: AssetId)
    ensures !(IdLess(a, b) && IdLess(b, a))
  {
    LexOrder(a.txid, b.txid, a.txid);
  }

  /** The result is the assignments, no more and no less, in ascending order. */
  lemma {:induction false} SortedIsSorted(assets: seq<Asset>)
    ensures InOrder(Sorted(assets)) && multiset(Sorted(assets)) == multiset(assets)
  {
    if assets != [] {
      SortedIsSorted(assets[1..]);
      InsertedInOrder(assets[0], Sorted(assets[1..]));
      assert assets == [assets[0]] + assets[1..];
    }
  }

  function NamedBy(explicit: Option<AssetId>, derived: AssetId): AssetId {
    match explicit case Some(id) => id case None => derived
  }

  predicate HasOutput(outputs: seq<Output>, index: nat, amount: U64) { exists o <- outputs :: o.index == index && o.amount == amount }

  lemma {:induction false} AssignedInHas(id: AssetId, outputs: seq<Output>, index: nat, a: Asset)
    ensures a in AssignedIn(id, outputs, index) <==> a.id == id && HasOutput(outputs, index, a.amount)
  {
    if outputs != [] {
      var (before, last) := (outputs[..|outputs| - 1], outputs[|outputs| - 1]);
      AssignedInHas(id, before, index, a);
      assert outputs == before + [last];
    }
  }

  /** An asset is assigned exactly where some group of that name has an output of that amount at the place. */
  lemma {:induction false} AssignedHas(groups: seq<Group>, tx: Carrier, index: nat, a: Asset)
    requires |groups| <= MAX_GROUPS
    ensures a in Assigned(groups, tx, index) <==>
              exists k :: 0 <= k < |groups| && HasOutput(groups[k].outputs, index, a.amount)
                          && a.id == NamedBy(groups[k].header.asset, AssetId(tx.txid, k))
  {
    hide AssignedIn;
    if groups != [] {
      var last := |groups| - 1;
      AssignedHas(groups[..last], tx, index, a);
      AssignedInHas(IdOf(groups[last].header, tx, last), groups[last].outputs, index, a);
    }
  }

  lemma {:induction false} AssignedInOnce(id: AssetId, outputs: seq<Output>, index: nat)
    requires forall i, j :: 0 <= i < j < |outputs| ==> outputs[i].index != outputs[j].index
    ensures |AssignedIn(id, outputs, index)| <= 1 && forall a <- AssignedIn(id, outputs, index) :: a.id == id
    ensures (forall o <- outputs :: o.index != index) ==> AssignedIn(id, outputs, index) == []
  {
    if outputs != [] { AssignedInOnce(id, outputs[..|outputs| - 1], index); }
  }

  lemma FrontIsOk(groups: seq<Group>, n: nat, tx: Carrier)
    requires n <= |groups| && PacketOk(groups, tx)
    ensures PacketOk(groups[..n], tx)
  {
    hide GroupOk, IdOf;
    forall i, j | 0 <= i < j < n ensures IdOf(groups[..n][i].header, tx, i) != IdOf(groups[..n][j].header, tx, j) {
      assert IdOf(groups[i].header, tx, i) != IdOf(groups[j].header, tx, j);
    }
  }

  /** A well-formed packet assigns no asset twice at one place. */
  lemma {:induction false} AssignedOnce(groups: seq<Group>, tx: Carrier, index: nat)
    requires PacketOk(groups, tx)
    ensures forall i, j :: 0 <= i < j < |Assigned(groups, tx, index)| ==> Assigned(groups, tx, index)[i].id != Assigned(groups, tx, index)[j].id
  {
    hide AssignedIn;
    if groups != [] {
      var last := |groups| - 1;
      var before := groups[..last];
      var id := IdOf(groups[last].header, tx, last);
      FrontIsOk(groups, last, tx);
      AssignedOnce(before, tx, index);
      assert groups[last] in groups;
      AssignedInOnce(id, groups[last].outputs, index);
      forall a <- Assigned(before, tx, index) ensures a.id != id {
        AssignedHas(before, tx, index, a);
        var k :| 0 <= k < last && a.id == NamedBy(before[k].header.asset, AssetId(tx.txid, k));
        assert IdOf(groups[k].header, tx, k) != id;
      }
    }
  }

  predicate Ascending(assets: seq<Asset>) {
    forall i, j :: 0 <= i < j < |assets| ==> IdLess(assets[i].id, assets[j].id)
  }

  lemma {:induction false} OnceByCount(assets: seq<Asset>)
    requires forall a <- assets, b <- assets :: a.id == b.id ==> a == b
    requires forall a :: multiset(assets)[a] <= 1
    ensures forall i, j :: 0 <= i < j < |assets| ==> assets[i].id != assets[j].id
  {
    forall i, j | 0 <= i < j < |assets| ensures assets[i].id != assets[j].id {
      var (a, b) := (assets[i], assets[j]);
      assert assets == assets[..i] + [a] + assets[i + 1..j] + [b] + assets[j + 1..];
      assert a in assets && b in assets;
      assert a == b ==> multiset(assets)[a] >= 2;
    }
  }

  lemma {:induction false} DistinctCounts(assets: seq<Asset>)
    requires forall i, j :: 0 <= i < j < |assets| ==> assets[i].id != assets[j].id
    ensures forall a :: multiset(assets)[a] <= 1
    ensures forall a <- assets, b <- assets :: a.id == b.id ==> a == b
  {
    if assets != [] {
      var last := |assets| - 1;
      DistinctCounts(assets[..last]);
      assert assets == assets[..last] + [assets[last]];
    }
  }

  /** Sorting assets of distinct identifiers puts them in strictly ascending order. */
  lemma SortedAscends(assets: seq<Asset>)
    requires forall i, j :: 0 <= i < j < |assets| ==> assets[i].id != assets[j].id
    ensures Ascending(Sorted(assets)) && forall a :: a in Sorted(assets) <==> a in assets
  {
    hide Sorted;
    var sorted := Sorted(assets);
    SortedIsSorted(assets);
    DistinctCounts(assets);
    forall a ensures a in sorted <==> a in assets { assert a in multiset(sorted) <==> a in multiset(assets); }
    OnceByCount(sorted);
    forall i, j | 0 <= i < j < |sorted| ensures IdLess(sorted[i].id, sorted[j].id) {
      Trichotomy(sorted[i].id, sorted[j].id);
    }
  }

  lemma Trichotomy(a: AssetId, b: AssetId)
    ensures a == b || IdLess(a, b) || IdLess(b, a)
  {
    LexOrder(a.txid, b.txid, a.txid);
  }

  lemma ResultIs(groups: seq<Group>, tx: Carrier, index: nat, result: seq<Asset>)
    requires PacketOk(groups, tx) && result == Sorted(Assigned(groups, tx, index))
    ensures forall a :: a in result <==> exists k :: 0 <= k < |groups| && HasOutput(groups[k].outputs, index, a.amount)
                                                     && a.id == NamedBy(groups[k].header.asset, AssetId(tx.txid, k))
    ensures forall i, j :: 0 <= i < j < |result| ==>
              var (a, b) := (result[i].id, result[j].id);
              LexLess(a.txid, b.txid) || (a.txid == b.txid && a.group < b.group)
  {
    hide Sorted, Assigned, GroupOk, IdOf;
    AssignedOnce(groups, tx, index);
    SortedAscends(Assigned(groups, tx, index));
    forall a ensures a in Assigned(groups, tx, index) <==>
                       exists k :: 0 <= k < |groups| && HasOutput(groups[k].outputs, index, a.amount)
                                   && a.id == NamedBy(groups[k].header.asset, AssetId(tx.txid, k))
    {
      AssignedHas(groups, tx, index, a);
    }
  }

  function PacketBytes(groups: seq<Group>): Bytes { ListBytes(GroupBytes, groups) }

  /**
   `output_assets`: a payload is accepted iff it is, byte for byte, the encoding of a well-formed packet, and
   then the result is that packet's assignments to the output, sorted by asset.
  */
  method OutputAssets(payload: Option<Bytes>, tx: Carrier, index: nat)
    returns (r: Option<seq<Asset>>, ghost groups: seq<Group>)
    requires payload.Some? ==> |payload.value| <= MAX_U64
    ensures r.Some? ==> index < tx.outputs
    ensures r.Some? && payload.None? ==> r.value == []
    ensures r.Some? && payload.Some? ==>
              && payload.value == PacketBytes(groups) && PacketOk(groups, tx)
              && r.value == Sorted(Assigned(groups, tx, index))
    ensures r.Some? && payload.Some? ==>
              && (forall a :: a in r.value <==> exists k :: 0 <= k < |groups| && HasOutput(groups[k].outputs, index, a.amount)
                                                            && a.id == NamedBy(groups[k].header.asset, AssetId(tx.txid, k)))
              && forall i, j :: 0 <= i < j < |r.value| ==>
                   var (a, b) := (r.value[i].id, r.value[j].id);
                   LexLess(a.txid, b.txid) || (a.txid == b.txid && a.group < b.group)
    ensures r.None? ==> index >= tx.outputs
                        || (payload.Some? && forall p: seq<Group> :: PacketOk(p, tx) ==> payload.value != PacketBytes(p))
  {
    hide At, Uvarint, ListBytes, GroupBytes, Listing, PrefixFree, GroupOk, IdOf, Sorted, AssignedIn, Assigned, PacketOk;
    NothingAssigned(tx, index);
    groups := [];
    if index >= tx.outputs { return None, groups; }
    if payload.None? { return Some([]), groups; }
    var cursor := new Cursor(payload.value);
    ghost var b := payload.value;
    forall p: seq<Group> | b == PacketBytes(p) ensures At(b, 0, ListBytes(GroupBytes, p)) { WholeAt(b); }
    var count := cursor.Count();
    if count.Err? {
      NoList(GroupBytes, b, 0);
      return None, groups;
    }
    GroupsPrefixFree();
    ListBegins(GroupBytes, b, 0, count.value);
    if count.value > MAX_GROUPS {
      forall p: seq<Group> | At(b, 0, ListBytes(GroupBytes, p)) ensures !PacketOk(p, tx) {
        ListContinues(GroupBytes, b, 0, count.value, [], cursor.offset, p);
        TooManyGroups(p, tx);
      }
      return None, groups;
    }
    var seen: set<AssetId> := {};
    var matches: seq<Asset> := [];
    for k := 0 to count.value
      invariant fresh(cursor) && cursor.Valid() && |groups| == k && PacketOk(groups, tx)
      invariant Listing(GroupBytes, b, 0, count.value, groups, cursor.offset)
      invariant forall x :: x in seen <==> exists i :: 0 <= i < k && IdOf(groups[i].header, tx, i) == x
      invariant matches == Assigned(groups, tx, index)
    {
      ghost var here := cursor.offset;
      forall p: seq<Group> | At(b, 0, ListBytes(GroupBytes, p)) && PacketOk(p, tx)
        ensures k < |p| && At(b, here, GroupBytes(p[k])) && GroupOk(p[k], tx) && IdOf(p[k].header, tx, k) !in seen
      {
        ListContinues(GroupBytes, b, 0, count.value, groups, here, p);
        NextGroupIsOk(p, k, tx, seen);
      }
      var read;
      ghost var g;
      read, g := ReadGroup(cursor, tx, k, seen, index);
      if read.Err? { return None, groups; }
      ListGrows(GroupBytes, b, 0, count.value, groups, here, g);
      OneMoreGroup(groups, g, tx, seen);
      OneMoreAssigned(groups, g, tx, index);
      matches := matches + read.value.1;
      seen := seen + {read.value.0};
      groups := groups + [g];
    }
    ListEnds(GroupBytes, b, 0, count.value, groups, cursor.offset);
    forall p: seq<Group> | b == PacketBytes(p) ensures p == groups { ListUnique(GroupBytes, b, 0, p, groups); }
    if cursor.offset != |cursor.bytes| { return None, groups; }
    AtFits(b, 0, ListBytes(GroupBytes, groups));
    assert b[0..|b|] == b;
    ResultIs(groups, tx, index, Sorted(matches));
    return Some(Sorted(matches)), groups;
  }

  lemma TooManyGroups(p: seq<Group>, tx: Carrier)
    requires |p| > MAX_GROUPS
    ensures !PacketOk(p, tx)
  {}

  lemma NothingAssigned(tx: Carrier, index: nat)
    ensures PacketOk([], tx) && Assigned([], tx, index) == []
  {}

  lemma OneMoreAssigned(groups: seq<Group>, g: Group, tx: Carrier, index: nat)
    requires |groups| < MAX_GROUPS
    ensures Assigned(groups + [g], tx, index)
         == Assigned(groups, tx, index) + AssignedIn(IdOf(g.header, tx, |groups|), g.outputs, index)
  {
    assert (groups + [g])[..|groups|] == groups;
  }

  lemma WholeAt(b: Bytes)
    ensures At(b, 0, b)
  {
    assert b[0..|b|] == b;
  }

  lemma NextGroupIsOk(p: seq<Group>, k: nat, tx: Carrier, seen: set<AssetId>)
    requires k < |p| && PacketOk(p, tx) && forall x :: x in seen <==> exists i :: 0 <= i < k && IdOf(p[..k][i].header, tx, i) == x
    ensures GroupOk(p[k], tx) && IdOf(p[k].header, tx, k) !in seen
  {
    assert p[k] in p;
    forall i | 0 <= i < k ensures IdOf(p[..k][i].header, tx, i) != IdOf(p[k].header, tx, k) { assert p[..k][i] == p[i]; }
  }

  lemma OneMoreGroup(groups: seq<Group>, g: Group, tx: Carrier, seen: set<AssetId>)
    requires |groups| < MAX_GROUPS && PacketOk(groups, tx) && GroupOk(g, tx)
    requires IdOf(g.header, tx, |groups|) !in seen
    requires forall x :: x in seen <==> exists i :: 0 <= i < |groups| && IdOf(groups[i].header, tx, i) == x
    ensures PacketOk(groups + [g], tx)
    ensures forall x :: x in seen + {IdOf(g.header, tx, |groups|)} <==>
              exists i :: 0 <= i <= |groups| && IdOf((groups + [g])[i].header, tx, i) == x
  {
    var all := groups + [g];
    forall x ensures x in seen + {IdOf(g.header, tx, |groups|)} <==> exists i :: 0 <= i <= |groups| && IdOf(all[i].header, tx, i) == x {
      if x in seen { var i :| 0 <= i < |groups| && IdOf(groups[i].header, tx, i) == x; assert all[i] == groups[i]; }
      if x == IdOf(g.header, tx, |groups|) { assert all[|groups|] == g; }
      if i :| 0 <= i <= |groups| && IdOf(all[i].header, tx, i) == x { if i < |groups| { assert all[i] == groups[i]; } }
    }
  }

  // ----- comparing asset lists -----

  predicate EqualAssetSets(left: seq<Asset>, right: seq<Asset>) {
    |left| == |right| && forall a <- left :: a in right
  }

  predicate NoRepeats(assets: seq<Asset>) { forall i, j :: 0 <= i < j < |assets| ==> assets[i] != assets[j] }

  lemma {:induction false} DistinctSetsAreSame(left: seq<Asset>, right: seq<Asset>)
    requires NoRepeats(left)
    ensures EqualAssetSets(left, right) <==> multiset(left) == multiset(right)
    decreases |left|
  {
    if multiset(left) == multiset(right) {
      forall a <- left ensures a in right { assert a in multiset(left); }
    }
    if EqualAssetSets(left, right) && left != [] {
      var last := |left| - 1;
      assert left[last] in left;
      var i :| 0 <= i < |right| && right[i] == left[last];
      LastMatched(left, right, i);
      DistinctSetsAreSame(left[..last], right[..i] + right[i + 1..]);
      assert left == left[..last] + [left[last]];
      assert right == right[..i] + [right[i]] + right[i + 1..];
    }
  }

  lemma LastMatched(left: seq<Asset>, right: seq<Asset>, i: nat)
    requires NoRepeats(left) && EqualAssetSets(left, right) && left != [] && i < |right| && right[i] == left[|left| - 1]
    ensures EqualAssetSets(left[..|left| - 1], right[..i] + right[i + 1..])
  {
    var rest := right[..i] + right[i + 1..];
    forall a <- left[..|left| - 1] ensures a in rest {
      assert a in left && a in right && a != right[i];
      var j :| 0 <= j < |right| && right[j] == a;
      assert rest[if j < i then j else j - 1] == a;
    }
  }

  /** Any repeat on the left lets a different list pass: one of the two copies may be anything else. */
  lemma RepeatsMislead(left: seq<Asset>, i: nat, j: nat, x: Asset)
    requires i < j < |left| && left[i] == left[j] && x != left[j]
    ensures EqualAssetSets(left, left[j := x]) && multiset(left) != multiset(left[j := x])
  {
    var right := left[j := x];
    forall a <- left ensures a in right {
      var k :| 0 <= k < |left| && left[k] == a;
      assert right[if k == j then i else k] == a;
    }
    assert multiset(right) == multiset(left) - multiset{left[j]} + multiset{x};
  }

  /** The comparison is equality up to order against every right side exactly when the left side has no repeats. */
  lemma EqualSetsAreSame(left: seq<Asset>)
    ensures NoRepeats(left) <==> forall right :: EqualAssetSets(left, right) <==> multiset(left) == multiset(right)
  {
    if NoRepeats(left) {
      forall right ensures EqualAssetSets(left, right) <==> multiset(left) == multiset(right) { DistinctSetsAreSame(left, right); }
    } else {
      var i: nat, j: nat :| i < j < |left| && left[i] == left[j];
      RepeatsMislead(left, i, j, left[j].(amount := if left[j].amount == 0 then 1 else 0));
    }
  }

  // ----- an indexed record against its creating transaction -----

  /** One asset as the indexer reports it: either field may fail to parse. */
  datatype Indexed = Indexed(id: Option<AssetId>, amount: Option<U64>)

  predicate Reads(e: Indexed, a: Asset) { e.id == Some(a.id) && e.amount == Some(a.amount) && a.amount > 0 }

  predicate DistinctIds(assets: seq<Asset>) { forall i, j :: 0 <= i < j < |assets| ==> assets[i].id != assets[j].id }

  /** The entries are these assets: all readable, positive, and under distinct identifiers. */
  predicate Indexes(entries: seq<Indexed>, assets: seq<Asset>) {
    && |assets| == |entries| && DistinctIds(assets)
    && forall i :: 0 <= i < |assets| ==> Reads(entries[i], assets[i])
  }

  lemma IndexedReads(entries: seq<Indexed>, assets: seq<Asset>, i: nat)
    requires Indexes(entries, assets) && i < |entries|
    ensures i < |assets| && Reads(entries[i], assets[i])
  {}

  lemma IndexedApart(entries: seq<Indexed>, read: seq<Asset>, assets: seq<Asset>, k: nat, i: nat)
    requires k < i < |entries| && |read| == i && Indexes(entries[..i], read) && Indexes(entries, assets)
    ensures entries[i].id != Some(read[k].id)
  {
    IndexedReads(entries, assets, k);
    IndexedReads(entries, assets, i);
    IndexedReads(entries[..i], read, k);
  }

  lemma NothingIndexed()
    ensures Indexes([], [])
  {}

  lemma OneMoreIndexed(entries: seq<Indexed>, i: nat, assets: seq<Asset>, a: Asset)
    requires i < |entries| && Indexes(entries[..i], assets) && Reads(entries[i], a) && forall x <- assets :: x.id != a.id
    ensures Indexes(entries[..i + 1], assets + [a])
  {}

  /** The asset part of `parse_indexer_vtxo`. */
  method ParseIndexedAssets(entries: seq<Indexed>) returns (r: Option<seq<Asset>>)
    ensures r.Some? ==> Indexes(entries, r.value)
    ensures r.None? ==> forall assets :: !Indexes(entries, assets)
    ensures r.Some? ==> |r.value| == |entries| && forall i :: 0 <= i < |entries| ==>
                          entries[i] == Indexed(Some(r.value[i].id), Some(r.value[i].amount)) && r.value[i].amount > 0
    ensures r.None? <==>
              || (exists i :: 0 <= i < |entries| && (entries[i].id.None? || entries[i].amount in {None, Some(0)}))
              || (exists i, j :: 0 <= i < j < |entries| && entries[i].id == entries[j].id)
  {
    hide Indexes;
    var seen: set<AssetId> := {};
    var assets: seq<Asset> := [];
    NothingIndexed();
    assert entries[..0] == [];
    for i := 0 to |entries|
      invariant |assets| == i && Indexes(entries[..i], assets)
      invariant forall x :: x in seen <==> exists a <- assets :: a.id == x
    {
      var e := entries[i];
      if e.id.None? || e.amount.None? || e.amount.value == 0 {
        forall all ensures !Indexes(entries, all) { if Indexes(entries, all) { IndexedReads(entries, all, i); } }
        return None;
      }
      if e.id.value in seen {
        var k :| 0 <= k < i && assets[k].id == e.id.value;
        forall all ensures !Indexes(entries, all) { if Indexes(entries, all) { IndexedApart(entries, assets, all, k, i); } }
        IndexedReads(entries[..i], assets, k);
        assert entries[k].id == entries[i].id;
        return None;
      }
      seen := seen + {e.id.value};
      OneMoreIndexed(entries, i, assets, Asset(e.id.value, e.amount.value));
      assets := assets + [Asset(e.id.value, e.amount.value)];
    }
    assert entries[..|entries|] == entries;
    IndexedApartly(entries, assets);
    return Some(assets);
  }

  lemma IndexedApartly(entries: seq<Indexed>, assets: seq<Asset>)
    requires Indexes(entries, assets)
    ensures |assets| == |entries|
    ensures forall i :: 0 <= i < |entries| ==> entries[i] == Indexed(Some(assets[i].id), Some(assets[i].amount)) && assets[i].amount > 0
    ensures forall i, j :: 0 <= i < j < |entries| ==> entries[i].id != entries[j].id
  {
    forall i | 0 <= i < |entries| ensures entries[i] == Indexed(Some(assets[i].id), Some(assets[i].amount)) && assets[i].amount > 0 {
      assert Reads(entries[i], assets[i]);
    }
    forall i, j | 0 <= i < j < |entries| ensures entries[i].id != entries[j].id {
      assert assets[i].id != assets[j].id;
    }
  }

  /** The creating transaction assigns exactly these assets, in some order, to the output. */
  ghost predicate Creates(payload: Option<Bytes>, tx: Carrier, index: nat, assets: seq<Asset>) {
    index < tx.outputs
    && match payload
       case None => assets == []
       case Some(p) =>
         exists groups: seq<Group> :: p == PacketBytes(groups) && PacketOk(groups, tx)
                                      && multiset(assets) == multiset(Assigned(groups, tx, index))
  }

  /**
   The asset check of `validate_creating_transaction` on a parsed record: because the parser refuses repeats, the
   comparison is exact. The record passes just when the transaction assigns its assets to its output.
  */
  method ValidateRecord(entries: seq<Indexed>, payload: Option<Bytes>, tx: Carrier, index: nat) returns (ok: bool)
    requires payload.Some? ==> |payload.value| <= MAX_U64
    ensures ok <==> exists assets :: Indexes(entries, assets) && Creates(payload, tx, index, assets)
  {
    hide Indexes, GroupOk, IdOf, PacketBytes, Assigned, Sorted, EqualAssetSets, NoRepeats;
    var record := ParseIndexedAssets(entries);
    if record.None? { return false; }
    forall assets | Indexes(entries, assets) ensures assets == record.value { IndexedOnce(entries, assets, record.value); }
    RecordsDiffer(entries, record.value);
    var decoded;
    ghost var groups;
    decoded, groups := OutputAssets(payload, tx, index);
    if decoded.None? { return false; }
    DistinctSetsAreSame(record.value, decoded.value);
    if payload.Some? {
      SortedIsSorted(Assigned(groups, tx, index));
      forall p: seq<Group> | payload.value == PacketBytes(p) ensures p == groups { OneMeaning(p, groups); }
    }
    return EqualAssetSets(record.value, decoded.value);
  }

  lemma IndexedOnce(entries: seq<Indexed>, one: seq<Asset>, other: seq<Asset>)
    requires Indexes(entries, one) && Indexes(entries, other)
    ensures one == other
  {
    forall i | 0 <= i < |one| ensures one[i] == other[i] { assert Reads(entries[i], one[i]) && Reads(entries[i], other[i]); }
  }

  lemma RecordsDiffer(entries: seq<Indexed>, assets: seq<Asset>)
    requires Indexes(entries, assets)
    ensures NoRepeats(assets)
  {}

  // ----- the renewal leaf's own encoder -----

  const RENEWAL_STATE_INPUT_INDEX := 1
  const RENEWAL_STATE_OUTPUT_INDEX := 0

  /** One asset group of a renewal, before it is turned into a batch leaf. */
  datatype LeafGroup = LeafGroup(
    asset: Option<AssetId>, controlled: bool, described: bool, inputs: seq<(nat, U64)>, outputs: seq<(nat, U64)>)

  predicate ExactSelfSend(g: LeafGroup) {
    && g.asset.Some? && !g.controlled && !g.described
    && |g.inputs| == 1 && |g.outputs| == 1
    && g.inputs[0].0 == RENEWAL_STATE_INPUT_INDEX && g.outputs[0].0 == RENEWAL_STATE_OUTPUT_INDEX
    && g.inputs[0].1 == g.outputs[0].1
  }

  /** What the written bytes mean: one intent input of amount zero, one local output of the whole amount. */
  function LeafMeaning(g: LeafGroup, intent: Digest): Group
    requires ExactSelfSend(g)
  {
    Group(Header(g.asset, None, None), [Input(Intent(Reversed(intent), 0), 0)],
          [Output(RENEWAL_STATE_OUTPUT_INDEX, g.outputs[0].1)])
  }

  function LeafMeanings(groups: seq<LeafGroup>, intent: Digest): (m: seq<Group>)
    requires forall g <- groups :: ExactSelfSend(g)
    ensures |m| == |groups|
  {
    seq(|groups|, i requires 0 <= i < |groups| => LeafMeaning(groups[i], intent))
  }

  /** The asset-packet part of `batch_leaf_extension_txout`: bytes pushed one after another. */
  method LeafPacket(groups: seq<LeafGroup>, intent: Digest) returns (r: Option<Bytes>)
    ensures r.Some? <==> forall g <- groups :: ExactSelfSend(g)
    ensures r.Some? <==> forall g <- groups :: g.asset.Some? && !g.controlled && !g.described
                                               && exists amount :: g.inputs == [(1, amount)] && g.outputs == [(0, amount)]
    ensures r.Some? ==> r.value == PacketBytes(LeafMeanings(groups, intent))
    ensures r.Some? && |groups| == 1 ==>
              var asset := groups[0].asset.value;
              r.value == [1, 1] + Reversed(asset.txid) + [asset.group % 256, asset.group / 256]
                         + [1, 2] + Reversed(intent) + [0, 0, 0, 1, 1, 0, 0] + Uvarint(groups[0].outputs[0].1)
  {
    hide ListBytes, GroupBytes, Concat, Uvarint, LeafMeaning;
    forall g <- groups
      ensures ExactSelfSend(g) <==> g.asset.Some? && !g.controlled && !g.described
                                    && exists amount :: g.inputs == [(1, amount)] && g.outputs == [(0, amount)]
    {
      SelfSendIs(g);
    }
    var packet := Uvarint(|groups|);
    NoItems(GroupBytes);
    for k := 0 to |groups|
      invariant forall g <- groups[..k] :: ExactSelfSend(g)
      invariant packet == Uvarint(|groups|) + Concat(GroupBytes, LeafMeanings(groups[..k], intent))
    {
      var g := groups[k];
      assert g in groups;
      if !ExactSelfSend(g) { return None; }
      ghost var before := packet;
      packet := packet + [0x01];
      packet := packet + Reversed(g.asset.value.txid) + U16Bytes(g.asset.value.group);
      ghost var headed := packet;
      packet := packet + Uvarint(1);
      packet := packet + [0x02];
      packet := packet + Reversed(intent) + U16Bytes(0);
      packet := packet + Uvarint(0);
      ghost var fed := packet;
      packet := packet + Uvarint(1);
      packet := packet + [0x01];
      packet := packet + U16Bytes(RENEWAL_STATE_OUTPUT_INDEX) + Uvarint(g.outputs[0].1);
      LeafBytes(g, intent, before, headed, fed, packet);
      assert LeafMeanings(groups[..k + 1], intent) == LeafMeanings(groups[..k], intent) + [LeafMeaning(g, intent)];
      ConcatSnoc(GroupBytes, LeafMeanings(groups[..k], intent), LeafMeaning(g, intent));
    }
    assert groups[..|groups|] == groups;
    if |groups| == 1 {
      assert groups[0] in groups;
      OneLeaf(groups[0], intent);
      assert LeafMeanings(groups, intent) == [LeafMeaning(groups[0], intent)];
    }
    ListIs(GroupBytes, LeafMeanings(groups, intent));
    return Some(packet);
  }

  lemma SelfSendIs(g: LeafGroup)
    ensures ExactSelfSend(g) <==> g.asset.Some? && !g.controlled && !g.described
                                  && exists amount :: g.inputs == [(1, amount)] && g.outputs == [(0, amount)]
  {
    if ExactSelfSend(g) {
      var amount := g.inputs[0].1;
      assert g.inputs == [(1, amount)] && g.outputs == [(0, amount)];
    }
  }

  /** The bytes of a leaf with one asset. */
  lemma OneLeaf(g: LeafGroup, intent: Digest)
    requires ExactSelfSend(g)
    ensures var asset := g.asset.value;
            PacketBytes([LeafMeaning(g, intent)])
            == [1, 1] + Reversed(asset.txid) + [asset.group % 256, asset.group / 256]
               + [1, 2] + Reversed(intent) + [0, 0, 0, 1, 1, 0, 0] + Uvarint(g.outputs[0].1)
  {
    hide GroupBytes, Reversed;
    var asset := g.asset.value;
    OneItem(GroupBytes, LeafMeaning(g, intent));
    assert Uvarint(1) == [1] && Uvarint(0) == [0] && U16Bytes(0) == [0, 0];
    var headed: Bytes := [] + [0x01] + Reversed(asset.txid) + U16Bytes(asset.group);
    var fed := headed + Uvarint(1) + [0x02] + Reversed(intent) + U16Bytes(0) + Uvarint(0);
    LeafBytes(g, intent, [], headed, fed, fed + Uvarint(1) + [0x01] + U16Bytes(0) + Uvarint(g.outputs[0].1));
  }

  lemma NoItems<T>(encode: T -> Bytes)
    ensures Concat(encode, []) == []
  {}

  lemma ListIs<T>(encode: T -> Bytes, items: seq<T>)
    ensures ListBytes(encode, items) == Uvarint(|items|) + Concat(encode, items)
  {}

  lemma OneItem<T>(encode: T -> Bytes, item: T)
    ensures ListBytes(encode, [item]) == Uvarint(1) + encode(item)
  {
    NoItems(encode);
    assert [item][..0] == [] && Concat(encode, [item]) == [] + encode(item) == encode(item);
  }

  /** The bytes pushed in three stretches are those of one group. */
  lemma LeafBytes(g: LeafGroup, intent: Digest, before: Bytes, headed: Bytes, fed: Bytes, done: Bytes)
    requires ExactSelfSend(g)
    requires headed == before + [0x01] + Reversed(g.asset.value.txid) + U16Bytes(g.asset.value.group)
    requires fed == headed + Uvarint(1) + [0x02] + Reversed(intent) + U16Bytes(0) + Uvarint(0)
    requires done == fed + Uvarint(1) + [0x01] + U16Bytes(0) + Uvarint(g.outputs[0].1)
    ensures done == before + GroupBytes(LeafMeaning(g, intent))
  {
    hide Uvarint, U16Bytes, ListBytes;
    var m := LeafMeaning(g, intent);
    OneItem(InputBytes, m.inputs[0]);
    OneItem(OutputBytes, m.outputs[0]);
    assert headed == before + HeaderBytes(m.header);
    assert fed == headed + ListBytes(InputBytes, m.inputs);
    assert done == fed + ListBytes(OutputBytes, m.outputs);
  }

  predicate DistinctAssets(groups: seq<LeafGroup>) {
    forall i, j :: 0 <= i < j < |groups| ==> groups[i].asset != groups[j].asset
  }

  function LeafAsset(g: LeafGroup): Asset
    requires ExactSelfSend(g)
  {
    Asset(g.asset.value, g.outputs[0].1)
  }

  function LeafAssets(groups: seq<LeafGroup>): seq<Asset>
    requires forall g <- groups :: ExactSelfSend(g)
  {
    seq(|groups|, i requires 0 <= i < |groups| => LeafAsset(groups[i]))
  }

  lemma {:induction false} LeafAssigns(groups: seq<LeafGroup>, intent: Digest, tx: Carrier)
    requires (forall g <- groups :: ExactSelfSend(g)) && |groups| <= MAX_GROUPS
    ensures Assigned(LeafMeanings(groups, intent), tx, RENEWAL_STATE_OUTPUT_INDEX) == LeafAssets(groups)
  {
    if groups != [] {
      var last := |groups| - 1;
      LeafAssigns(groups[..last], intent, tx);
      assert groups[last] in groups;
      assert LeafMeanings(groups, intent)[..last] == LeafMeanings(groups[..last], intent);
      OneAssigned(groups[last], intent);
      assert LeafAssets(groups) == LeafAssets(groups[..last]) + [LeafAsset(groups[last])];
    }
  }

  lemma OneAssigned(g: LeafGroup, intent: Digest)
    requires ExactSelfSend(g)
    ensures AssignedIn(g.asset.value, LeafMeaning(g, intent).outputs, RENEWAL_STATE_OUTPUT_INDEX) == [LeafAsset(g)]
  {
    var outputs := LeafMeaning(g, intent).outputs;
    assert outputs[..0] == [];
    assert AssignedIn(g.asset.value, outputs[..0], RENEWAL_STATE_OUTPUT_INDEX) == [];
  }

  /** Encoding distinct positive assets for a batch leaf and decoding its state output gives exactly those assets, sorted. */
  method LeafRoundTrip(groups: seq<LeafGroup>, intent: Digest, tx: Carrier) returns (assets: Option<seq<Asset>>)
    requires (forall g <- groups :: ExactSelfSend(g) && g.outputs[0].1 > 0) && DistinctAssets(groups) && |groups| <= MAX_GROUPS
    requires tx.outputs > 0 && |PacketBytes(LeafMeanings(groups, intent))| <= MAX_U64
    ensures assets == Some(Sorted(LeafAssets(groups)))
    ensures InOrder(assets.value) && multiset(assets.value) == multiset(LeafAssets(groups))
  {
    hide PacketBytes, Sorted, Assigned, InOrder;
    var packet := LeafPacket(groups, intent);
    var meanings := LeafMeanings(groups, intent);
    ghost var read;
    // A leaf without assets carries no asset packet at all.
    assets, read := OutputAssets(if groups == [] then None else packet, tx, RENEWAL_STATE_OUTPUT_INDEX);
    LeafIsOk(groups, intent, tx);
    LeafAssigns(groups, intent, tx);
    SortedIsSorted(LeafAssets(groups));
    if groups == [] { NothingSorted(groups); }
    else { OneMeaning(read, meanings); }
  }

  lemma NothingSorted(groups: seq<LeafGroup>)
    requires groups == []
    ensures Sorted(LeafAssets(groups)) == []
  {}

  lemma LeafIsOk(groups: seq<LeafGroup>, intent: Digest, tx: Carrier)
    requires (forall g <- groups :: ExactSelfSend(g) && g.outputs[0].1 > 0) && DistinctAssets(groups) && |groups| <= MAX_GROUPS
    requires tx.outputs > 0
    ensures PacketOk(LeafMeanings(groups, intent), tx)
  {}

  /** Two packets with the same bytes are the same packet. */
  lemma OneMeaning(p: seq<Group>, q: seq<Group>)
    ensures PacketBytes(p) == PacketBytes(q) <==> p == q
  {
    if PacketBytes(p) == PacketBytes(q) {
      WholeAt(PacketBytes(p));
      GroupsPrefixFree();
      ListUnique(GroupBytes, PacketBytes(p), 0, p, q);
    }
  }
}
