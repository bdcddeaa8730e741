/** The byte grammar of asset packets: what each part looks like, and why bytes have at most one reading. */
module PacketGrammar {
  import opened Common
  import SseFraming

  // ----- positions -----

  lemma AtSplit(b: Bytes, off: nat, s: Bytes, t: Bytes)
    ensures At(b, off, s + t) <==> At(b, off, s) && At(b, off + |s|, t)
  {
    if off + |s| + |t| <= |b| {
      var whole := b[off..off + |s| + |t|];
      assert whole[..|s|] == b[off..off + |s|] && whole[|s|..] == b[off + |s|..off + |s| + |t|];
      assert (s + t)[..|s|] == s && (s + t)[|s|..] == t;
      assert whole == whole[..|s|] + whole[|s|..];
    }
  }

  /** No encoding is a proper prefix of another: what stands at a position has one reading. */
  ghost predicate PrefixFree<T(!new)>(encode: T -> Bytes) {
    forall b: Bytes, off: nat, x: T, y: T {:trigger At(b, off, encode(x)), At(b, off, encode(y))} ::
      At(b, off, encode(x)) && At(b, off, encode(y)) ==> x == y
  }

  function Concat<T>(encode: T -> Bytes, items: seq<T>): Bytes {
    if items == [] then [] else Concat(encode, items[..|items| - 1]) + encode(items[|items| - 1])
  }

  lemma ConcatSnoc<T>(encode: T -> Bytes, items: seq<T>, item: T)
    ensures Concat(encode, items + [item]) == Concat(encode, items) + encode(item)
  {
    assert (items + [item])[..|items|] == items;
  }

  /** A partly read list agrees with every list that stands there, whose next item is up next. */
  lemma {:induction false} ListResumes<T(!new)>(encode: T -> Bytes, b: Bytes, start: nat, read: seq<T>, all: seq<T>)
    requires PrefixFree(encode) && |read| <= |all|
    requires At(b, start, Concat(encode, read)) && At(b, start, Concat(encode, all))
    ensures read == all[..|read|]
    ensures |read| < |all| ==> At(b, start + |Concat(encode, read)|, encode(all[|read|]))
    decreases |all|
  {
    if |read| < |all| {
      var last := |all| - 1;
      AtSplit(b, start, Concat(encode, all[..last]), encode(all[last]));
      ListResumes(encode, b, start, read, all[..last]);
      assert all[..last][..|read|] == all[..|read|];
      if |read| == last { assert all[..last] == all[..|read|]; }
    } else if read != [] {
      var last := |all| - 1;
      AtSplit(b, start, Concat(encode, all[..last]), encode(all[last]));
      AtSplit(b, start, Concat(encode, read[..last]), encode(read[last]));
      ListResumes(encode, b, start, read[..last], all[..last]);
      assert all[..last][..last] == all[..last];
      assert read == read[..last] + [read[last]] && all == all[..last] + [all[last]];
    }
  }

  lemma {:induction false} ConcatLength<T>(encode: T -> Bytes, items: seq<T>)
    requires forall x :: |encode(x)| >= 1
    ensures |Concat(encode, items)| >= |items|
  {
    if items != [] { ConcatLength(encode, items[..|items| - 1]); }
  }

  // ----- base-128 numbers (unsigned LEB128) -----

  const CONTINUED := 128

  /** The shortest encoding. */
  function Uvarint(v: nat): (b: Bytes)
    ensures |b| >= 1
  {
    if v < CONTINUED then [v] else [v % CONTINUED + CONTINUED] + Uvarint(v / CONTINUED)
  }

  lemma {:induction false} UvarintAt(b: Bytes, off: nat, v: nat)
    ensures At(b, off, Uvarint(v)) <==>
              && off < |b|
              && if v < CONTINUED then b[off] == v
                 else b[off] == v % CONTINUED + CONTINUED && At(b, off + 1, Uvarint(v / CONTINUED))
  {
    if v >= CONTINUED { AtSplit(b, off, [v % CONTINUED + CONTINUED], Uvarint(v / CONTINUED)); }
    if off < |b| { assert b[off..off + 1] == [b[off]]; }
  }

  lemma {:induction false} UvarintUnique(b: Bytes, off: nat, v: nat, w: nat)
    requires At(b, off, Uvarint(v)) && At(b, off, Uvarint(w))
    ensures v == w
    decreases v
  {
    hide At;
    UvarintAt(b, off, v);
    UvarintAt(b, off, w);
    if v >= CONTINUED && w >= CONTINUED { UvarintUnique(b, off + 1, v / CONTINUED, w / CONTINUED); }
  }

  /** The number seven bits a byte, lowest first, make. */
  function SevenBits(b: Bytes): nat { if b == [] then 0 else b[0] % 128 + 128 * SevenBits(b[1..]) }

  /** Every byte but the last is marked, and the last is zero only alone. */
  predicate Shortest(b: Bytes) {
    b != [] && (forall i :: 0 <= i < |b| - 1 ==> b[i] >= 128) && b[|b| - 1] < 128 && (|b| > 1 ==> b[|b| - 1] > 0)
  }

  lemma ShortestRest(b: Bytes)
    requires |b| > 1
    ensures Shortest(b) <==> b[0] >= 128 && Shortest(b[1..]) && b[|b| - 1] > 0
  {
    var rest := b[1..];
    forall i ensures 0 < i < |b| ==> rest[i - 1] == b[i] {}
    if Shortest(rest) && b[0] >= 128 {
      forall i | 0 <= i < |b| - 1 ensures b[i] >= 128 { if i > 0 { assert rest[i - 1] >= 128; } }
    }
    if Shortest(b) {
      forall i | 0 <= i < |rest| - 1 ensures rest[i] >= 128 { assert b[i + 1] >= 128; }
    }
  }

  /** A number's encoding is the one shortest byte string that makes it. */
  lemma {:induction false} UvarintIsShortest(b: Bytes, v: nat)
    ensures b == Uvarint(v) <==> Shortest(b) && SevenBits(b) == v
  {
    UvarintReads(v);
    if Shortest(b) && SevenBits(b) == v { ShortestWrites(b); }
  }

  lemma {:induction false} UvarintReads(v: nat)
    ensures Shortest(Uvarint(v)) && SevenBits(Uvarint(v)) == v && (v > 0 ==> Uvarint(v)[|Uvarint(v)| - 1] > 0)
  {
    hide Shortest, SevenBits;
    if v < CONTINUED {
      OneByte(v);
    } else {
      UvarintReads(v / CONTINUED);
      OneMoreByte(v % CONTINUED, Uvarint(v / CONTINUED));
    }
  }

  lemma OneMoreByte(low: byte, rest: Bytes)
    requires low < 128 && Shortest(rest) && rest != [] && rest[|rest| - 1] > 0
    ensures Shortest([low + 128] + rest) && SevenBits([low + 128] + rest) == low + 128 * SevenBits(rest)
    ensures ([low + 128] + rest)[|rest|] > 0
  {
    hide Shortest;
    var b: Bytes := [low + 128] + rest;
    assert b[1..] == rest;
    ShortestRest(b);
  }

  lemma OneByte(v: byte)
    requires v < 128
    ensures Shortest([v]) && SevenBits([v]) == v
  {
    assert [v][1..] == [];
  }

  lemma {:induction false} ShortestWrites(b: Bytes)
    requires Shortest(b)
    ensures b == Uvarint(SevenBits(b)) && (b[|b| - 1] > 0 ==> SevenBits(b) > 0)
    decreases |b|
  {
    if |b| == 1 {
      OneByte(b[0]);
      assert b == [b[0]];
    } else {
      ShortestRest(b);
      var rest := b[1..];
      ShortestWrites(rest);
      assert b == [b[0]] + rest && rest[|rest| - 1] == b[|b| - 1];
      assert SevenBits(b) % CONTINUED == b[0] % 128 && SevenBits(b) / CONTINUED == SevenBits(rest);
    }
  }

  function Pow128(n: nat): (p: nat)
    ensures p > 0
  {
    if n == 0 then 1 else CONTINUED * Pow128(n - 1)
  }

  /** What the bytes from `start` to `off` say so far: their value, all of them continued. */
  function Continued(b: Bytes, start: nat, off: nat): nat
    requires start <= off <= |b|
    decreases off - start
  {
    if start == off then 0 else Continued(b, start, off - 1) + (b[off - 1] % CONTINUED) * Pow128(off - 1 - start)
  }

  predicate AllContinued(b: Bytes, start: nat, off: nat)
    requires start <= off <= |b|
  {
    forall i :: start <= i < off ==> b[i] >= CONTINUED
  }

  lemma {:induction false} ContinuedFront(b: Bytes, start: nat, off: nat)
    requires start < off <= |b|
    ensures Continued(b, start, off) == b[start] % CONTINUED + CONTINUED * Continued(b, start + 1, off)
    decreases off - start
  {
    if start + 1 < off { ContinuedFront(b, start, off - 1); }
  }

  /** Behind continued bytes, `high` standing at `off` means the whole number stands at `start`, and only then. */
  lemma {:induction false} ContinuedNumber(b: Bytes, start: nat, off: nat, high: nat)
    requires start <= off <= |b| && AllContinued(b, start, off)
    ensures high > 0 || start == off ==>
              var whole := Continued(b, start, off) + high * Pow128(off - start);
              && (At(b, start, Uvarint(whole)) <==> At(b, off, Uvarint(high)))
              && |Uvarint(whole)| == off - start + |Uvarint(high)|
    decreases off - start
  {
    if start < off && high > 0 {
      var middle, power := Continued(b, start + 1, off), Pow128(off - start - 1);
      ContinuedFront(b, start, off);
      ContinuedNumber(b, start + 1, off, high);
      assert Pow128(off - start) == CONTINUED * power;
      hide At, Uvarint, Continued, Pow128;
      WholeNumber(b[start] % CONTINUED, middle, high, power);
      var whole := Continued(b, start, off) + high * Pow128(off - start);
      assert whole % CONTINUED == b[start] % CONTINUED && whole / CONTINUED == middle + high * power;
      UvarintAt(b, start, whole);
      UvarintLonger(whole);
    }
  }

  lemma UvarintLonger(v: nat)
    requires v >= CONTINUED
    ensures |Uvarint(v)| == 1 + |Uvarint(v / CONTINUED)|
  {}

  lemma WholeNumber(low: nat, middle: nat, high: nat, power: nat)
    requires low < CONTINUED && high > 0 && power > 0
    ensures low + CONTINUED * middle + high * (CONTINUED * power) == low + CONTINUED * (middle + high * power)
    ensures var whole := low + CONTINUED * (middle + high * power);
            whole >= CONTINUED && whole % CONTINUED == low && whole / CONTINUED == middle + high * power
  {
    var rest := middle + high * power;
    assert high * power > 0;
    assert (low + CONTINUED * rest) / CONTINUED == rest;
  }

  /** Whatever number stands at `start` goes on with a high part behind the continued bytes. */
  lemma {:induction false} NumberGoesOn(b: Bytes, start: nat, off: nat, v: nat) returns (high: nat)
    requires start <= off <= |b| && AllContinued(b, start, off) && At(b, start, Uvarint(v))
    ensures At(b, off, Uvarint(high)) && v == Continued(b, start, off) + high * Pow128(off - start)
    ensures start < off ==> high > 0
    decreases off - start
  {
    high := v;
    if start < off {
      hide At;
      UvarintAt(b, start, v);
      high := NumberGoesOn(b, start + 1, off, v / CONTINUED);
      ContinuedFront(b, start, off);
      NumberParts(v, Continued(b, start + 1, off), high, Pow128(off - start - 1));
    }
  }

  lemma NumberParts(v: nat, middle: nat, high: nat, power: nat)
    requires v / CONTINUED == middle + high * power
    ensures v == v % CONTINUED + CONTINUED * middle + high * (CONTINUED * power)
  {
    assert CONTINUED * (middle + high * power) == CONTINUED * middle + CONTINUED * (high * power);
    assert CONTINUED * (high * power) == high * (CONTINUED * power);
  }

  lemma {:induction false} ContinuedBound(b: Bytes, start: nat, off: nat)
    requires start <= off <= |b|
    ensures Continued(b, start, off) < Pow128(off - start)
    decreases off - start
  {
    if start < off {
      ContinuedBound(b, start, off - 1);
      DigitFits(Continued(b, start, off - 1), b[off - 1] % CONTINUED, Pow128(off - 1 - start));
    }
  }

  lemma DigitFits(low: nat, digit: nat, power: nat)
    requires low < power && digit < CONTINUED
    ensures low + digit * power < CONTINUED * power
  {
    assert (CONTINUED - 1 - digit) * power >= 0;
    assert digit * power + (CONTINUED - 1 - digit) * power == (CONTINUED - 1) * power;
  }

  lemma Powers()
    ensures Pow128(9) == 0x8000_0000_0000_0000
    ensures forall k: nat :: k <= 8 ==> CONTINUED * Pow128(k) <= Pow128(9)
  {
    assert Pow128(4) == 128 * 128 * 128 * 128;
    assert Pow128(8) == 128 * 128 * 128 * 128 * Pow128(4);
    forall k: nat | k <= 8 ensures CONTINUED * Pow128(k) <= Pow128(9) { PowersGrow(k + 1, 9); }
  }

  lemma {:induction false} PowersGrow(j: nat, k: nat)
    requires j <= k
    ensures Pow128(j) <= Pow128(k)
  {
    if j < k { PowersGrow(j, k - 1); }
  }

  // ----- the packet's grammar -----

  function U16Bytes(v: U16): (b: Bytes)
    ensures |b| == 2
  {
    [v % 256, v / 256]
  }

  function IdBytes(a: AssetId): (b: Bytes)
    ensures |b| == 34
  {
    Reversed(a.txid) + U16Bytes(a.group)
  }

  predicate Utf8(t: Bytes) { SseFraming.Scan(t).1.Whole? }

  type Text = t: Bytes | Utf8(t) witness []

  function TextBytes(t: Text): (b: Bytes)
    ensures |b| >= 1
  {
    Uvarint(|t|) + t
  }

  datatype Entry = Entry(key: Text, value: Text)

  function EntryBytes(e: Entry): (b: Bytes)
    ensures |b| >= 1
  {
    TextBytes(e.key) + TextBytes(e.value)
  }

  function ListBytes<T>(encode: T -> Bytes, items: seq<T>): Bytes { Uvarint(|items|) + Concat(encode, items) }

  lemma {:induction false} ReversedTwice(b: Bytes)
    ensures Reversed(Reversed(b)) == b
  {
    if b != [] {
      ReversedTwice(b[1..]);
      ReversedSnoc(Reversed(b[1..]), b[0]);
    }
  }

  lemma {:induction false} ReversedSnoc(b: Bytes, last: byte)
    ensures Reversed(b + [last]) == [last] + Reversed(b)
  {
    if b == [] {
      assert b + [last] == [last] && Reversed([last]) == Reversed([]) + [last];
    } else {
      ReversedSnoc(b[1..], last);
      assert (b + [last])[1..] == b[1..] + [last];
    }
  }

  lemma AtFits(b: Bytes, off: nat, s: Bytes)
    requires At(b, off, s)
    ensures off + |s| <= |b| && s == b[off..off + |s|]
  {}

  lemma TextAt(b: Bytes, off: nat, t: Text)
    requires At(b, off, TextBytes(t))
    ensures At(b, off, Uvarint(|t|)) && off + |Uvarint(|t|)| + |t| <= |b|
    ensures t == b[off + |Uvarint(|t|)|..off + |Uvarint(|t|)| + |t|]
  {
    AtSplit(b, off, Uvarint(|t|), t);
  }

  lemma TextHere(b: Bytes, off: nat, t: Text, n: nat)
    requires At(b, off, Uvarint(n)) && n == |t| && off + |Uvarint(n)| + n <= |b|
    requires t == b[off + |Uvarint(n)|..off + |Uvarint(n)| + n]
    ensures At(b, off, TextBytes(t))
  {
    AtSplit(b, off, Uvarint(n), t);
  }

  lemma TextUnique(b: Bytes, off: nat, t: Text, u: Text)
    requires At(b, off, TextBytes(t)) && At(b, off, TextBytes(u))
    ensures t == u
  {
    TextAt(b, off, t);
    TextAt(b, off, u);
    UvarintUnique(b, off, |t|, |u|);
  }

  lemma EntriesPrefixFree()
    ensures PrefixFree(EntryBytes)
  {
    hide At, TextBytes;
    forall b: Bytes, off: nat, x: Entry, y: Entry | At(b, off, EntryBytes(x)) && At(b, off, EntryBytes(y)) ensures x == y {
      AtSplit(b, off, TextBytes(x.key), TextBytes(x.value));
      AtSplit(b, off, TextBytes(y.key), TextBytes(y.value));
      TextUnique(b, off, x.key, y.key);
      TextUnique(b, off + |TextBytes(x.key)|, x.value, y.value);
    }
  }

  // ----- reading a counted list -----

  /** `n` items announced at `start`, those in `read` already behind `off`. */
  ghost predicate Listing<T>(encode: T -> Bytes, b: Bytes, start: nat, n: nat, read: seq<T>, off: nat) {
    && |read| <= n && At(b, start, Uvarint(n))
    && At(b, start + |Uvarint(n)|, Concat(encode, read))
    && off == start + |Uvarint(n)| + |Concat(encode, read)|
  }

  lemma ListBegins<T>(encode: T -> Bytes, b: Bytes, start: nat, n: nat)
    requires At(b, start, Uvarint(n))
    ensures Listing(encode, b, start, n, [], start + |Uvarint(n)|)
  {}

  lemma ListGrows<T>(encode: T -> Bytes, b: Bytes, start: nat, n: nat, read: seq<T>, off: nat, item: T)
    requires Listing(encode, b, start, n, read, off) && |read| < n && At(b, off, encode(item))
    ensures Listing(encode, b, start, n, read + [item], off + |encode(item)|)
  {
    ConcatSnoc(encode, read, item);
    AtSplit(b, start + |Uvarint(n)|, Concat(encode, read), encode(item));
  }

  lemma ListEnds<T>(encode: T -> Bytes, b: Bytes, start: nat, n: nat, read: seq<T>, off: nat)
    requires Listing(encode, b, start, n, read, off) && |read| == n
    ensures At(b, start, ListBytes(encode, read)) && off == start + |ListBytes(encode, read)|
  {
    AtSplit(b, start, Uvarint(n), Concat(encode, read));
  }

  /** Whatever list stands at `start` begins with what was read and goes on at `off`. */
  lemma ListContinues<T(!new)>(encode: T -> Bytes, b: Bytes, start: nat, n: nat, read: seq<T>, off: nat, all: seq<T>)
    requires PrefixFree(encode) && Listing(encode, b, start, n, read, off) && At(b, start, ListBytes(encode, all))
    ensures |all| == n && read == all[..|read|] && (|read| < n ==> At(b, off, encode(all[|read|])))
  {
    AtSplit(b, start, Uvarint(|all|), Concat(encode, all));
    UvarintUnique(b, start, n, |all|);
    ListResumes(encode, b, start + |Uvarint(n)|, read, all);
  }

  /** Where no count passes, no list stands. */
  lemma NoList<T(!new)>(encode: T -> Bytes, b: Bytes, start: nat)
    requires forall n: nat, items: Bytes :: At(b, start, Uvarint(n) + items) ==> |items| < n
    requires forall x :: |encode(x)| >= 1
    ensures forall all: seq<T> :: !At(b, start, ListBytes(encode, all))
  {
    forall all: seq<T> ensures !At(b, start, ListBytes(encode, all)) { ConcatLength(encode, all); }
  }

  datatype Control = ById(asset: AssetId) | ByGroup(group: U16)

  function ControlBytes(c: Control): Bytes {
    match c case ById(a) => [1] + IdBytes(a) case ByGroup(n) => [2] + U16Bytes(n)
  }

  /** Where an input of a group comes from: this transaction, or an intent. */
  datatype Ref = Local(index: U16) | Intent(txid: Digest, index: U16)

  function RefBytes(r: Ref): (b: Bytes)
    ensures |b| >= 1
  {
    match r case Local(i) => [1] + U16Bytes(i) case Intent(t, i) => [2] + (t + U16Bytes(i))
  }

  datatype Input = Input(ref: Ref, amount: U64)

  function InputBytes(i: Input): (b: Bytes)
    ensures |b| >= 1
  {
    RefBytes(i.ref) + Uvarint(i.amount)
  }

  datatype Output = Output(index: U16, amount: U64)

  function OutputBytes(o: Output): (b: Bytes)
    ensures |b| >= 1
  {
    [1] + (U16Bytes(o.index) + Uvarint(o.amount))
  }

  datatype Header = Header(asset: Option<AssetId>, control: Option<Control>, metadata: Option<seq<Entry>>)

  function Presence(h: Header): byte {
    (if h.asset.Some? then 1 else 0) + (if h.control.Some? then 2 else 0) + (if h.metadata.Some? then 4 else 0)
  }

  function OptionalId(a: Option<AssetId>): Bytes { match a case None => [] case Some(id) => IdBytes(id) }

  function OptionalControl(c: Option<Control>): Bytes { match c case None => [] case Some(k) => ControlBytes(k) }

  function OptionalMetadata(m: Option<seq<Entry>>): Bytes {
    match m case None => [] case Some(entries) => ListBytes(EntryBytes, entries)
  }

  function HeaderBytes(h: Header): (b: Bytes)
    ensures |b| >= 1
  {
    [Presence(h)] + (OptionalId(h.asset) + (OptionalControl(h.control) + OptionalMetadata(h.metadata)))
  }

  datatype Group = Group(header: Header, inputs: seq<Input>, outputs: seq<Output>)

  function GroupBytes(g: Group): (b: Bytes)
    ensures |b| >= 1
  {
    HeaderBytes(g.header) + (ListBytes(InputBytes, g.inputs) + ListBytes(OutputBytes, g.outputs))
  }

  // ----- well-formed packets -----

  /** What of the carrying transaction a packet refers to. */
  datatype Carrier = Carrier(txid: Digest, inputs: nat, outputs: nat)

  predicate InRange(r: Ref, tx: Carrier) { r.Local? ==> r.index < tx.inputs }

  predicate InputsOk(inputs: seq<Input>, tx: Carrier) {
    && (forall i <- inputs :: InRange(i.ref, tx))
    && forall i, j :: 0 <= i < j < |inputs| ==> inputs[i].ref != inputs[j].ref
  }

  predicate OutputsOk(outputs: seq<Output>, tx: Carrier) {
    && (forall o <- outputs :: o.index < tx.outputs && o.amount > 0)
    && forall i, j :: 0 <= i < j < |outputs| ==> outputs[i].index != outputs[j].index
  }

  predicate GroupOk(g: Group, tx: Carrier) { InputsOk(g.inputs, tx) && OutputsOk(g.outputs, tx) }

  /** An issuing group is named after the transaction and its own position. */
  function IdOf(h: Header, tx: Carrier, position: U16): AssetId {
    match h.asset case Some(a) => a case None => AssetId(tx.txid, position)
  }

  const MAX_GROUPS := 0x1_0000

  predicate PacketOk(groups: seq<Group>, tx: Carrier) {
    && |groups| <= MAX_GROUPS
    && (forall g <- groups :: GroupOk(g, tx))
    && forall i, j :: 0 <= i < j < |groups| ==> IdOf(groups[i].header, tx, i) != IdOf(groups[j].header, tx, j)
  }

  /**
   The rules a packet must keep: at most 65,536 groups of different assets, each group's local inputs within the
   transaction and no input twice, its outputs within the transaction, positive and no index twice.
  */
  lemma PacketRules(p: seq<Group>, tx: Carrier)
    ensures PacketOk(p, tx) <==>
              && |p| <= 65_536
              && (forall g <- p ::
                    && (forall i <- g.inputs :: i.ref.Local? ==> i.ref.index < tx.inputs)
                    && (forall i, j :: 0 <= i < j < |g.inputs| ==> g.inputs[i].ref != g.inputs[j].ref)
                    && (forall o <- g.outputs :: o.index < tx.outputs && o.amount > 0)
                    && (forall i, j :: 0 <= i < j < |g.outputs| ==> g.outputs[i].index != g.outputs[j].index))
              && forall i, j :: 0 <= i < j < |p| ==>
                   (if p[i].header.asset.Some? then p[i].header.asset.value else AssetId(tx.txid, i))
                   != (if p[j].header.asset.Some? then p[j].header.asset.value else AssetId(tx.txid, j))
  {
    if PacketOk(p, tx) {
      forall i, j | 0 <= i < j < |p|
        ensures (if p[i].header.asset.Some? then p[i].header.asset.value else AssetId(tx.txid, i))
             != (if p[j].header.asset.Some? then p[j].header.asset.value else AssetId(tx.txid, j))
      {
        assert IdOf(p[i].header, tx, i) != IdOf(p[j].header, tx, j);
      }
    }
  }

  /** The bytes of each part, written out: tags, presence bits, reversed identifiers, low byte first. */
  lemma PartBytes(h: Header, i: Input, o: Output)
    ensures var asset := if h.asset.None? then [] else Reversed(h.asset.value.txid) + [h.asset.value.group % 256, h.asset.value.group / 256];
            var control :=
              match h.control
              case None => []
              case Some(ById(a)) => [1] + Reversed(a.txid) + [a.group % 256, a.group / 256]
              case Some(ByGroup(n)) => [2, n % 256, n / 256];
            var metadata := if h.metadata.None? then [] else Uvarint(|h.metadata.value|) + Concat(EntryBytes, h.metadata.value);
            HeaderBytes(h) == [(if h.asset.None? then 0 else 1) + (if h.control.None? then 0 else 2) + (if h.metadata.None? then 0 else 4)]
                              + asset + control + metadata
    ensures InputBytes(i) == (match i.ref case Local(n) => [1, n % 256, n / 256] case Intent(t, n) => [2] + t + [n % 256, n / 256])
                             + Uvarint(i.amount)
    ensures OutputBytes(o) == [1, o.index % 256, o.index / 256] + Uvarint(o.amount)
  {
    hide Uvarint, Concat, Reversed;
  }

  // ----- one reading only -----

  lemma U16Unique(b: Bytes, off: nat, v: U16, w: U16)
    requires At(b, off, U16Bytes(v)) && At(b, off, U16Bytes(w))
    ensures v == w
  {
    assert b[off..off + 2][0] == v % 256 == w % 256 && b[off..off + 2][1] == v / 256 == w / 256;
  }

  lemma SameLength(b: Bytes, off: nat, s: Bytes, t: Bytes)
    requires At(b, off, s) && At(b, off, t) && |s| == |t|
    ensures s == t
  {}

  lemma IdUnique(b: Bytes, off: nat, x: AssetId, y: AssetId)
    requires At(b, off, IdBytes(x)) && At(b, off, IdBytes(y))
    ensures x == y
  {
    AtSplit(b, off, Reversed(x.txid), U16Bytes(x.group));
    AtSplit(b, off, Reversed(y.txid), U16Bytes(y.group));
    U16Unique(b, off + 32, x.group, y.group);
    SameLength(b, off, Reversed(x.txid), Reversed(y.txid));
    ReversedTwice(x.txid);
    ReversedTwice(y.txid);
  }

  /** A leading tag byte. */
  lemma TagAt(b: Bytes, off: nat, tag: byte, s: Bytes)
    ensures At(b, off, [tag] + s) <==> off < |b| && b[off] == tag && At(b, off + 1, s)
  {
    AtSplit(b, off, [tag], s);
    if off < |b| { assert b[off..off + 1] == [b[off]]; }
  }

  lemma ControlUnique(b: Bytes, off: nat, x: Control, y: Control)
    requires At(b, off, ControlBytes(x)) && At(b, off, ControlBytes(y))
    ensures x == y
  {
    hide At, IdBytes, U16Bytes;
    TagAt(b, off, if x.ById? then 1 else 2, if x.ById? then IdBytes(x.asset) else U16Bytes(x.group));
    TagAt(b, off, if y.ById? then 1 else 2, if y.ById? then IdBytes(y.asset) else U16Bytes(y.group));
    if x.ById? && y.ById? { IdUnique(b, off + 1, x.asset, y.asset); }
    if x.ByGroup? && y.ByGroup? { U16Unique(b, off + 1, x.group, y.group); }
  }

  /** The parts of a reference behind its tag. */
  lemma RefAt(b: Bytes, off: nat, r: Ref)
    ensures At(b, off, RefBytes(r)) <==>
              && off < |b| && b[off] == (if r.Local? then 1 else 2)
              && match r case Local(i) => At(b, off + 1, U16Bytes(i))
                         case Intent(t, i) => At(b, off + 1, t) && At(b, off + 33, U16Bytes(i))
  {
    hide At, U16Bytes;
    match r
    case Local(i) => TagAt(b, off, 1, U16Bytes(i));
    case Intent(t, i) => TagAt(b, off, 2, t + U16Bytes(i)); AtSplit(b, off + 1, t, U16Bytes(i));
  }

  lemma RefUnique(b: Bytes, off: nat, x: Ref, y: Ref)
    requires At(b, off, RefBytes(x)) && At(b, off, RefBytes(y))
    ensures x == y
  {
    hide At, U16Bytes, RefBytes;
    RefAt(b, off, x);
    RefAt(b, off, y);
    if x.Local? && y.Local? { U16Unique(b, off + 1, x.index, y.index); }
    if x.Intent? && y.Intent? {
      SameLength(b, off + 1, x.txid, y.txid);
      U16Unique(b, off + 33, x.index, y.index);
    }
  }

  lemma InputsPrefixFree()
    ensures PrefixFree(InputBytes)
  {
    hide At, RefBytes, Uvarint;
    forall b: Bytes, off: nat, x: Input, y: Input | At(b, off, InputBytes(x)) && At(b, off, InputBytes(y)) ensures x == y {
      AtSplit(b, off, RefBytes(x.ref), Uvarint(x.amount));
      AtSplit(b, off, RefBytes(y.ref), Uvarint(y.amount));
      RefUnique(b, off, x.ref, y.ref);
      UvarintUnique(b, off + |RefBytes(x.ref)|, x.amount, y.amount);
    }
  }

  lemma OutputAt(b: Bytes, off: nat, o: Output)
    ensures At(b, off, OutputBytes(o)) <==>
              && off < |b| && b[off] == 1 && At(b, off + 1, U16Bytes(o.index)) && At(b, off + 3, Uvarint(o.amount))
  {
    hide At, U16Bytes, Uvarint;
    TagAt(b, off, 1, U16Bytes(o.index) + Uvarint(o.amount));
    AtSplit(b, off + 1, U16Bytes(o.index), Uvarint(o.amount));
  }

  lemma OutputsPrefixFree()
    ensures PrefixFree(OutputBytes)
  {
    hide At, OutputBytes, U16Bytes, Uvarint;
    forall b: Bytes, off: nat, x: Output, y: Output | At(b, off, OutputBytes(x)) && At(b, off, OutputBytes(y)) ensures x == y {
      OutputAt(b, off, x);
      OutputAt(b, off, y);
      U16Unique(b, off + 1, x.index, y.index);
      UvarintUnique(b, off + 3, x.amount, y.amount);
    }
  }

  lemma ListUnique<T(!new)>(encode: T -> Bytes, b: Bytes, off: nat, x: seq<T>, y: seq<T>)
    requires PrefixFree(encode) && At(b, off, ListBytes(encode, x)) && At(b, off, ListBytes(encode, y))
    ensures x == y
  {
    AtSplit(b, off, Uvarint(|x|), Concat(encode, x));
    AtSplit(b, off, Uvarint(|y|), Concat(encode, y));
    UvarintUnique(b, off, |x|, |y|);
    ListResumes(encode, b, off + |Uvarint(|x|)|, x, y);
  }

  /** Where the parts of a header stand. */
  lemma HeaderAt(b: Bytes, off: nat, h: Header)
    ensures At(b, off, HeaderBytes(h)) <==>
              && off < |b| && b[off] == Presence(h)
              && At(b, off + 1, OptionalId(h.asset))
              && At(b, off + 1 + |OptionalId(h.asset)|, OptionalControl(h.control))
              && At(b, off + 1 + |OptionalId(h.asset)| + |OptionalControl(h.control)|, OptionalMetadata(h.metadata))
  {
    hide At, OptionalId, OptionalControl, OptionalMetadata, Presence;
    TagAt(b, off, Presence(h), OptionalId(h.asset) + (OptionalControl(h.control) + OptionalMetadata(h.metadata)));
    AtSplit(b, off + 1, OptionalId(h.asset), OptionalControl(h.control) + OptionalMetadata(h.metadata));
    AtSplit(b, off + 1 + |OptionalId(h.asset)|, OptionalControl(h.control), OptionalMetadata(h.metadata));
  }

  lemma HeaderUnique(b: Bytes, off: nat, x: Header, y: Header)
    requires At(b, off, HeaderBytes(x)) && At(b, off, HeaderBytes(y))
    ensures x == y
  {
    hide At, HeaderBytes, IdBytes, ControlBytes, ListBytes, EntryBytes, PrefixFree;
    HeaderAt(b, off, x);
    HeaderAt(b, off, y);
    EntriesPrefixFree();
    if x.asset.Some? { IdUnique(b, off + 1, x.asset.value, y.asset.value); }
    var past := off + 1 + |OptionalId(x.asset)|;
    if x.control.Some? { ControlUnique(b, past, x.control.value, y.control.value); }
    if x.metadata.Some? {
      ListUnique(EntryBytes, b, past + |OptionalControl(x.control)|, x.metadata.value, y.metadata.value);
    }
  }

  lemma GroupAt(b: Bytes, off: nat, g: Group)
    ensures At(b, off, GroupBytes(g)) <==>
              var first := off + |HeaderBytes(g.header)|;
              && At(b, off, HeaderBytes(g.header)) && At(b, first, ListBytes(InputBytes, g.inputs))
              && At(b, first + |ListBytes(InputBytes, g.inputs)|, ListBytes(OutputBytes, g.outputs))
  {
    hide At, HeaderBytes, ListBytes;
    var (inputs, outputs) := (ListBytes(InputBytes, g.inputs), ListBytes(OutputBytes, g.outputs));
    AtSplit(b, off, HeaderBytes(g.header), inputs + outputs);
    AtSplit(b, off + |HeaderBytes(g.header)|, inputs, outputs);
  }

  lemma GroupsPrefixFree()
    ensures PrefixFree(GroupBytes)
  {
    forall b: Bytes, off: nat, x: Group, y: Group | At(b, off, GroupBytes(x)) && At(b, off, GroupBytes(y)) ensures x == y {
      GroupUnique(b, off, x, y);
    }
  }

  lemma GroupUnique(b: Bytes, off: nat, x: Group, y: Group)
    requires At(b, off, GroupBytes(x)) && At(b, off, GroupBytes(y))
    ensures x == y
  {
    hide At, GroupBytes, HeaderBytes, ListBytes, InputBytes, OutputBytes, PrefixFree;
    GroupAt(b, off, x);
    GroupAt(b, off, y);
    InputsPrefixFree();
    OutputsPrefixFree();
    HeaderUnique(b, off, x.header, y.header);
    var first := off + |HeaderBytes(x.header)|;
    ListUnique(InputBytes, b, first, x.inputs, y.inputs);
    ListUnique(OutputBytes, b, first + |ListBytes(InputBytes, x.inputs)|, x.outputs, y.outputs);
  }
}
