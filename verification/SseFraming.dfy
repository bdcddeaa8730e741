/**
 Incremental framing of the event stream: a UTF-8 tail buffer and a blank-line frame splitter. However the
 transport cuts the bytes, the frames are those of the whole text.
*/
module SseFraming {
  import opened Common

  const MAX_SSE_FRAME_BYTES := 1_048_576

  const CRLF: Bytes := [13, 10, 13, 10]
  const LF: Bytes := [10, 10]

  // ----- UTF-8 (section 4 of RFC 3629) -----

  /** Length of the character a lead byte opens; zero if no character starts so. */
  function Needed(lead: byte): nat {
    if lead < 0x80 then 1
    else if 0xC2 <= lead <= 0xDF then 2
    else if 0xE0 <= lead <= 0xEF then 3
    else if 0xF0 <= lead <= 0xF4 then 4
    else 0
  }

  predicate Continuation(b: byte) { 0x80 <= b <= 0xBF }

  predicate SecondByte(lead: byte, b: byte) {
    if lead == 0xE0 then 0xA0 <= b <= 0xBF
    else if lead == 0xED then 0x80 <= b <= 0x9F
    else if lead == 0xF0 then 0x90 <= b <= 0xBF
    else if lead == 0xF4 then 0x80 <= b <= 0x8F
    else Continuation(b)
  }

  datatype Reading = Whole | Cut | Malformed

  /** How the first character of a non-empty text reads. */
  function FirstCharacter(b: Bytes): Reading
    requires b != []
  {
    var n := Needed(b[0]);
    if n == 0 then Malformed
    else if n >= 2 && |b| >= 2 && !SecondByte(b[0], b[1]) then Malformed
    else if n >= 3 && |b| >= 3 && !Continuation(b[2]) then Malformed
    else if n >= 4 && |b| >= 4 && !Continuation(b[3]) then Malformed
    else if |b| < n then Cut
    else Whole
  }

  /** Bytes of whole characters at the front, and how what follows reads. */
  function Scan(b: Bytes): (r: (nat, Reading))
    ensures r.0 <= |b| && (r.1.Whole? ==> r.0 == |b|)
  {
    if b == [] then (0, Whole)
    else
      match FirstCharacter(b)
      case Whole =>
        var (rest, end) := Scan(b[Needed(b[0])..]);
        (Needed(b[0]) + rest, end)
      case r => (0, r)
  }

  function ValidText(b: Bytes): Bytes { b[..Scan(b).0] }

  /** A whole first character stays the first character. */
  lemma CharacterStays(a: Bytes, more: Bytes)
    requires a != [] && !FirstCharacter(a).Cut?
    ensures FirstCharacter(a + more) == FirstCharacter(a)
    ensures FirstCharacter(a).Whole? ==> 1 <= Needed(a[0]) <= |a| && (a + more)[Needed(a[0])..] == a[Needed(a[0])..] + more
  {}

  /** Scanning resumes where whole characters ended. */
  lemma {:induction false} ScanResumes(a: Bytes, more: Bytes)
    requires !Scan(a).1.Malformed?
    ensures Scan(a + more).0 == Scan(a).0 + Scan(a[Scan(a).0..] + more).0
    ensures Scan(a + more).1 == Scan(a[Scan(a).0..] + more).1
    decreases |a|
  {
    hide FirstCharacter, Needed;
    if a == [] {
      assert a + more == more && a[0..] + more == more;
    } else if FirstCharacter(a).Whole? {
      var n := Needed(a[0]);
      CharacterStays(a, more);
      ScanResumes(a[n..], more);
      assert a[n..][Scan(a[n..]).0..] == a[Scan(a).0..];
    } else {
      assert a[0..] == a;
    }
  }

  /** Bad bytes stay bad. */
  lemma {:induction false} MalformedStays(a: Bytes, more: Bytes)
    requires Scan(a).1.Malformed?
    ensures Scan(a + more).1.Malformed?
    decreases |a|
  {
    hide FirstCharacter, Needed;
    CharacterStays(a, more);
    if FirstCharacter(a).Whole? { MalformedStays(a[Needed(a[0])..], more); }
  }

  // ----- the same by what is encoded (section 3 of RFC 3629) -----

  type Scalar = c: nat | c < 0xD800 || 0xE000 <= c <= 0x10FFFF

  function Encoded(c: Scalar): (b: Bytes)
    ensures 1 <= |b| <= 4
  {
    if c < 0x80 then [c]
    else if c < 0x800 then [0xC0 + c / 0x40, 0x80 + c % 0x40]
    else if c < 0x1_0000 then [0xE0 + c / 0x1000, 0x80 + c / 0x40 % 0x40, 0x80 + c % 0x40]
    else [0xF0 + c / 0x4_0000, 0x80 + c / 0x1000 % 0x40, 0x80 + c / 0x40 % 0x40, 0x80 + c % 0x40]
  }

  /** An encoding is one whole character; a beginning of one is cut. */
  lemma EncodedReads(c: Scalar, n: nat)
    requires 0 < n <= |Encoded(c)|
    ensures Needed(Encoded(c)[0]) == |Encoded(c)|
    ensures FirstCharacter(Encoded(c)[..n]) == if n < |Encoded(c)| then Cut else Whole
  {
    var b := Encoded(c);
    assert b[..n][0] == b[0];
    if 0x800 <= c < 0x1_0000 { ThreeBytes(c); }
    if 0x1_0000 <= c { FourBytes(c); }
  }

  lemma ThreeBytes(c: Scalar)
    requires 0x800 <= c < 0x1_0000
    ensures SecondByte(Encoded(c)[0], Encoded(c)[1])
  {
    var (lead, second) := (c / 0x1000, c / 0x40 % 0x40);
    assert c / 0x40 == 0x40 * lead + second;
  }

  lemma FourBytes(c: Scalar)
    requires 0x1_0000 <= c
    ensures SecondByte(Encoded(c)[0], Encoded(c)[1])
  {
    var (lead, second) := (c / 0x4_0000, c / 0x1000 % 0x40);
    assert c / 0x1000 == 0x40 * lead + second;
  }

  /** The scalar value of a whole first character. */
  function Decoded(b: Bytes): int
    requires b != [] && FirstCharacter(b).Whole?
  {
    var lead: int := b[0];
    if lead < 0x80 then lead
    else if lead < 0xE0 then 0x40 * (lead - 0xC0) + Low(b[1])
    else if lead < 0xF0 then 0x1000 * (lead - 0xE0) + 0x40 * Low(b[1]) + Low(b[2])
    else 0x4_0000 * (lead - 0xF0) + 0x1000 * Low(b[1]) + 0x40 * Low(b[2]) + Low(b[3])
  }

  /** The six bits a continuation byte carries. */
  function Low(b: byte): int { b - 0x80 }

  lemma DecodedEncodes(b: Bytes)
    requires b != [] && FirstCharacter(b).Whole?
    ensures var c := Decoded(b); (0 <= c < 0xD800 || 0xE000 <= c <= 0x10FFFF) && Encoded(c) == b[..Needed(b[0])]
  {
    if b[0] >= 0xF0 { Quotients(b[0] - 0xF0, Low(b[1]), Low(b[2]), Low(b[3])); }
    else if b[0] >= 0xE0 { Quotients(0, b[0] - 0xE0, Low(b[1]), Low(b[2])); }
  }

  lemma Quotients(p: int, q: int, r: int, s: int)
    requires 0 <= q < 0x40 && 0 <= r < 0x40 && 0 <= s < 0x40
    ensures var c := 0x4_0000 * p + 0x1000 * q + 0x40 * r + s;
            c / 0x4_0000 == p && c / 0x1000 == 0x40 * p + q && c / 0x1000 % 0x40 == q && c / 0x40 % 0x40 == r && c % 0x40 == s
  {
    var c := 0x4_0000 * p + 0x1000 * q + 0x40 * r + s;
    assert c / 0x40 == 0x1000 * p + 0x40 * q + r;
    assert c / 0x1000 == 0x40 * p + q;
  }

  /** The least completion of a cut character. */
  function Completed(b: Bytes): (r: Bytes)
    requires b != [] && FirstCharacter(b).Cut?
    ensures b < r && FirstCharacter(r).Whole? && |r| == Needed(r[0])
  {
    var second := if b[0] == 0xE0 then 0xA0 else if b[0] == 0xF0 then 0x90 else 0x80;
    if |b| == 1 then [b[0], second, 0x80, 0x80][..Needed(b[0])] else (b + [0x80, 0x80])[..Needed(b[0])]
  }

  /** A character is whole exactly when an encoding opens the text, and cut exactly when the text opens an encoding. */
  lemma FirstCharacterIsExact(b: Bytes)
    requires b != []
    ensures FirstCharacter(b).Whole? <==> exists c: Scalar :: Encoded(c) <= b
    ensures FirstCharacter(b).Cut? <==> exists c: Scalar :: b < Encoded(c)
    ensures forall c: Scalar :: Encoded(c) <= b ==> |Encoded(c)| == Needed(b[0])
  {
    hide FirstCharacter, Needed, Decoded, Encoded;
    forall c: Scalar | Encoded(c) <= b ensures FirstCharacter(b).Whole? && |Encoded(c)| == Needed(b[0]) {
      EncodedReads(c, |Encoded(c)|);
      assert Encoded(c)[..|Encoded(c)|] == Encoded(c) && Encoded(c) + b[|Encoded(c)|..] == b;
      CharacterStays(Encoded(c), b[|Encoded(c)|..]);
    }
    forall c: Scalar | b < Encoded(c) ensures FirstCharacter(b).Cut? {
      EncodedReads(c, |b|);
      assert Encoded(c)[..|b|] == b;
    }
    if FirstCharacter(b).Whole? { DecodedEncodes(b); }
    if FirstCharacter(b).Cut? {
      DecodedEncodes(Completed(b));
      assert Completed(b)[..|Completed(b)|] == Completed(b);
    }
  }

  function AllEncoded(text: seq<Scalar>): Bytes { if text == [] then [] else Encoded(text[0]) + AllEncoded(text[1..]) }

  /**
   The scanned bytes are the encoding of some text, and what follows is nothing, the beginning of one more character,
   or bytes that neither are nor begin one.
  */
  lemma {:induction false} ScanIsExact(b: Bytes) returns (text: seq<Scalar>)
    ensures b[..Scan(b).0] == AllEncoded(text)
    ensures var rest := b[Scan(b).0..];
            && (rest == [] <==> Scan(b).1.Whole?)
            && (Scan(b).1.Cut? <==> rest != [] && exists c: Scalar :: rest < Encoded(c))
            && (Scan(b).1.Malformed? ==> forall c: Scalar :: !(Encoded(c) <= rest))
    decreases |b|
  {
    hide FirstCharacter, Needed, Decoded, Encoded;
    if b == [] {
      text := [];
    } else {
      FirstCharacterIsExact(b);
      if FirstCharacter(b).Whole? {
        var n := Needed(b[0]);
        CharacterStays(b, []);
        DecodedEncodes(b);
        var later := ScanIsExact(b[n..]);
        text := [Decoded(b)] + later;
        assert text[1..] == later && b[n..][Scan(b[n..]).0..] == b[Scan(b).0..];
        assert b[..Scan(b).0] == b[..n] + b[n..][..Scan(b[n..]).0];
      } else {
        text := [];
        assert b[0..] == b;
      }
    }
  }

  // ----- frames -----

  /** First position of a pattern. */
  function Find(b: Bytes, pattern: Bytes): (r: Option<nat>)
    ensures r.Some? ==> r.value + |pattern| <= |b|
  {
    if |b| < |pattern| then None
    else if b[..|pattern|] == pattern then Some(0)
    else if b == [] then None
    else match Find(b[1..], pattern) case None => None case Some(i) => Some(i + 1)
  }

  /** The earliest blank line of either style: where it starts and how long it is. */
  function Delimiter(b: Bytes): (r: Option<(nat, nat)>)
    ensures r.Some? ==> r.value.0 + r.value.1 <= |b| && r.value.1 > 0
  {
    match (Find(b, CRLF), Find(b, LF))
    case (Some(i), Some(j)) => if i <= j then Some((i, 4)) else Some((j, 2))
    case (Some(i), None) => Some((i, 4))
    case (None, Some(j)) => Some((j, 2))
    case (None, None) => None
  }

  /** Every frame of a text, and what is left unterminated. */
  function Frames(b: Bytes): (seq<Bytes>, Bytes)
    decreases |b|
  {
    match Delimiter(b)
    case None => ([], b)
    case Some((i, len)) =>
      var (later, rest) := Frames(b[i + len..]);
      ([b[..i]] + later, rest)
  }

  /** `Find` gives the least position, if there is any. */
  lemma {:induction false} FindIsFirst(b: Bytes, pattern: Bytes)
    requires pattern != []
    ensures forall i: nat :: At(b, i, pattern) ==> Find(b, pattern).Some? && Find(b, pattern).value <= i
  {
    if |b| >= |pattern| && b[..|pattern|] != pattern {
      FindIsFirst(b[1..], pattern);
      forall i: nat | At(b, i, pattern) ensures Find(b, pattern).Some? && Find(b, pattern).value <= i {
        assert i > 0 && b[1..][i - 1..i - 1 + |pattern|] == b[i..i + |pattern|];
        assert At(b[1..], i - 1, pattern);
      }
    }
  }

  lemma AtExtends(b: Bytes, more: Bytes, pattern: Bytes, i: nat)
    requires i + |pattern| <= |b|
    ensures At(b, i, pattern) <==> At(b + more, i, pattern)
  {
    assert (b + more)[i..i + |pattern|] == b[i..i + |pattern|];
  }

  /** A pattern found stays the first one when text is appended. */
  lemma FoundStays(b: Bytes, more: Bytes, pattern: Bytes)
    requires pattern != [] && Find(b, pattern).Some?
    ensures Find(b + more, pattern) == Find(b, pattern)
  {
    hide Find, At;
    FoundAt(b, pattern);
    FindIsFirst(b, pattern);
    FindIsFirst(b + more, pattern);
    AtExtends(b, more, pattern, Find(b, pattern).value);
    FoundAt(b + more, pattern);
    AtExtends(b, more, pattern, Find(b + more, pattern).value);
  }

  /** One not found appears only past the old end. */
  lemma FoundLate(b: Bytes, more: Bytes, pattern: Bytes)
    requires pattern != [] && Find(b, pattern).None? && Find(b + more, pattern).Some?
    ensures Find(b + more, pattern).value + |pattern| > |b|
  {
    hide Find, At;
    var i := Find(b + more, pattern).value;
    FindIsFirst(b, pattern);
    FoundAt(b + more, pattern);
    if i + |pattern| <= |b| { AtExtends(b, more, pattern, i); }
  }

  lemma FindExtends(b: Bytes, more: Bytes, pattern: Bytes)
    requires pattern != []
    ensures Find(b, pattern).Some? ==> Find(b + more, pattern) == Find(b, pattern)
    ensures Find(b, pattern).None? && Find(b + more, pattern).Some? ==> Find(b + more, pattern).value + |pattern| > |b|
  {
    hide Find;
    if Find(b, pattern).Some? { FoundStays(b, more, pattern); }
    else if Find(b + more, pattern).Some? { FoundLate(b, more, pattern); }
  }

  lemma {:induction false} FoundAt(b: Bytes, pattern: Bytes)
    requires pattern != []
    ensures Find(b, pattern).Some? ==> At(b, Find(b, pattern).value, pattern)
  {
    if |b| >= |pattern| && b[..|pattern|] != pattern {
      FoundAt(b[1..], pattern);
      if Find(b[1..], pattern).Some? {
        var i := Find(b[1..], pattern).value;
        assert b[1..][i..i + |pattern|] == b[i + 1..i + 1 + |pattern|];
      }
    }
  }

  /** The characters at a delimiter. */
  lemma Characters(b: Bytes, i: nat)
    ensures At(b, i, CRLF) ==> b[i] == 13 && b[i + 1] == 10 && b[i + 2] == 13 && b[i + 3] == 10
    ensures At(b, i, LF) ==> b[i] == 10 && b[i + 1] == 10
  {
    if At(b, i, CRLF) { assert b[i..i + 4][0] == 13 && b[i..i + 4][1] == 10 && b[i..i + 4][2] == 13 && b[i..i + 4][3] == 10; }
    if At(b, i, LF) { assert b[i..i + 2][0] == 10 && b[i..i + 2][1] == 10; }
  }

  /** The two styles never overlap so as to change which comes first: a delimiter seen stays the earliest. */
  lemma DelimiterExtends(b: Bytes, more: Bytes)
    requires Delimiter(b).Some?
    ensures Delimiter(b + more) == Delimiter(b)
  {
    var whole := b + more;
    FoundAt(whole, CRLF);
    FoundAt(whole, LF);
    hide Find, At;
    FindExtends(b, more, CRLF);
    FindExtends(b, more, LF);
    if Find(whole, CRLF).Some? { Characters(whole, Find(whole, CRLF).value); }
    if Find(whole, LF).Some? { Characters(whole, Find(whole, LF).value); }
  }

  function Prepend(frames: seq<Bytes>, r: (seq<Bytes>, Bytes)): (seq<Bytes>, Bytes) { (frames + r.0, r.1) }

  /** Framing a text at once or as it arrives gives the same frames. */
  lemma {:induction false} FramesResume(b: Bytes, more: Bytes)
    ensures Frames(b + more) == Prepend(Frames(b).0, Frames(Frames(b).1 + more))
    decreases |b|
  {
    hide Delimiter;
    match Delimiter(b)
    case None => PrependNothing(Frames(b + more));
    case Some((i, len)) =>
      DelimiterExtends(b, more);
      FramesResume(b[i + len..], more);
      assert (b + more)[i + len..] == b[i + len..] + more && (b + more)[..i] == b[..i];
      PrependTwice([b[..i]], Frames(b[i + len..]).0, Frames(Frames(b[i + len..]).1 + more));
  }

  lemma PrependNothing(r: (seq<Bytes>, Bytes))
    ensures Prepend([], r) == r
  {
    assert [] + r.0 == r.0;
  }

  lemma PrependTwice(a: seq<Bytes>, b: seq<Bytes>, r: (seq<Bytes>, Bytes))
    ensures Prepend(a, Prepend(b, r)) == Prepend(a + b, r)
  {
    assert a + (b + r.0) == a + b + r.0;
  }

  /** A blank line of either style, and its length. */
  predicate BlankLineAt(b: Bytes, i: nat, len: nat) {
    || (len == 4 && i + 4 <= |b| && b[i] == 13 && b[i + 1] == 10 && b[i + 2] == 13 && b[i + 3] == 10)
    || (len == 2 && i + 2 <= |b| && b[i] == 10 && b[i + 1] == 10)
  }

  ghost predicate NoneBefore(b: Bytes, end: nat) { forall j: nat, len: nat :: j < end ==> !BlankLineAt(b, j, len) }

  lemma BlankLineIsPattern(b: Bytes, i: nat)
    ensures BlankLineAt(b, i, 4) <==> At(b, i, CRLF)
    ensures BlankLineAt(b, i, 2) <==> At(b, i, LF)
  {
    if i + 4 <= |b| { assert b[i..i + 4] == [b[i], b[i + 1], b[i + 2], b[i + 3]]; }
    if i + 2 <= |b| { assert b[i..i + 2] == [b[i], b[i + 1]]; }
  }

  /** The delimiter is the earliest blank line. */
  lemma DelimiterIsEarliest(b: Bytes)
    ensures Delimiter(b).Some? ==>
              BlankLineAt(b, Delimiter(b).value.0, Delimiter(b).value.1) && NoneBefore(b, Delimiter(b).value.0)
    ensures Delimiter(b).None? ==> NoneBefore(b, |b|)
  {
    hide Find, BlankLineAt, At;
    FindIsFirst(b, CRLF);
    FindIsFirst(b, LF);
    FoundAt(b, CRLF);
    FoundAt(b, LF);
    if Delimiter(b).Some? { BlankLineIsPattern(b, Delimiter(b).value.0); }
    forall j: nat, len: nat | BlankLineAt(b, j, len) ensures Delimiter(b).Some? && Delimiter(b).value.0 <= j {
      BlankLineLength(b, j, len);
      BlankLineIsPattern(b, j);
    }
  }

  lemma BlankLineLength(b: Bytes, j: nat, len: nat)
    requires BlankLineAt(b, j, len)
    ensures len == 4 || len == 2
  {}

  /** A text without a blank line is one unterminated rest; otherwise its first frame ends at the earliest one. */
  lemma FramesAreExact(b: Bytes, i: nat, len: nat)
    ensures NoneBefore(b, |b|) ==> Frames(b) == ([], b)
    ensures BlankLineAt(b, i, len) && NoneBefore(b, i) ==>
              i + len <= |b| && Frames(b) == ([b[..i]] + Frames(b[i + len..]).0, Frames(b[i + len..]).1)
  {
    hide Delimiter;
    DelimiterIsEarliest(b);
    if Delimiter(b).Some? { SameStyle(b, i, len, Delimiter(b).value.1); }
  }

  lemma SameStyle(b: Bytes, i: nat, one: nat, other: nat)
    ensures BlankLineAt(b, i, one) && BlankLineAt(b, i, other) ==> one == other
    ensures BlankLineAt(b, i, one) ==> i < i + one <= |b|
  {}

  /** Popping one frame. */
  lemma FramePopped(b: Bytes)
    ensures Delimiter(b).None? ==> Frames(b) == ([], b)
    ensures Delimiter(b).Some? ==>
              Frames(b) == Prepend([b[..Delimiter(b).value.0]], Frames(b[Delimiter(b).value.0 + Delimiter(b).value.1..]))
  {}

  /** `buffer` is what taking `frame` off the front of `here` leaves. */
  predicate Popped(here: Bytes, frame: Option<Bytes>, buffer: Bytes) {
    match Delimiter(here)
    case None => frame == None && buffer == here
    case Some((i, len)) => frame == Some(here[..i]) && buffer == here[i + len..]
  }

  // ----- the loop -----

  datatype StreamError = OversizedChunk | NotUtf8 | OversizedFrame | Unterminated

  function Joined(chunks: seq<Bytes>): Bytes {
    if chunks == [] then [] else Joined(chunks[..|chunks| - 1]) + chunks[|chunks| - 1]
  }

  predicate SmallFrames(frames: seq<Bytes>) { forall f <- frames :: |f| <= MAX_SSE_FRAME_BYTES }

  /** No limit trips and no bad byte shows when chunk `k` arrives. */
  predicate Receivable(chunks: seq<Bytes>, k: nat)
    requires k < |chunks|
  {
    var all := Joined(chunks[..k + 1]);
    && |chunks[k]| <= MAX_SSE_FRAME_BYTES
    && !Scan(all).1.Malformed?
    && SmallFrames(Frames(ValidText(all)).0) && |Frames(ValidText(all)).1| <= MAX_SSE_FRAME_BYTES
  }

  class Framer {
    var pending: Bytes
    var buffer: Bytes

    constructor ()
      ensures pending == [] && buffer == []
    {
      pending, buffer := [], [];
    }

    /** `take_sse_frame`: the first frame, removed together with its delimiter. */
    method TakeFrame() returns (frame: Option<Bytes>)
      modifies this`buffer
      ensures Popped(old(buffer), frame, buffer)
    {
      var crlf, lf := Find(buffer, CRLF), Find(buffer, LF);
      var index, length;
      if crlf.Some? && (lf.None? || crlf.value <= lf.value) { index, length := crlf.value, 4; }
      else if lf.Some? { index, length := lf.value, 2; }
      else { return None; }
      frame := Some(buffer[..index]);
      buffer := buffer[index + length..];
    }

    /** One transport chunk: extend the text by the whole characters now available and pop its frames. */
    method Receive(chunk: Bytes) returns (r: Result<seq<Bytes>, StreamError>)
      modifies this
      ensures var arrived := old(pending) + chunk;
              var (frames, rest) := Frames(old(buffer) + ValidText(arrived));
              var small := forall f <- frames :: |f| <= 1_048_576;
              && (r == Err(OversizedChunk) <==> |chunk| > 1_048_576)
              && (r == Err(NotUtf8) <==> |chunk| <= 1_048_576 && Scan(arrived).1.Malformed?)
              && (r == Err(OversizedFrame) <==> |chunk| <= 1_048_576 && !Scan(arrived).1.Malformed? && !small)
              && (r.Ok? <==> |chunk| <= 1_048_576 && !Scan(arrived).1.Malformed? && small && |rest| <= 1_048_576)
              && (r.Ok? ==> r.value == frames && buffer == rest && pending == arrived[Scan(arrived).0..])
    {
      if |chunk| > MAX_SSE_FRAME_BYTES { return Err(OversizedChunk); }
      pending := pending + chunk;
      var (valid, end) := Scan(pending);
      if end.Malformed? { return Err(NotUtf8); }
      buffer := buffer + pending[..valid];
      pending := pending[valid..];
      hide Frames, Delimiter, Scan;
      ghost var text := buffer;
      ghost var here := buffer;
      var frames: seq<Bytes> := [];
      var frame := TakeFrame();
      PrependNothing(Frames(text));
      NextFrame(text, frames, here, frame, buffer);
      while frame.Some?
        invariant SmallFrames(frames)
        invariant Frames(text) == Prepend(Taken(frames, frame), Frames(buffer))
        invariant frame.None? ==> Frames(buffer) == ([], buffer)
        invariant pending == (old(pending) + chunk)[valid..]
        decreases if frame.Some? then |buffer| + 1 else 0
      {
        if |frame.value| > MAX_SSE_FRAME_BYTES {
          TooLong(frames, frame.value, Frames(buffer));
          return Err(OversizedFrame);
        }
        frames := frames + [frame.value];
        here := buffer;
        frame := TakeFrame();
        NextFrame(text, frames, here, frame, buffer);
      }
      if |buffer| > MAX_SSE_FRAME_BYTES { return Err(Unterminated); }
      return Ok(frames);
    }
  }

  function Taken(frames: seq<Bytes>, frame: Option<Bytes>): seq<Bytes> {
    match frame case None => frames case Some(f) => frames + [f]
  }

  lemma NextFrame(text: Bytes, frames: seq<Bytes>, here: Bytes, frame: Option<Bytes>, buffer: Bytes)
    requires Frames(text) == Prepend(frames, Frames(here))
    requires Popped(here, frame, buffer)
    ensures Frames(text) == Prepend(Taken(frames, frame), Frames(buffer))
    ensures frame.None? ==> Frames(buffer) == ([], buffer)
    ensures frame.Some? ==> |buffer| < |here|
  {
    hide Frames, Delimiter;
    FramePopped(here);
    if frame.Some? { PrependTwice(frames, [frame.value], Frames(buffer)); }
  }

  lemma TooLong(frames: seq<Bytes>, frame: Bytes, later: (seq<Bytes>, Bytes))
    requires |frame| > MAX_SSE_FRAME_BYTES
    ensures !SmallFrames(Prepend(frames + [frame], later).0)
  {
    assert frame in Prepend(frames + [frame], later).0;
  }

  /** The event loop over a stream of chunks. */
  method ReceiveAll(chunks: seq<Bytes>) returns (r: Result<seq<Bytes>, StreamError>)
    ensures r.Ok? <==> forall k :: 0 <= k < |chunks| ==> Receivable(chunks, k)
    ensures r.Ok? ==> r.value == Frames(ValidText(Joined(chunks))).0
  {
    hide Frames, Scan, Joined;
    var framer := new Framer();
    var frames: seq<Bytes> := [];
    NothingYet();
    assert chunks[..0] == [];
    for k := 0 to |chunks|
      invariant fresh(framer)
      invariant forall j :: 0 <= j < k ==> Receivable(chunks, j)
      invariant SmallFrames(frames)
      invariant Reached(Joined(chunks[..k]), framer.pending, framer.buffer, frames)
    {
      ChunkArrives(chunks, k, framer.pending, framer.buffer, frames);
      var next := framer.Receive(chunks[k]);
      if next.Err? { return Err(next.error); }
      frames := frames + next.value;
    }
    assert chunks[..|chunks|] == chunks;
    return Ok(frames);
  }

  /** The text so far is well formed, its frames are out, and both buffers hold exactly the rest. */
  predicate Reached(all: Bytes, pending: Bytes, buffer: Bytes, frames: seq<Bytes>) {
    && !Scan(all).1.Malformed? && pending == all[Scan(all).0..]
    && Frames(ValidText(all)) == (frames, buffer)
  }

  lemma NothingYet()
    ensures Reached(Joined([]), [], [], [])
  {}

  lemma ChunkArrives(chunks: seq<Bytes>, k: nat, pending: Bytes, buffer: Bytes, frames: seq<Bytes>)
    requires k < |chunks| && Reached(Joined(chunks[..k]), pending, buffer, frames) && SmallFrames(frames)
    ensures var arrived := pending + chunks[k];
            var (more, rest) := Frames(buffer + ValidText(arrived));
            && (Receivable(chunks, k)
                <==> |chunks[k]| <= MAX_SSE_FRAME_BYTES && !Scan(arrived).1.Malformed?
                     && SmallFrames(more) && |rest| <= MAX_SSE_FRAME_BYTES)
            && (!Scan(arrived).1.Malformed? ==>
                  Reached(Joined(chunks[..k + 1]), arrived[Scan(arrived).0..], rest, frames + more))
  {
    hide Frames, Scan;
    assert chunks[..k + 1][..k] == chunks[..k];
    TextGrows(Joined(chunks[..k]), chunks[k]);
    FramesResume(ValidText(Joined(chunks[..k])), ValidText(pending + chunks[k]));
  }

  lemma TextGrows(before: Bytes, chunk: Bytes)
    requires !Scan(before).1.Malformed?
    ensures var arrived := before[Scan(before).0..] + chunk;
            && Scan(before + chunk).1 == Scan(arrived).1
            && ValidText(before + chunk) == ValidText(before) + ValidText(arrived)
            && (before + chunk)[Scan(before + chunk).0..] == arrived[Scan(arrived).0..]
  {
    hide Scan;
    ScanResumes(before, chunk);
    var v := Scan(before).0;
    Slices(before, chunk, v, Scan(before[v..] + chunk).0);
  }

  lemma Slices(before: Bytes, chunk: Bytes, v: nat, u: nat)
    requires v <= |before| && u <= |before[v..] + chunk|
    ensures (before + chunk)[..v + u] == before[..v] + (before[v..] + chunk)[..u]
    ensures (before + chunk)[v + u..] == (before[v..] + chunk)[u..]
  {
    assert before + chunk == before[..v] + (before[v..] + chunk);
  }

  // ----- every split of a well-formed stream -----

  /**
   The limit leaves room for a text however it is cut: each frame fits together with all but the last byte of its
   delimiter, and so does what is left unterminated.
  */
  predicate Roomy(b: Bytes)
    decreases |b|
  {
    match Delimiter(b)
    case None => |b| <= MAX_SSE_FRAME_BYTES
    case Some((i, len)) => i + len - 1 <= MAX_SSE_FRAME_BYTES && Roomy(b[i + len..])
  }

  /** A delimiter that completes only later ends past the text seen before. */
  lemma DelimiterLate(b: Bytes, more: Bytes)
    requires Delimiter(b).None? && Delimiter(b + more).Some?
    ensures Delimiter(b + more).value.0 + Delimiter(b + more).value.1 > |b|
  {
    hide Find;
    FindExtends(b, more, CRLF);
    FindExtends(b, more, LF);
  }

  lemma EndsInNewline(b: Bytes)
    requires Delimiter(b).Some?
    ensures b[Delimiter(b).value.0 + Delimiter(b).value.1 - 1] == 10
  {
    FoundAt(b, CRLF);
    FoundAt(b, LF);
    hide Find, At;
    if Find(b, CRLF).Some? { Characters(b, Find(b, CRLF).value); }
    if Find(b, LF).Some? { Characters(b, Find(b, LF).value); }
  }

  /** With room for the whole, nothing overflows at any prefix. */
  lemma {:induction false} RoomForPrefix(b: Bytes, more: Bytes)
    requires Roomy(b + more)
    ensures SmallFrames(Frames(b).0) && |Frames(b).1| <= MAX_SSE_FRAME_BYTES
    decreases |b|
  {
    hide Delimiter;
    match Delimiter(b)
    case None =>
      if Delimiter(b + more).Some? { DelimiterLate(b, more); }
    case Some((i, len)) =>
      DelimiterExtends(b, more);
      assert (b + more)[i + len..] == b[i + len..] + more;
      RoomForPrefix(b[i + len..], more);
  }

  /** Cutting before or at a place leaves the delimiters that end before it as they were. */
  lemma DelimiterKept(b: Bytes, n: nat)
    requires n <= |b| && Delimiter(b).Some?
    ensures Delimiter(b[..n]) == if Delimiter(b).value.0 + Delimiter(b).value.1 <= n then Delimiter(b) else None
  {
    hide Delimiter;
    assert b[..n] + b[n..] == b;
    if Delimiter(b[..n]).Some? { DelimiterExtends(b[..n], b[n..]); } else { DelimiterLate(b[..n], b[n..]); }
  }

  /** Without room, some prefix overflows: one that ends with the text or just before the last byte of a delimiter. */
  lemma {:induction false} TightPrefix(b: Bytes) returns (n: nat)
    requires !Roomy(b)
    ensures n <= |b| && (n < |b| ==> b[n] == 10) && |Frames(b[..n]).1| > MAX_SSE_FRAME_BYTES
    decreases |b|
  {
    hide Delimiter;
    match Delimiter(b)
    case None =>
      n := |b|;
      assert b[..n] == b;
    case Some((i, len)) =>
      if i + len - 1 > MAX_SSE_FRAME_BYTES {
        n := i + len - 1;
        EndsInNewline(b);
      } else {
        var m := TightPrefix(b[i + len..]);
        n := i + len + m;
        assert b[..n][i + len..] == b[i + len..][..m];
      }
      DelimiterKept(b, n);
  }

  /** Before a character of one byte, only whole characters stand. */
  lemma {:induction false} BoundaryBefore(b: Bytes, n: nat)
    requires n < Scan(b).0 && b[n] < 0x80
    ensures Scan(b[..n]) == (n, Whole)
    decreases |b|
  {
    if n > 0 {
      var m := Needed(b[0]);
      assert b[n] < 0x80 && FirstCharacter(b).Whole? && m <= n;
      CharacterStays(b[..m], b[m..n]);
      assert b[..m] + b[m..n] == b[..n] && b[m..][..n - m] == b[..n][m..];
      BoundaryBefore(b[m..], n - m);
    }
  }

  lemma {:induction false} JoinedPrefix(chunks: seq<Bytes>, k: nat) returns (later: Bytes)
    requires k <= |chunks|
    ensures Joined(chunks) == Joined(chunks[..k]) + later
  {
    if k == |chunks| {
      later := [];
      assert chunks[..k] == chunks;
    } else {
      var last := |chunks| - 1;
      var before := JoinedPrefix(chunks[..last], k);
      assert chunks[..last][..k] == chunks[..k];
      later := before + chunks[last];
    }
  }

  predicate SmallChunks(chunks: seq<Bytes>) { forall c <- chunks :: |c| <= MAX_SSE_FRAME_BYTES }

  predicate AllReceivable(chunks: seq<Bytes>) { forall k :: 0 <= k < |chunks| ==> Receivable(chunks, k) }

  /** A text without bad bytes that leaves room is received under every split, whatever characters or delimiters it cuts. */
  lemma AnySplitIsReceivable(chunks: seq<Bytes>)
    requires SmallChunks(chunks)
    requires !Scan(Joined(chunks)).1.Malformed? && Roomy(ValidText(Joined(chunks)))
    ensures AllReceivable(chunks)
  {
    hide Scan, Frames, Joined, Roomy;
    forall k | 0 <= k < |chunks| ensures Receivable(chunks, k) {
      var later := JoinedPrefix(chunks, k + 1);
      var all := Joined(chunks[..k + 1]);
      if Scan(all).1.Malformed? { MalformedStays(all, later); }
      TextGrows(all, later);
      RoomForPrefix(ValidText(all), ValidText(all[Scan(all).0..] + later));
    }
  }

  lemma {:induction false} FrameSizes(b: Bytes)
    ensures |Frames(b).1| <= |b| && forall f <- Frames(b).0 :: |f| <= |b|
    decreases |b|
  {
    hide Delimiter;
    if Delimiter(b).Some? { FrameSizes(b[Delimiter(b).value.0 + Delimiter(b).value.1..]); }
  }

  /** The text one byte at a time. */
  function Bytewise(text: Bytes): (r: seq<Bytes>)
    ensures |r| == |text| && SmallChunks(r) && forall k :: 0 <= k < |r| ==> r[k] == [text[k]]
  {
    seq(|text|, i requires 0 <= i < |text| => [text[i]])
  }

  lemma {:induction false} BytewiseJoins(text: Bytes, n: nat)
    requires n <= |text|
    ensures Joined(Bytewise(text)[..n]) == text[..n]
  {
    if n > 0 {
      BytewiseJoins(text, n - 1);
      assert Bytewise(text)[..n][..n - 1] == Bytewise(text)[..n - 1];
      assert text[..n] == text[..n - 1] + [text[n - 1]];
    }
  }

  /** Without room, the split into single bytes is refused. */
  lemma BytewiseFails(text: Bytes)
    requires Scan(text).1.Malformed? || !Roomy(ValidText(text))
    ensures Joined(Bytewise(text)) == text && !AllReceivable(Bytewise(text))
  {
    hide Frames, Joined, Roomy, Scan;
    BytewiseJoins(text, |text|);
    assert Bytewise(text)[..|text|] == Bytewise(text) && text[..|text|] == text;
    var n := |text|;
    if Scan(text).1.Malformed? {
      NotEmpty(text);
    } else {
      n := TightPrefix(ValidText(text));
      FrameSizes(ValidText(text)[..n]);
      PrefixReads(text, n);
      BytewiseJoins(text, n);
    }
    assert !Receivable(Bytewise(text), n - 1) by {
      assert Bytewise(text)[..n - 1 + 1] == Bytewise(text)[..n];
    }
  }

  lemma NotEmpty(text: Bytes)
    requires Scan(text).1.Malformed?
    ensures |text| > 0
  {}

  /** A prefix of the valid text that ends with it or before a newline is itself valid text of a prefix. */
  lemma PrefixReads(text: Bytes, n: nat)
    requires n <= Scan(text).0 && (n < Scan(text).0 ==> text[n] == 10)
    ensures ValidText(text[..n]) == ValidText(text)[..n]
  {
    hide Scan;
    if n < Scan(text).0 { BoundaryBefore(text, n); } else { ScanStops(text); }
  }

  lemma {:induction false} ScanStops(b: Bytes)
    ensures Scan(b[..Scan(b).0]).0 == Scan(b).0
    decreases |b|
  {
    if b != [] && FirstCharacter(b).Whole? {
      var n, v := Needed(b[0]), Scan(b).0;
      ScanStops(b[n..]);
      CharacterStays(b[..n], b[n..v]);
      assert b[..n] + b[n..v] == b[..v] && b[n..][..v - n] == b[..v][n..];
    }
  }

  /** Nothing depends on how the text is cut: every split passes the limits. */
  ghost predicate EverySplitPasses(text: Bytes) {
    forall chunks :: Joined(chunks) == text && SmallChunks(chunks) ==> AllReceivable(chunks)
  }

  /** Exactly the texts that are well formed so far and leave room pass under every split. */
  lemma RoomIsExact(text: Bytes)
    ensures EverySplitPasses(text) <==> !Scan(text).1.Malformed? && Roomy(ValidText(text))
  {
    hide Scan, Roomy, Joined, AllReceivable;
    if !Scan(text).1.Malformed? && Roomy(ValidText(text)) {
      forall chunks | Joined(chunks) == text && SmallChunks(chunks) ensures AllReceivable(chunks) {
        AnySplitIsReceivable(chunks);
      }
    } else {
      BytewiseFails(text);
    }
  }

  // ----- the kindest split -----

  /** A text cut at both ends of every delimiter. */
  function Pieces(b: Bytes): seq<Bytes>
    decreases |b|
  {
    match Delimiter(b)
    case None => [b]
    case Some((i, len)) => [b[..i], b[i..i + len]] + Pieces(b[i + len..])
  }

  lemma {:induction false} JoinedFront(first: Bytes, rest: seq<Bytes>)
    ensures Joined([first] + rest) == first + Joined(rest)
  {
    if rest == [] {
      assert [first] + rest == [first] && [first][..0] == [];
    } else {
      var last := |rest| - 1;
      JoinedFront(first, rest[..last]);
      assert ([first] + rest)[..last + 1] == [first] + rest[..last];
    }
  }

  predicate FramesFit(b: Bytes) { SmallFrames(Frames(b).0) && |Frames(b).1| <= MAX_SSE_FRAME_BYTES }

  /** A place where only whole characters stand before: after or before one of a single byte, or the end. */
  predicate Clean(b: Bytes, n: nat) { n == |b| || (n < |b| && b[n] < 0x80) || (0 < n <= |b| && b[n - 1] < 0x80) }

  /** What follows the first frame of a text. */
  function AfterFrame(b: Bytes): Bytes
    requires Delimiter(b).Some?
  {
    b[Delimiter(b).value.0 + Delimiter(b).value.1..]
  }

  lemma RestFits(b: Bytes)
    requires FramesFit(b) && Delimiter(b).Some?
    ensures FramesFit(AfterFrame(b)) && Delimiter(b).value.0 <= MAX_SSE_FRAME_BYTES
  {
    hide Delimiter;
    var frame := b[..Delimiter(b).value.0];
    var later := Frames(AfterFrame(b)).0;
    assert Frames(b).0 == [frame] + later && Frames(b).0[0] == frame;
    forall f <- later ensures |f| <= MAX_SSE_FRAME_BYTES { assert f in [frame] + later; }
  }

  lemma FirstPieceFits(b: Bytes)
    requires FramesFit(b) && Delimiter(b).Some?
    ensures FramesFit(b[..Delimiter(b).value.0]) && Clean(b, Delimiter(b).value.0)
  {
    RestFits(b);
    DelimiterStarts(b);
    DelimiterKept(b, Delimiter(b).value.0);
    hide Delimiter;
  }

  lemma PrefixSlices(b: Bytes, i: nat, j: nat, m: nat)
    requires i <= j && j + m <= |b|
    ensures b[..j + m][j..] == b[j..][..m] && b[..j + m][..i] == b[..i]
  {}

  lemma SmallPrepend(frame: Bytes, later: (seq<Bytes>, Bytes))
    requires |frame| <= MAX_SSE_FRAME_BYTES && SmallFrames(later.0)
    ensures SmallFrames(Prepend([frame], later).0) && Prepend([frame], later).1 == later.1
  {}

  lemma PrefixPops(b: Bytes, m: nat)
    requires Delimiter(b).Some? && m <= |AfterFrame(b)|
    ensures Frames(b[..Delimiter(b).value.0 + Delimiter(b).value.1 + m])
         == Prepend([b[..Delimiter(b).value.0]], Frames(AfterFrame(b)[..m]))
  {
    hide Delimiter, Frames;
    var (i, len) := Delimiter(b).value;
    DelimiterKept(b, i + len + m);
    PrefixSlices(b, i, i + len, m);
    FramePopped(b[..i + len + m]);
  }

  lemma LaterPiecesFit(b: Bytes, m: nat)
    requires FramesFit(b) && Delimiter(b).Some? && m <= |AfterFrame(b)| && FramesFit(AfterFrame(b)[..m])
    ensures FramesFit(b[..Delimiter(b).value.0 + Delimiter(b).value.1 + m])
  {
    RestFits(b);
    hide Delimiter, Frames, AfterFrame, SmallFrames, Prepend;
    PrefixPops(b, m);
    SmallPrepend(b[..Delimiter(b).value.0], Frames(AfterFrame(b)[..m]));
  }

  lemma LaterPiecesClean(b: Bytes, m: nat)
    requires Delimiter(b).Some? && m <= |AfterFrame(b)| && (m == 0 || Clean(AfterFrame(b), m))
    ensures Clean(b, Delimiter(b).value.0 + Delimiter(b).value.1 + m)
  {
    EndsInNewline(b);
    hide Delimiter;
    var end := Delimiter(b).value.0 + Delimiter(b).value.1;
    if m < |AfterFrame(b)| { assert AfterFrame(b)[m] == b[end + m]; }
    if m > 0 { assert AfterFrame(b)[m - 1] == b[end + m - 1]; }
  }

  lemma LaterPiecesJoin(b: Bytes, k: nat, m: nat)
    requires Delimiter(b).Some? && k <= |Pieces(AfterFrame(b))| && m <= |AfterFrame(b)|
    requires Joined(Pieces(AfterFrame(b))[..k]) == AfterFrame(b)[..m]
    ensures k + 2 <= |Pieces(b)|
    ensures Joined(Pieces(b)[..k + 2]) == b[..Delimiter(b).value.0 + Delimiter(b).value.1 + m]
  {
    hide Delimiter, Joined;
    var (i, len) := Delimiter(b).value;
    assert Pieces(b)[..k + 2] == [b[..i], b[i..i + len]] + Pieces(AfterFrame(b))[..k];
    JoinedPair(b[..i], b[i..i + len], Pieces(AfterFrame(b))[..k]);
    assert b[..i] + (b[i..i + len] + AfterFrame(b)[..m]) == b[..i + len + m];
  }

  /** Cut there, each piece is short, ends cleanly and leaves no more than one frame pending. */
  lemma {:induction false} PiecesFit(b: Bytes, k: nat) returns (n: nat)
    requires FramesFit(b) && k < |Pieces(b)|
    ensures n <= |b| && Joined(Pieces(b)[..k + 1]) == b[..n] && FramesFit(b[..n]) && Clean(b, n)
    ensures |Pieces(b)[k]| <= MAX_SSE_FRAME_BYTES
    ensures k + 1 == |Pieces(b)| ==> n == |b|
    decreases |b|
  {
    hide Delimiter, Joined, FramesFit, Clean;
    if Delimiter(b).None? {
      n := |b|;
      OnePiece(b);
      WholeFits(b);
      assert Pieces(b)[..1] == [b] && b[..n] == b;
    } else {
      var (i, len) := Delimiter(b).value;
      RestFits(b);
      SomePieces(AfterFrame(b));
      DelimiterStarts(b);
      if k == 0 {
        n := i;
        FirstPieceFits(b);
        OnePiece(b[..i]);
        assert Pieces(b)[..1] == [b[..i]];
      } else {
        var m: nat := 0;
        if k == 1 {
          NoPieces();
          NothingFits();
          assert Pieces(AfterFrame(b))[..0] == [] && AfterFrame(b)[..0] == [];
        } else {
          m := PiecesFit(AfterFrame(b), k - 2);
        }
        n := i + len + m;
        LaterPiecesFit(b, m);
        LaterPiecesClean(b, m);
        LaterPiecesJoin(b, k - 1, m);
      }
    }
  }

  lemma WholeFits(b: Bytes)
    requires FramesFit(b) && Delimiter(b).None?
    ensures FramesFit(b[..|b|]) && Clean(b, |b|) && |b| <= MAX_SSE_FRAME_BYTES
  {
    assert b[..|b|] == b;
  }

  lemma NothingFits()
    ensures FramesFit([])
  {}

  lemma NoPieces()
    ensures Joined([]) == []
  {}

  lemma OnePiece(b: Bytes)
    ensures Joined([b]) == b
  {
    assert [b][..0] == [];
  }

  lemma JoinedPair(a: Bytes, b: Bytes, rest: seq<Bytes>)
    ensures Joined([a, b] + rest) == a + (b + Joined(rest))
  {
    hide Joined;
    JoinedFront(b, rest);
    JoinedFront(a, [b] + rest);
    assert [a, b] + rest == [a] + ([b] + rest);
  }

  lemma DelimiterStarts(b: Bytes)
    requires Delimiter(b).Some?
    ensures b[Delimiter(b).value.0] < 0x80 && Delimiter(b).value.1 <= 4
  {
    FoundAt(b, CRLF);
    FoundAt(b, LF);
    hide Find, At;
    if Find(b, CRLF).Some? { Characters(b, Find(b, CRLF).value); }
    if Find(b, LF).Some? { Characters(b, Find(b, LF).value); }
  }

  /** At a clean place of the valid text, the prefix is itself valid. */
  lemma CleanReads(text: Bytes, n: nat)
    requires n <= Scan(text).0 && Clean(ValidText(text), n)
    ensures ValidText(text[..n]) == ValidText(text)[..n] && !Scan(text[..n]).1.Malformed?
  {
    hide Scan;
    var v := Scan(text).0;
    if n == v {
      ScanStops(text);
      if Scan(text[..v]).1.Malformed? { MalformedWhole(text[..v]); }
    } else if text[n] < 0x80 {
      BoundaryBefore(text, n);
    } else {
      BoundaryBefore(text, n - 1);
      ScanResumes(text[..n - 1], [text[n - 1]]);
      OneCharacter(text[n - 1]);
      assert text[..n] == text[..n - 1] + [text[n - 1]] && text[..n - 1][n - 1..] + [text[n - 1]] == [text[n - 1]];
    }
  }

  lemma OneCharacter(b: byte)
    requires b < 0x80
    ensures Scan([b]) == (1, Whole)
  {
    assert [b][1..] == [];
  }

  /** A text that is all whole characters is not malformed. */
  lemma {:induction false} MalformedWhole(b: Bytes)
    ensures Scan(b).0 == |b| ==> !Scan(b).1.Malformed?
    decreases |b|
  {
    if b != [] && FirstCharacter(b).Whole? { MalformedWhole(b[Needed(b[0])..]); }
  }

  /** Less than one character is left over. */
  lemma {:induction false} LeftoverIsShort(b: Bytes)
    requires !Scan(b).1.Malformed?
    ensures |b| - Scan(b).0 < 4
    decreases |b|
  {
    if b != [] && FirstCharacter(b).Whole? { LeftoverIsShort(b[Needed(b[0])..]); }
  }

  /** Text whose frames and rest fit the limit by themselves passes when cut so. */
  lemma KindSplitPasses(text: Bytes) returns (chunks: seq<Bytes>)
    requires !Scan(text).1.Malformed? && FramesFit(ValidText(text))
    ensures Joined(chunks) == text && SmallChunks(chunks) && AllReceivable(chunks)
  {
    hide Scan, Frames, Joined, Pieces, Clean, Receivable;
    var v := Scan(text).0;
    var pieces := Pieces(text[..v]);
    SomePieces(text[..v]);
    chunks := pieces + [text[v..]];
    var all := PiecesFit(text[..v], |pieces| - 1);
    assert pieces[..|pieces|] == pieces && chunks[..|pieces|] == pieces && text[..v] + text[v..] == text;
    JoinedLast(chunks);
    LeftoverIsShort(text);
    forall k | 0 <= k < |chunks| ensures Receivable(chunks, k) && |chunks[k]| <= MAX_SSE_FRAME_BYTES {
      if k < |pieces| {
        var n := PiecesFit(text[..v], k);
        assert chunks[..k + 1] == pieces[..k + 1] && text[..v][..n] == text[..n];
        CleanReads(text, n);
        ReceivableWhen(chunks, k, text[..n]);
      } else {
        assert chunks[..k + 1] == chunks;
        ReceivableWhen(chunks, k, text);
      }
    }
  }

  lemma SomePieces(b: Bytes)
    ensures |Pieces(b)| > 0
  {}

  lemma JoinedLast(chunks: seq<Bytes>)
    requires chunks != []
    ensures Joined(chunks) == Joined(chunks[..|chunks| - 1]) + chunks[|chunks| - 1]
  {}

  lemma ReceivableWhen(chunks: seq<Bytes>, k: nat, all: Bytes)
    requires k < |chunks| && all == Joined(chunks[..k + 1])
    requires |chunks[k]| <= MAX_SSE_FRAME_BYTES && !Scan(all).1.Malformed? && FramesFit(ValidText(all))
    ensures Receivable(chunks, k)
  {}

  ghost predicate SomeSplitPasses(text: Bytes) {
    exists chunks :: Joined(chunks) == text && SmallChunks(chunks) && AllReceivable(chunks)
  }

  /** A text passes under some split exactly when it is well formed so far and its frames and rest fit by themselves. */
  lemma FitIsExact(text: Bytes)
    ensures SomeSplitPasses(text) <==> !Scan(text).1.Malformed? && FramesFit(ValidText(text))
  {
    if !Scan(text).1.Malformed? && FramesFit(ValidText(text)) {
      var chunks := KindSplitPasses(text);
    }
    if SomeSplitPasses(text) {
      var chunks :| Joined(chunks) == text && SmallChunks(chunks) && AllReceivable(chunks);
      if chunks != [] {
        assert chunks[..|chunks| - 1 + 1] == chunks;
        assert Receivable(chunks, |chunks| - 1);
      }
    }
  }

  /** So the cut decides exactly for texts that fit but leave no room, and there are such. */
  lemma CutCanDecide() returns (text: Bytes)
    ensures SomeSplitPasses(text) && !EverySplitPasses(text)
  {
    hide Scan, Roomy, Frames, Delimiter, SomeSplitPasses, EverySplitPasses;
    var n := MAX_SSE_FRAME_BYTES;
    text := seq(n, _ => 97) + LF;
    PlainThenBreak(n);
    FitIsExact(text);
    RoomIsExact(text);
  }

  lemma PlainThenBreak(n: nat)
    requires n == MAX_SSE_FRAME_BYTES
    ensures var text := seq(n, _ => 97) + LF;
            !Scan(text).1.Malformed? && FramesFit(ValidText(text)) && !Roomy(ValidText(text))
  {
    var plain: Bytes := seq(n, _ => 97);
    var text := plain + LF;
    PlainReads(plain);
    PlainBreaks(plain);
    hide Scan, Delimiter;
    assert text[n + 2..] == [];
    NothingFits();
    EmptyFrames();
    assert Frames(text) == ([text[..n]] + [], []);
  }

  lemma EmptyFrames()
    ensures Frames([]) == ([], []) && Delimiter([]).None?
  {}

  lemma PlainReads(plain: Bytes)
    requires forall i :: 0 <= i < |plain| ==> plain[i] == 97
    ensures !Scan(plain + LF).1.Malformed? && ValidText(plain + LF) == plain + LF
  {
    hide Scan;
    PlainScans(plain);
    ScanResumes(plain, LF);
    OneCharacter(10);
    ScanResumes([10], [10]);
    assert [10] + [10] == LF && [10][1..] + [10] == [10] && plain[|plain|..] + LF == LF;
  }

  lemma PlainBreaks(plain: Bytes)
    requires forall i :: 0 <= i < |plain| ==> plain[i] == 97
    ensures Delimiter(plain + LF) == Some((|plain|, 2))
  {
    var text, n := plain + LF, |plain|;
    FoundAt(text, CRLF);
    FoundAt(text, LF);
    FindIsFirst(text, LF);
    assert text[n..n + 2] == LF && At(text, n, LF);
    hide Find, At;
    if Find(text, CRLF).Some? { Characters(text, Find(text, CRLF).value); }
    Characters(text, Find(text, LF).value);
  }

  lemma {:induction false} PlainScans(b: Bytes)
    requires forall i :: 0 <= i < |b| ==> b[i] == 97
    ensures Scan(b) == (|b|, Whole)
    decreases |b|
  {
    if b != [] { PlainScans(b[1..]); }
  }

  /** Two splits of one stream never disagree: if no limit trips, both give the frames of the whole text in order. */
  method SplitsAgree(one: seq<Bytes>, other: seq<Bytes>)
    returns (a: Result<seq<Bytes>, StreamError>, b: Result<seq<Bytes>, StreamError>)
    requires Joined(one) == Joined(other)
    ensures a.Ok? && b.Ok? ==> a == b == Ok(Frames(ValidText(Joined(one))).0)
    ensures SmallChunks(one) && SmallChunks(other) && !Scan(Joined(one)).1.Malformed? && Roomy(ValidText(Joined(one)))
            ==> a.Ok? && b.Ok?
  {
    hide Frames, Joined, Scan, Roomy;
    if SmallChunks(one) && SmallChunks(other) && !Scan(Joined(one)).1.Malformed? && Roomy(ValidText(Joined(one))) {
      AnySplitIsReceivable(one);
      AnySplitIsReceivable(other);
    }
    a := ReceiveAll(one);
    b := ReceiveAll(other);
  }
}
