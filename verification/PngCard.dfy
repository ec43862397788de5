/**
 * Finding the character card in a PNG file's text chunks. The chunk layout
 * is section 3.2 of RFC 2083, the tEXt chunk section 4.2.7. The checksum and
 * the base64 decoder are parameters.
 */
module PngCard {
  import opened Common

  newtype Byte = x: int | 0 <= x < 256

  type Bytes = seq<Byte>

  const SIGNATURE_SIZE := 8
  const MAX_CARD_BYTES := 1_048_576

  const IEND: Bytes := [73, 69, 78, 68]
  const TEXT: Bytes := [116, 69, 88, 116]
  const CCV3: Bytes := [99, 99, 118, 51]
  const CHARA: Bytes := [99, 104, 97, 114, 97]

  type Checksum = Bytes -> int
  type Decoder = Bytes -> Option<Bytes>

  // ---- Chunks ----

  /** A chunk as it stands in a file; sum is the checksum found with it. */
  datatype Chunk = Chunk(kind: Bytes, body: Bytes, sum: int)

  ghost predicate WellFormed(c: Chunk) { |c.kind| == 4 && |c.body| < 0x1_0000_0000 && 0 <= c.sum < 0x1_0000_0000 }

  function BigEndian(n: int): (s: Bytes)
    requires 0 <= n < 0x1_0000_0000
    ensures |s| == 4
  {
    var a, b, c := n / 256, n / 256 / 256, n / 256 / 256 / 256;
    [c as Byte, (b % 256) as Byte, (a % 256) as Byte, (n % 256) as Byte]
  }

  function ReadBigEndian(b: Bytes): (n: int)
    requires |b| == 4
    ensures 0 <= n < 0x1_0000_0000
  {
    ((b[0] as int * 256 + b[1] as int) * 256 + b[2] as int) * 256 + b[3] as int
  }

  lemma ReadsBack(n: int)
    requires 0 <= n < 0x1_0000_0000
    ensures ReadBigEndian(BigEndian(n)) == n
  {
  }

  lemma WritesBack(b: Bytes)
    requires |b| == 4
    ensures BigEndian(ReadBigEndian(b)) == b
  {
    var n := ReadBigEndian(b);
    var high := (b[0] as int * 256 + b[1] as int) * 256 + b[2] as int;
    assert n / 256 == high && n % 256 == b[3] as int;
    assert high / 256 == b[0] as int * 256 + b[1] as int && high % 256 == b[2] as int;
  }

  function Encode(c: Chunk): Bytes
    requires WellFormed(c)
  {
    BigEndian(|c.body|) + c.kind + c.body + BigEndian(c.sum)
  }

  /** The first chunk of rest and what follows it, unless rest is too short for one. */
  function FirstChunk(rest: Bytes): Option<(Chunk, Bytes)> {
    if |rest| < 12 then None
    else
      var n := ReadBigEndian(rest[..4]);
      if n > |rest| - 12 then None
      else Some((Chunk(rest[4..8], rest[8..8 + n], ReadBigEndian(rest[8 + n..12 + n])), rest[12 + n..]))
  }

  lemma EncodedIsRead(c: Chunk, tail: Bytes)
    requires WellFormed(c)
    ensures FirstChunk(Encode(c) + tail) == Some((c, tail))
  {
    var rest, n := Encode(c) + tail, |c.body|;
    ReadsBack(n);
    ReadsBack(c.sum);
    assert rest[..4] == BigEndian(n) && rest[4..8] == c.kind && rest[8..8 + n] == c.body;
    assert rest[8 + n..12 + n] == BigEndian(c.sum) && rest[12 + n..] == tail;
  }

  lemma ReadIsEncoded(rest: Bytes)
    requires FirstChunk(rest).Some?
    ensures var (c, tail) := FirstChunk(rest).value; WellFormed(c) && rest == Encode(c) + tail
  {
    var n := ReadBigEndian(rest[..4]);
    WritesBack(rest[..4]);
    WritesBack(rest[8 + n..12 + n]);
    assert rest == rest[..4] + rest[4..8] + rest[8..8 + n] + rest[8 + n..12 + n] + rest[12 + n..];
  }

  // ---- Text chunks ----

  function Lower(b: Byte): Byte { if 65 <= b <= 90 then b + 32 else b }

  function LowerAll(s: Bytes): Bytes { seq(|s|, i requires 0 <= i < |s| => Lower(s[i])) }

  /** The place of the first zero byte, or the length. */
  function FirstZero(s: Bytes): (i: nat)
    ensures i <= |s| && (i < |s| ==> s[i] == 0) && forall j :: 0 <= j < i ==> s[j] != 0
  {
    if s == [] || s[0] == 0 then 0 else 1 + FirstZero(s[1..])
  }

  predicate Sound(crc: Checksum, c: Chunk) { c.kind == TEXT ==> crc(c.kind + c.body) == c.sum }

  /** A text chunk with the keyword key, in any case, and the zero byte that ends it. */
  predicate Carries(c: Chunk, key: Bytes) {
    c.kind == TEXT && FirstZero(c.body) < |c.body| && LowerAll(c.body[..FirstZero(c.body)]) == key
  }

  function TextOf(c: Chunk): Bytes
    requires FirstZero(c.body) < |c.body|
  {
    c.body[FirstZero(c.body) + 1..]
  }

  /** The texts found so far, by keyword. */
  datatype Found = Found(v3: Option<Bytes>, v2: Option<Bytes>)

  function Note(found: Found, c: Chunk): Found {
    if Carries(c, CCV3) then found.(v3 := Some(TextOf(c)))
    else if Carries(c, CHARA) then found.(v2 := Some(TextOf(c)))
    else found
  }

  function NoteAll(found: Found, cs: seq<Chunk>): Found {
    if cs == [] then found else Note(NoteAll(found, cs[..|cs| - 1]), cs[|cs| - 1])
  }

  // ---- The card ----

  datatype Card = Card(json: Bytes) | Damaged | NoCard | TooLarge | Unreadable

  predicate Blank(b: Byte) { b == 9 || b == 10 || b == 11 || b == 12 || b == 13 || b == 32 }

  function TrimLeft(s: Bytes): Bytes { if s != [] && Blank(s[0]) then TrimLeft(s[1..]) else s }

  function TrimRight(s: Bytes): Bytes { if s != [] && Blank(s[|s| - 1]) then TrimRight(s[..|s| - 1]) else s }

  /** The decoding of the preferred text. */
  function Decoded(text: Bytes, decode: Decoder): Card {
    var t := TrimRight(TrimLeft(text));
    if |t| / 4 * 3 > MAX_CARD_BYTES + 3 then TooLarge
    else if decode(t).Some? then Card(decode(t).value) else Unreadable
  }

  /** pickCard */
  function Pick(found: Found, decode: Decoder): Card {
    if found.v3.Some? then Decoded(found.v3.value, decode)
    else if found.v2.Some? then Decoded(found.v2.value, decode)
    else NoCard
  }

  /** The walk over the chunks in rest, with found already found. */
  function Walk(rest: Bytes, found: Found, crc: Checksum, decode: Decoder): Card
    decreases |rest|
  {
    match FirstChunk(rest)
    case None => Damaged
    case Some((c, tail)) =>
      if c.kind == IEND then Pick(found, decode)
      else if !Sound(crc, c) then Damaged
      else Walk(tail, Note(found, c), crc, decode)
  }

  // ---- Encoding and walking ----

  ghost predicate Inner(cs: seq<Chunk>) { forall c :: c in cs ==> WellFormed(c) && c.kind != IEND }

  ghost function EncodeAll(cs: seq<Chunk>): Bytes
    requires Inner(cs)
  {
    if cs == [] then [] else Encode(cs[0]) + EncodeAll(cs[1..])
  }

  ghost predicate AllSound(crc: Checksum, cs: seq<Chunk>) { forall c :: c in cs ==> Sound(crc, c) }

  lemma {:induction false} NoteFirst(found: Found, cs: seq<Chunk>)
    requires cs != []
    ensures NoteAll(Note(found, cs[0]), cs[1..]) == NoteAll(found, cs)
  {
    if |cs| > 1 {
      NoteFirst(found, cs[..|cs| - 1]);
      assert cs[..|cs| - 1][1..] == cs[1..][..|cs[1..]| - 1];
    } else {
      assert cs[..0] == [] && cs[1..] == [];
    }
  }

  /** Walking what was encoded up to an IEND finds what was encoded, whatever follows; one damaged text chunk refuses the file. */
  lemma {:induction false} WalkUndoesEncoding(cs: seq<Chunk>, end: Chunk, after: Bytes, found: Found, crc: Checksum, decode: Decoder)
    requires Inner(cs) && WellFormed(end) && end.kind == IEND
    ensures Walk(EncodeAll(cs) + Encode(end) + after, found, crc, decode)
      == if AllSound(crc, cs) then Pick(NoteAll(found, cs), decode) else Damaged
  {
    var rest := EncodeAll(cs) + Encode(end) + after;
    if cs == [] {
      assert rest == Encode(end) + after;
      EncodedIsRead(end, after);
    } else {
      var c, tail := cs[0], EncodeAll(cs[1..]) + Encode(end) + after;
      assert rest == Encode(c) + tail;
      EncodedIsRead(c, tail);
      assert AllSound(crc, cs) <==> Sound(crc, c) && AllSound(crc, cs[1..]) by {
        assert forall d :: d in cs <==> d == c || d in cs[1..];
      }
      WalkUndoesEncoding(cs[1..], end, after, Note(found, c), crc, decode);
      NoteFirst(found, cs);
    }
  }

  /** A file the walk does not call damaged is such an encoding. */
  lemma {:induction false} WalkedIsEncoded(rest: Bytes, found: Found, crc: Checksum, decode: Decoder)
    returns (cs: seq<Chunk>, end: Chunk, after: Bytes)
    requires Walk(rest, found, crc, decode) != Damaged
    ensures Inner(cs) && WellFormed(end) && end.kind == IEND && AllSound(crc, cs)
    ensures rest == EncodeAll(cs) + Encode(end) + after
    decreases |rest|
  {
    var (c, tail) := FirstChunk(rest).value;
    ReadIsEncoded(rest);
    assert |tail| < |rest|;
    if c.kind == IEND {
      assert Walk(rest, found, crc, decode) != Damaged;
      cs, end, after := [], c, tail;
      assert [] + Encode(end) == Encode(end);
    } else {
      assert Sound(crc, c) && Walk(tail, Note(found, c), crc, decode) != Damaged;
      hide FirstChunk, Walk, Encode, Note, Sound;
      var ds;
      ds, end, after := WalkedIsEncoded(tail, Note(found, c), crc, decode);
      cs := [c] + ds;
      OneMoreChunk(c, ds, crc);
      hide EncodeAll, Inner, AllSound;
      Regroup(Encode(c), EncodeAll(ds), Encode(end), after);
    }
  }

  lemma Regroup(a: Bytes, b: Bytes, c: Bytes, d: Bytes)
    ensures a + (b + c + d) == a + b + c + d
  {
  }

  lemma OneMoreChunk(c: Chunk, ds: seq<Chunk>, crc: Checksum)
    requires WellFormed(c) && c.kind != IEND && Sound(crc, c) && Inner(ds) && AllSound(crc, ds)
    ensures Inner([c] + ds) && AllSound(crc, [c] + ds) && EncodeAll([c] + ds) == Encode(c) + EncodeAll(ds)
  {
    assert ([c] + ds)[1..] == ds;
  }

  /** Of several texts with a keyword, the last one in the file is kept. */
  lemma {:induction false} LastIsKept(cs: seq<Chunk>, key: Bytes, i: nat)
    requires key == CCV3 || key == CHARA
    requires i < |cs| && Carries(cs[i], key) && forall j :: i < j < |cs| ==> !Carries(cs[j], key)
    ensures var found := NoteAll(Found(None, None), cs);
      (if key == CCV3 then found.v3 else found.v2) == Some(TextOf(cs[i]))
  {
    if i < |cs| - 1 { LastIsKept(cs[..|cs| - 1], key, i); }
  }

  lemma {:induction false} NoneIsKept(cs: seq<Chunk>, key: Bytes)
    requires key == CCV3 || key == CHARA
    requires forall c :: c in cs ==> !Carries(c, key)
    ensures (if key == CCV3 then NoteAll(Found(None, None), cs).v3 else NoteAll(Found(None, None), cs).v2) == None
  {
    if cs != [] {
      NoneIsKept(cs[..|cs| - 1], key);
      assert cs[|cs| - 1] in cs;
    }
  }

  /** The card of a sound file: the last ccv3 text, else the last chara text, else none. */
  lemma CardOfFile(cs: seq<Chunk>, end: Chunk, after: Bytes, crc: Checksum, decode: Decoder, i: nat)
    requires Inner(cs) && WellFormed(end) && end.kind == IEND && AllSound(crc, cs)
    ensures var card := Walk(EncodeAll(cs) + Encode(end) + after, Found(None, None), crc, decode);
      && (IsLast(cs, CCV3, i) ==> card == Decoded(TextOf(cs[i]), decode))
      && (IsLast(cs, CHARA, i) && (forall c :: c in cs ==> !Carries(c, CCV3)) ==> card == Decoded(TextOf(cs[i]), decode))
      && ((forall c :: c in cs ==> !Carries(c, CCV3) && !Carries(c, CHARA)) ==> card == NoCard)
  {
    WalkUndoesEncoding(cs, end, after, Found(None, None), crc, decode);
    if IsLast(cs, CCV3, i) { LastIsKept(cs, CCV3, i); }
    if forall c :: c in cs ==> !Carries(c, CCV3) {
      NoneIsKept(cs, CCV3);
      if IsLast(cs, CHARA, i) { LastIsKept(cs, CHARA, i); }
      if forall c :: c in cs ==> !Carries(c, CHARA) { NoneIsKept(cs, CHARA); }
    }
  }

  ghost predicate IsLast(cs: seq<Chunk>, key: Bytes, i: nat) {
    i < |cs| && Carries(cs[i], key) && forall j :: i < j < |cs| ==> !Carries(cs[j], key)
  }

  // ---- What a text chunk says ----

  lemma {:induction false} FirstZeroOf(key: Bytes, text: Bytes)
    requires 0 !in key
    ensures FirstZero(key + [0] + text) == |key|
  {
    var s := key + [0] + text;
    if key == [] {
      assert s[0] == 0;
    } else {
      assert s[0] == key[0] && key[0] in key && s[1..] == key[1..] + [0] + text;
      FirstZeroOf(key[1..], text);
    }
  }

  /** A chunk's text begins after the zero byte that ends its keyword, whatever the keyword's case; without a zero byte it has none. */
  lemma TextFollowsKeyword(key: Bytes, text: Bytes, sum: int, wanted: Bytes)
    requires 0 !in key
    ensures var c := Chunk(TEXT, key + [0] + text, sum);
      FirstZero(c.body) < |c.body| && TextOf(c) == text && (Carries(c, wanted) <==> LowerAll(key) == wanted)
    ensures !Carries(Chunk(TEXT, key, sum), wanted)
  {
    FirstZeroOf(key, text);
    var body := key + [0] + text;
    assert body[..|key|] == key && body[|key| + 1..] == text;
  }

  /** A keyword counts in capitals, small letters or both. */
  lemma KeywordInAnyCase(key: Bytes, wanted: Bytes)
    requires wanted == CCV3 || wanted == CHARA
    requires |key| == |wanted|
    requires forall i :: 0 <= i < |key| ==> key[i] == wanted[i] || (97 <= wanted[i] <= 122 && key[i] == wanted[i] - 32)
    ensures LowerAll(key) == wanted
  {
    forall i | 0 <= i < |key| ensures Lower(key[i]) == wanted[i] {}
  }

  ghost predicate AllBlank(s: Bytes) { forall b :: b in s ==> Blank(b) }

  lemma {:induction false} LeftTrimmed(before: Bytes, s: Bytes)
    requires AllBlank(before) && (s != [] ==> !Blank(s[0]))
    ensures TrimLeft(before + s) == s
  {
    if before == [] {
      assert before + s == s;
    } else {
      assert before[0] in before && (before + s)[1..] == before[1..] + s;
      LeftTrimmed(before[1..], s);
    }
  }

  lemma {:induction false} RightTrimmed(s: Bytes, after: Bytes)
    requires AllBlank(after) && (s != [] ==> !Blank(s[|s| - 1]))
    ensures TrimRight(s + after) == s
  {
    if after == [] {
      assert s + after == s;
    } else {
      var last := after[|after| - 1];
      assert last in after && (s + after)[..|s + after| - 1] == s + after[..|after| - 1];
      RightTrimmed(s, after[..|after| - 1]);
    }
  }

  /** A text between blanks is decoded without them, unless it is too large: the decoder's output is the card. */
  lemma TextIsDecoded(before: Bytes, t: Bytes, after: Bytes, decode: Decoder)
    requires AllBlank(before) && AllBlank(after) && t != [] && !Blank(t[0]) && !Blank(t[|t| - 1])
    ensures var card := Decoded(before + t + after, decode);
      if |t| / 4 * 3 > 1_048_576 + 3 then card == TooLarge
      else match decode(t) case Some(json) => card == Card(json) case None => card == Unreadable
  {
    assert before + t + after == before + (t + after);
    LeftTrimmed(before, t + after);
    RightTrimmed(t, after);
  }

  /** A file with a text chunk of the newer keyword, and no later one of it, yields that text, decoded. */
  lemma EmbeddedCardIsFound(cs: seq<Chunk>, end: Chunk, trailer: Bytes, crc: Checksum, decode: Decoder, i: nat, key: Bytes, t: Bytes, json: Bytes)
    requires Inner(cs) && WellFormed(end) && end.kind == IEND && AllSound(crc, cs)
    requires i < |cs| && cs[i].kind == TEXT && cs[i].body == key + [0] + t && 0 !in key && LowerAll(key) == CCV3
    requires forall j :: i < j < |cs| ==> !Carries(cs[j], CCV3)
    requires t != [] && !Blank(t[0]) && !Blank(t[|t| - 1]) && |t| / 4 * 3 <= 1_048_576 + 3 && decode(t) == Some(json)
    ensures Walk(EncodeAll(cs) + Encode(end) + trailer, Found(None, None), crc, decode) == Card(json)
  {
    TextFollowsKeyword(key, t, cs[i].sum, CCV3);
    assert cs[i] == Chunk(TEXT, key + [0] + t, cs[i].sum);
    CardOfFile(cs, end, trailer, crc, decode, i);
    assert [] + t + [] == t;
    TextIsDecoded([], t, [], decode);
    hide Carries, Walk, Decoded;
  }

  /** pngCard: raw is known to start with the PNG signature. */
  method ReadPngCard(raw: Bytes, crc: Checksum, decode: Decoder) returns (card: Card)
    requires |raw| >= SIGNATURE_SIZE
    ensures card == Walk(raw[SIGNATURE_SIZE..], Found(None, None), crc, decode)
  {
    var rest := raw[SIGNATURE_SIZE..];
    var found := Found(None, None);
    while true
      invariant Walk(rest, found, crc, decode) == Walk(raw[SIGNATURE_SIZE..], Found(None, None), crc, decode)
      decreases |rest|
    {
      if |rest| < 12 { return Damaged; }
      var n := ReadBigEndian(rest[..4]);
      if n > |rest| - 12 { return Damaged; }
      var kind, body, sum := rest[4..8], rest[8..8 + n], ReadBigEndian(rest[8 + n..12 + n]);
      var c := Chunk(kind, body, sum);
      rest := rest[12 + n..];
      if kind == IEND {
        return Pick(found, decode);
      } else if kind == TEXT {
        if crc(kind + body) != sum { return Damaged; }
        found := Note(found, c);
      }
    }
  }
}
