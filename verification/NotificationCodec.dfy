/** The two notification formats. Characters stand for the bytes of the UTF-8 text; the delimiters are
    ASCII, so no byte of another character equals them. */
module NotificationCodec {
  import opened Wrappers
  import opened ChunkState

  // ----- decimal numbers -----

  const DIGITS := "0123456789"

  function DecimalOf(n: nat): string {
    (if n < 10 then "" else DecimalOf(n / 10)) + [DIGITS[n % 10]]
  }

  predicate IsDigit(c: char) {
    '0' <= c <= '9'
  }

  predicate IsDecimal(s: string) {
    s != "" && forall i | 0 <= i < |s| :: IsDigit(s[i])
  }

  /** The value of a string of digits. */
  function Value(s: string): nat {
    if s == "" then 0 else Value(s[..|s| - 1]) * 10 + if IsDigit(s[|s| - 1]) then (s[|s| - 1] - '0') as nat else 0
  }

  predicate Canonical(s: string) {
    IsDecimal(s) && (s[0] == '0' ==> |s| == 1)
  }

  lemma {:induction false} DecimalValue(n: nat)
    ensures Canonical(DecimalOf(n)) && Value(DecimalOf(n)) == n
    ensures n > 0 ==> DecimalOf(n)[0] != '0'
  {
    var s := DecimalOf(n);
    if n >= 10 {
      DecimalValue(n / 10);
      assert s[..|s| - 1] == DecimalOf(n / 10);
    } else {
      assert s[..|s| - 1] == "";
    }
  }

  lemma DigitChar(c: char)
    requires IsDigit(c)
    ensures (c - '0') as nat < 10 && DIGITS[(c - '0') as nat] == c
  {}

  lemma TenTimes(n: nat, d: nat, v: nat)
    requires d < 10 && v == n * 10 + d
    ensures v / 10 == n && v % 10 == d && (v < 10 <==> n == 0)
  {}

  lemma DecimalStep(n: nat, d: nat, v: nat, front: string)
    requires d < 10 && v == n * 10 + d && front == if n == 0 then "" else DecimalOf(n)
    ensures DecimalOf(v) == front + [DIGITS[d]]
  {
    TenTimes(n, d, v);
  }

  lemma ValueOfLast(front: string, c: char)
    requires IsDigit(c)
    ensures Value(front + [c]) == Value(front) * 10 + (c - '0') as nat
  {
    assert (front + [c])[..|front|] == front;
  }

  lemma FrontIsCanonical(front: string, c: char)
    requires Canonical(front + [c])
    ensures IsDigit(c) && (front != "" ==> Canonical(front) && front[0] == (front + [c])[0] && front[0] != '0')
  {
    var s := front + [c];
    assert s[|front|] == c;
    assert forall i | 0 <= i < |front| :: front[i] == s[i];
  }

  lemma DecimalOfLast(front: string, c: char, n: nat, v: nat)
    requires IsDigit(c) && v == n * 10 + (c - '0') as nat && front == if n == 0 then "" else DecimalOf(n)
    ensures DecimalOf(v) == front + [c] && (n > 0 || c != '0' ==> v > 0)
  {
    DigitChar(c);
    DecimalStep(n, (c - '0') as nat, v, front);
  }

  lemma {:induction false} ValueDecimal(s: string)
    requires Canonical(s)
    ensures DecimalOf(Value(s)) == s
    ensures s[0] != '0' ==> Value(s) > 0
    decreases |s|
  {
    var front, c := s[..|s| - 1], s[|s| - 1];
    assert s == front + [c];
    FrontIsCanonical(front, c);
    if front != "" { ValueDecimal(front); }
    ValueOfLast(front, c);
    DecimalOfLast(front, c, Value(front), Value(s));
  }

  // ----- splitting at the last delimiter -----

  /** `rsplit(c, 1)`: the parts before and after the last `c`, if there is one. */
  function RSplit(s: string, c: char): (r: Option<(string, string)>)
    ensures r.None? <==> c !in s
    ensures r.Some? ==> s == r.value.0 + [c] + r.value.1 && c !in r.value.1
  {
    if s == "" then None
    else if s[|s| - 1] == c then Some((s[..|s| - 1], ""))
    else match RSplit(s[..|s| - 1], c)
         case Some((a, b)) => Some((a, b + [s[|s| - 1]]))
         case None => None
  }

  lemma {:induction false} RSplitJoined(a: string, c: char, b: string)
    requires c !in b
    ensures RSplit(a + [c] + b, c) == Some((a, b))
  {
    var s := a + [c] + b;
    if b == "" {
      assert s[..|s| - 1] == a;
    } else {
      var front := b[..|b| - 1];
      RSplitJoined(a, c, front);
      assert s[..|s| - 1] == a + [c] + front;
      assert b == front + [b[|b| - 1]];
    }
  }

  // ----- completion notifications -----

  function EncodeFree(req: ReqId, world: nat): string {
    req + ":" + DecimalOf(world)
  }

  /** The producer's reading of a notification; None where the original raises. */
  function DecodeFree(s: string): Option<(ReqId, nat)> {
    match RSplit(s, ':')
    case None => None
    case Some((req, size)) => if IsDecimal(size) then Some((req, Value(size))) else None
  }

  lemma NoDelimiter(n: nat, c: char)
    requires !IsDigit(c)
    ensures c !in DecimalOf(n)
  {
    DecimalValue(n);
  }

  /** Every request id, colons included, and every world size are recovered. */
  lemma FreeRoundTrip(req: ReqId, world: nat)
    ensures DecodeFree(EncodeFree(req, world)) == Some((req, world))
  {
    NoDelimiter(world, ':');
    DecimalValue(world);
    RSplitJoined(req, ':', DecimalOf(world));
    assert req + ":" + DecimalOf(world) == req + [':'] + DecimalOf(world);
  }

  /** A text with a canonical number that reads as (req, world) is the encoding of (req, world). */
  lemma FreeDecodesOnlyEncodings(s: string, req: ReqId, world: nat)
    requires DecodeFree(s) == Some((req, world)) && Canonical(RSplit(s, ':').value.1)
    ensures s == EncodeFree(req, world)
  {
    ValueDecimal(RSplit(s, ':').value.1);
  }

  // ----- chunk-ready notifications -----

  function Csv(blocks: seq<nat>): string {
    if blocks == [] then ""
    else if |blocks| == 1 then DecimalOf(blocks[0])
    else Csv(blocks[..|blocks| - 1]) + "," + DecimalOf(blocks[|blocks| - 1])
  }

  function ParseCsv(s: string): seq<nat>
    decreases |s|
  {
    if s == "" then []
    else match RSplit(s, ',')
         case None => [Value(s)]
         case Some((front, last)) => ParseCsv(front) + [Value(last)]
  }

  lemma NumberIsPlain(n: nat)
    ensures ',' !in DecimalOf(n) && '|' !in DecimalOf(n) && DecimalOf(n) != "" && Value(DecimalOf(n)) == n
  {
    NoDelimiter(n, ',');
    NoDelimiter(n, '|');
    DecimalValue(n);
  }

  lemma CsvSplits(front: string, last: nat)
    requires front != ""
    ensures ParseCsv(front + "," + DecimalOf(last)) == ParseCsv(front) + [last]
  {
    NumberIsPlain(last);
    RSplitJoined(front, ',', DecimalOf(last));
    assert front + "," + DecimalOf(last) == front + [','] + DecimalOf(last);
  }

  lemma {:induction false} CsvRoundTrip(blocks: seq<nat>)
    ensures ParseCsv(Csv(blocks)) == blocks && '|' !in Csv(blocks) && (blocks != [] ==> Csv(blocks) != "")
  {
    if blocks != [] {
      var front, last := blocks[..|blocks| - 1], blocks[|blocks| - 1];
      NumberIsPlain(last);
      assert blocks == front + [last];
      if |blocks| > 1 {
        CsvRoundTrip(front);
        CsvSplits(Csv(front), last);
      }
    }
  }

  const PREFIX := "chunkready|"

  function Joined(head: string, idx: string, flag: string, csv: string): string {
    head + "|" + idx + "|" + flag + "|" + csv
  }

  /** The last three fields, split off from the right, and what precedes them. */
  function Fields(s: string): Option<(string, string, string, string)> {
    match RSplit(s, '|')
    case None => None
    case Some((s1, csv)) =>
      match RSplit(s1, '|')
      case None => None
      case Some((s2, flag)) =>
        match RSplit(s2, '|')
        case None => None
        case Some((head, idx)) => Some((head, idx, flag, csv))
  }

  lemma FieldsOfJoined(head: string, idx: string, flag: string, csv: string)
    requires '|' !in idx && '|' !in flag && '|' !in csv
    ensures Fields(Joined(head, idx, flag, csv)) == Some((head, idx, flag, csv))
  {
    RSplitJoined(head + "|" + idx + "|" + flag, '|', csv);
    RSplitJoined(head + "|" + idx, '|', flag);
    RSplitJoined(head, '|', idx);
  }

  function EncodeChunk(c: Chunk): string {
    Joined(PREFIX + c.req, DecimalOf(c.idx), Flag(c.last), Csv(c.blocks))
  }

  /** Reading from the right: block list, last flag, index; what is left is the prefix and the id. */
  function DecodeChunk(s: string): Option<Chunk> {
    match Fields(s)
    case None => None
    case Some((head, idx, flag, csv)) =>
      if PREFIX <= head then Some(Chunk(head[|PREFIX|..], Value(idx), flag == "1", ParseCsv(csv))) else None
  }

  lemma PrefixStripped(req: string)
    ensures PREFIX <= PREFIX + req && (PREFIX + req)[|PREFIX|..] == req
  {}

  lemma DecodeJoined(req: string, idx: string, flag: string, csv: string)
    requires '|' !in idx && '|' !in flag && '|' !in csv
    ensures DecodeChunk(Joined(PREFIX + req, idx, flag, csv))
            == Some(Chunk(req, Value(idx), flag == "1", ParseCsv(csv)))
  {
    FieldsOfJoined(PREFIX + req, idx, flag, csv);
    PrefixStripped(req);
  }

  function Flag(last: bool): (f: string)
    ensures '|' !in f && (f == "1" <==> last)
  {
    if last then "1" else "0"
  }

  /** Every chunk is recovered, delimiters in its request id included. */
  lemma ChunkRoundTrip(c: Chunk)
    ensures DecodeChunk(EncodeChunk(c)) == Some(c)
  {
    NumberIsPlain(c.idx);
    CsvRoundTrip(c.blocks);
    DecodeJoined(c.req, DecimalOf(c.idx), Flag(c.last), Csv(c.blocks));
  }

  /** Different chunks have different notifications. */
  lemma ChunkEncodingInjective(a: Chunk, b: Chunk)
    requires EncodeChunk(a) == EncodeChunk(b)
    ensures a == b
  {
    ChunkRoundTrip(a);
    ChunkRoundTrip(b);
  }

  lemma SmallDecimals()
    ensures DecimalOf(0) == "0" && DecimalOf(2) == "2" && DecimalOf(7) == "7" && DecimalOf(16) == "16"
  {
    assert DecimalOf(1) == "1";
  }

  /** The bytes on the wire, by example. */
  lemma WireFormats()
    ensures EncodeFree("r", 16) == "r:16"
    ensures EncodeChunk(Chunk("r", 2, true, [7, 16])) == "chunkready|r|2|1|7,16"
    ensures EncodeChunk(Chunk("r", 0, false, [])) == "chunkready|r|0|0|"
  {
    SmallDecimals();
    assert Csv([7]) == "7";
    assert [7, 16][..1] == [7];
    assert Csv([7, 16]) == "7" + "," + "16";
  }
}
