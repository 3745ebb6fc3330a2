/** A decoder, a parser and a printer for three values, in place of the library's. */
module PrinterTable {
  import opened Domain
  import opened JsonModel
  import opened Lines
  import opened SseParser

  /** One value is printed on a line from which the reader gets it back. */
  predicate PrintsValue(codec: Codec, wire: Json -> seq<byte>, j: Json) {
    LF !in wire(j) && ReadLine(codec, wire(j)) == Payload(j)
  }

  function TableWire(a: Json, b: Json): Json -> seq<byte> {
    j => if j == a then [1] else if j == b then [2] else [3]
  }

  function TableDecode(line: seq<byte>): Option<string> {
    if line == [1] then Some(PREFIX + "a")
    else if line == [2] then Some(PREFIX + "b")
    else if line == [3] then Some(PREFIX + "c")
    else if line == [4] then Some(PREFIX + DONE)
    else None
  }

  function TableParse(a: Json, b: Json, c: Json, text: string): Option<Json> {
    if text == "a" then Some(a)
    else if text == "b" then Some(b)
    else if text == "c" then Some(c)
    else if text == "{}" then Some(Obj(map[]))
    else None
  }

  function TableCodec(a: Json, b: Json, c: Json): Codec {
    Codec(TableDecode, text => TableParse(a, b, c, text))
  }

  lemma TableLine(codec: Codec, line: seq<byte>, data: string)
    requires line != [] && line[|line| - 1] != CR && codec.decode(line) == Some(PREFIX + data)
    requires data != "" && !IsSpace(data[0]) && !IsSpace(data[|data| - 1])
    ensures ReadLine(codec, line) == ReadData(codec, data)
  {
    AfterPrefix(codec, data);
    TrimBare(data);
  }

  lemma ValueLine(codec: Codec, line: seq<byte>, data: string, j: Json)
    requires line != [] && line[|line| - 1] != CR && codec.decode(line) == Some(PREFIX + data)
    requires |data| == 1 && !IsSpace(data[0]) && codec.parse(data) == Some(j)
    ensures ReadLine(codec, line) == Payload(j)
  {
    TableLine(codec, line, data);
    assert data != DONE;
  }

  lemma ReadsFirst(a: Json, b: Json, c: Json)
    ensures ReadLine(TableCodec(a, b, c), [1]) == Payload(a)
  {
    ValueLine(TableCodec(a, b, c), [1], "a", a);
  }

  lemma ReadsSecond(a: Json, b: Json, c: Json)
    ensures ReadLine(TableCodec(a, b, c), [2]) == Payload(b)
  {
    ValueLine(TableCodec(a, b, c), [2], "b", b);
  }

  lemma ReadsThird(a: Json, b: Json, c: Json)
    ensures ReadLine(TableCodec(a, b, c), [3]) == Payload(c)
  {
    ValueLine(TableCodec(a, b, c), [3], "c", c);
  }

  lemma WireIs(a: Json, b: Json, j: Json)
    ensures TableWire(a, b)(j) == (if j == a then [1] else if j == b then [2] else [3])
    ensures LF !in TableWire(a, b)(j)
  {
  }

  lemma TablePrints(a: Json, b: Json, c: Json, j: Json)
    requires j == a || j == b || j == c
    ensures PrintsValue(TableCodec(a, b, c), TableWire(a, b), j)
  {
    ReadsFirst(a, b, c);
    ReadsSecond(a, b, c);
    ReadsThird(a, b, c);
    WireIs(a, b, j);
  }

  lemma TableDone(a: Json, b: Json, c: Json)
    ensures ReadLine(TableCodec(a, b, c), [4]) == DoneMark && TableCodec(a, b, c).parse("{}").Some?
  {
    TableLine(TableCodec(a, b, c), [4], DONE);
  }

  /** Any three values can be printed one on a line and read back, and so can the end mark. */
  lemma TableFor(a: Json, b: Json, c: Json) returns (codec: Codec, wire: Json -> seq<byte>)
    ensures codec.parse("{}").Some? && ReadLine(codec, [4]) == DoneMark
    ensures PrintsValue(codec, wire, a) && PrintsValue(codec, wire, b) && PrintsValue(codec, wire, c)
  {
    codec, wire := TableCodec(a, b, c), TableWire(a, b);
    TableDone(a, b, c);
    TablePrints(a, b, c, a);
    TablePrints(a, b, c, b);
    TablePrints(a, b, c, c);
  }
}
