/** A whole serialization session as the serializer drives it: `Init`, a
    sequence of writes, `End`. Whatever window sizes the provider hands out,
    the provider afterwards holds exactly the text of the writes, in order. */
module Session {
  import opened Buffers
  import opened Serialize
  import Formatting
  import Catalog

  /** The four variable-length constant catalogs. */
  datatype ConstantCatalog = CommonCatalog | FormattingCatalog | MinCatalog | ValueCatalog

  /** The two escape catalogs. */
  datatype EscapeCatalog = Escape000Catalog | Escape001Catalog

  /** One call on the cursor, by the overload it selects. */
  datatype Write =
    | Char(ch: char)
    | Chars(cs: seq<char>, startIx: int, len: int)
    | Text(s: seq<char>)
    | Single(f: bv32)
    | Double(d: bv64)
    | Decimal(m: bv128)
    | Constant(catalog: ConstantCatalog, str: int)
    | Escape(escapes: EscapeCatalog, str: int)
    | DayOfWeek(day: int)

  /** The backing table of a constant catalog. */
  function Backing(tables: Catalog.Tables, c: ConstantCatalog): seq<char>
  {
    match c
    case CommonCatalog => tables.common
    case FormattingCatalog => tables.formatting
    case MinCatalog => tables.min
    case ValueCatalog => tables.value
  }

  /** The shared prefix of an escape catalog. */
  function EscapePrefix(tables: Catalog.Tables, e: EscapeCatalog): seq<char>
  {
    if e == Escape000Catalog then tables.escape000Prefix else tables.escape001Prefix
  }

  /** The payload characters of an escape catalog. */
  function EscapeChars(tables: Catalog.Tables, e: EscapeCatalog): seq<char>
  {
    if e == Escape000Catalog then tables.escape000Chars else tables.escape001Chars
  }

  /** The call does not index outside the character array or the catalog
      tables. */
  predicate Writable(w: Write, tables: Catalog.Tables)
  {
    match w
    case Chars(cs, startIx, len) => 0 <= startIx && 0 <= len && startIx + len <= |cs|
    case Constant(c, str) => Catalog.Resolves(Backing(tables, c), str)
    case Escape(e, str) => Catalog.EscapeResolves(EscapeChars(tables, e), str)
    case DayOfWeek(str) => Catalog.DayResolves(tables.daysOfWeek, str)
    case _ => true
  }

  /** No call of `ws` indexes outside the catalog tables. */
  predicate AllWritable(ws: seq<Write>, tables: Catalog.Tables)
  {
    forall i :: 0 <= i < |ws| ==> Writable(ws[i], tables)
  }

  /** Every prefix of writable calls is writable, and so is each call. */
  lemma AllWritablePrefix(ws: seq<Write>, n: nat, tables: Catalog.Tables)
    requires AllWritable(ws, tables) && n < |ws|
    ensures AllWritable(ws[..n], tables) && Writable(ws[n], tables)
  {
  }

  /** The text one call stands for. */
  function Rendered(w: Write, tables: Catalog.Tables, culture: Formatting.Culture): seq<char>
    requires Writable(w, tables)
  {
    match w
    case Char(ch) => [ch]
    case Chars(cs, startIx, len) => cs[startIx .. startIx + len]
    case Text(s) => s
    case Single(f) => culture.single(f)
    case Double(d) => culture.double(d)
    case Decimal(m) => culture.decimal(m)
    case Constant(c, str) => Catalog.Entry(Backing(tables, c), str)
    case Escape(e, str) => Catalog.Escape(EscapePrefix(tables, e), EscapeChars(tables, e), str)
    case DayOfWeek(str) => Catalog.Day(tables.daysOfWeek, str)
  }

  /** The text of a sequence of calls, in order. */
  function RenderedAll(ws: seq<Write>, tables: Catalog.Tables, culture: Formatting.Culture): seq<char>
    requires AllWritable(ws, tables)
  {
    if ws == [] then []
    else RenderedAll(ws[..|ws| - 1], tables, culture) + Rendered(ws[|ws| - 1], tables, culture)
  }

  lemma AppendAssoc(a: seq<char>, b: seq<char>, c: seq<char>)
    ensures (a + b) + c == a + (b + c)
  {
  }

  /** Carries out one call on a cursor inside a session. */
  method Perform(writer: ThunkWriter, w: Write, tables: Catalog.Tables, culture: Formatting.Culture)
    requires writer.Valid() && Writable(w, tables)
    modifies writer, writer.builder, writer.current
    ensures writer.Valid() && writer.builder == old(writer.builder)
    ensures writer.current == old(writer.current) || fresh(writer.current)
    ensures writer.Output() == old(writer.Output()) + Rendered(w, tables, culture)
  {
    match w
    case Char(ch) => writer.WriteChar(ch);
    case Chars(cs, startIx, len) =>
      var ch := new char[|cs|](i requires 0 <= i < |cs| => cs[i]);
      assert ch[..] == cs;
      writer.WriteChars(ch, startIx, len);
    case Text(s) => writer.WriteString(s);
    case Single(f) => writer.WriteSingle(f, culture);
    case Double(d) => writer.WriteDouble(d, culture);
    case Decimal(m) => writer.WriteDecimal(m, culture);
    case Constant(c, str) =>
      match c {
        case CommonCatalog => writer.WriteCommonConstant(str, tables);
        case FormattingCatalog => writer.WriteFormattingConstant(str, tables);
        case MinCatalog => writer.WriteMinConstant(str, tables);
        case ValueCatalog => writer.WriteValueConstant(str, tables);
      }
    case Escape(e, str) =>
      if e == Escape000Catalog {
        writer.Write000EscapeConstant(str, tables);
      } else {
        writer.Write001EscapeConstant(str, tables);
      }
    case DayOfWeek(str) => writer.WriteDayOfWeek(str, tables);
  }

  /** Carries out the calls of `ws` in order on a cursor inside a session. */
  method PerformAll(writer: ThunkWriter, ws: seq<Write>, tables: Catalog.Tables, culture: Formatting.Culture)
    requires writer.Valid()
    requires AllWritable(ws, tables)
    modifies writer, writer.builder, writer.current
    ensures writer.Valid() && writer.builder == old(writer.builder)
    ensures writer.current == old(writer.current) || fresh(writer.current)
    ensures writer.Output() == old(writer.Output()) + RenderedAll(ws, tables, culture)
    decreases |ws|
  {
    if ws != [] {
      var n := |ws| - 1;
      AllWritablePrefix(ws, n, tables);
      var prefix, w := ws[..n], ws[n];
      ghost var before := writer.Output();
      PerformAll(writer, prefix, tables, culture);
      ghost var done := RenderedAll(prefix, tables, culture);
      Perform(writer, w, tables, culture);
      ghost var next := Rendered(w, tables, culture);
      assert RenderedAll(ws, tables, culture) == done + next;
      AppendAssoc(before, done, next);
    }
  }

  /** `Init`, every call of `ws` in order, `End`: the provider gains exactly
      the rendered text of the calls, and the cursor is left idle. */
  method Run(buffer: BufferWriter, ws: seq<Write>, tables: Catalog.Tables, culture: Formatting.Culture)
      returns (writer: ThunkWriter)
    requires AllWritable(ws, tables)
    modifies buffer
    ensures writer.Idle()
    ensures buffer.committed == old(buffer.committed) + RenderedAll(ws, tables, culture)
  {
    writer := new ThunkWriter();
    writer.Init(buffer);
    PerformAll(writer, ws, tables, culture);
    writer.End();
  }

  /** A provider whose windows are always `size` characters long, beyond
      what a doubling request asks for. */
  method FixedWindows(size: nat) returns (buffer: BufferWriter)
    requires size >= 1
    ensures fresh(buffer) && buffer.committed == [] && buffer.requests == 0
    ensures forall r: nat, h: nat :: buffer.WindowSize(r, h) == if h > 0 then h else size
  {
    buffer := new BufferWriter(size, (r: nat, h: nat) => 0);
  }

  /** The catalog entry `true` (offset 0, length 4) into a four-character
      window fills it exactly: one window requested, no growth, four
      characters committed. */
  method ExactFit() returns (committed: seq<char>, requests: nat)
    ensures committed == "true" && requests == 1
  {
    var tables := Catalog.Tables([], [], [], "truefalse", [], [], [], [], []);
    var id := Catalog.Pack(Catalog.Slot(0, 4));
    Catalog.EntryOfDeclared(tables.value, 0, 4);
    var buffer := FixedWindows(4);
    var writer := new ThunkWriter();
    writer.Init(buffer);
    writer.WriteValueConstant(id, tables);
    writer.End();
    committed, requests := buffer.committed, buffer.requests;
  }

  /** Five characters through two-character windows arrive intact and in
      order. */
  method SpanningWrites() returns (committed: seq<char>)
    ensures committed == "hello"
  {
    var buffer := FixedWindows(2);
    var writer := Run(buffer, [Text("hello")], Catalog.Tables([], [], [], [], [], [], [], [], []),
                      Formatting.Culture(_ => [], _ => [], _ => []));
    committed := buffer.committed;
  }
}
