/** The growable write cursor of the serializer: `ThunkWriter` over an
    `IBufferWriter<char>`.

    Its state is the provider it writes to (`builder`), the window the
    provider last handed out (`current`) and the write offset into that
    window (`start`). Between operations the text written so far is the
    provider's committed characters followed by `current[..start]`; that is
    `Output()`, and every write extends it by exactly the text of the write,
    whatever sizes of window the provider hands out. */
module Serialize {
  import opened Buffers
  import Formatting
  import Catalog
  import Growth

  /** `Span.CopyTo`: places `source` in `dest` from index `at` on, leaving
      everything before `at` as it was. */
  method CopyTo(source: seq<char>, dest: array<char>, at: nat)
    requires at + |source| <= dest.Length
    modifies dest
    ensures dest[..at] == old(dest[..at]) && dest[at .. at + |source|] == source
  {
    forall i | 0 <= i < |source| {
      dest[at + i] := source[i];
    }
  }

  class ThunkWriter {
    var builder: BufferWriter?
    var current: array<char>
    var start: int

    /** The cursor is inside a session: bound to a provider, writing into the
        provider's latest window, with the offset inside that window. */
    ghost predicate Valid()
      reads this, builder
    {
      builder != null && current == builder.last &&
      0 <= start <= current.Length && current.Length >= 1
    }

    /** The cursor is outside a session: no provider, an empty window. */
    ghost predicate Idle()
      reads this
    {
      builder == null && current.Length == 0 && start == 0
    }

    /** All text written in this session and before it, in order. */
    ghost function Output(): seq<char>
      reads this, builder, current
      requires Valid()
    {
      builder.committed + current[..start]
    }

    /** The space left in the window after the offset. */
    ghost function Room(): int
      reads this
    {
      current.Length - start
    }

    /** Every window the provider handed out from position `from` of its
        history on, except the current one, was shorter than `n`
        characters: growth happened only after an attempt to place `n`
        characters at the start of that window failed. */
    ghost predicate OnlyShortWindowsSince(from: nat, n: nat)
      reads this, builder
      requires Valid()
    {
      forall i :: from <= i < |builder.lengths| - 1 ==> builder.lengths[i] < n
    }

    /** The zero-initialised struct. */
    constructor ()
      ensures Idle()
    {
      builder := null;
      current := new char[0];
      start := 0;
    }

    /** Binds the provider and takes a window of its default size. */
    method Init(buffer: BufferWriter)
      modifies this, buffer
      ensures Valid() && builder == buffer && start == 0
      ensures fresh(current) && buffer.lastHint == 0
      ensures current.Length == buffer.WindowSize(old(buffer.requests), 0)
      ensures buffer.requests == old(buffer.requests) + 1
      ensures Output() == old(buffer.committed)
    {
      builder := buffer;
      start := 0;
      current := builder.GetSpan(0);
    }

    /** The growth policy. With nothing pending, the window was too small
        for one indivisible write: commit nothing and ask for twice the
        size. Otherwise commit the pending characters and ask for a window of
        the default size. Either way the text written so far is unchanged and
        writing continues at the start of a fresh window. */
    method AdvanceAndAcquire()
      requires Valid()
      modifies this, builder
      ensures Valid() && builder == old(builder) && start == 0 && fresh(current)
      ensures Output() == old(Output())
      ensures builder.requests == old(builder.requests) + 1
      ensures builder.received == old(builder.received) + current.Length
      ensures builder.lengths == old(builder.lengths) + [current.Length]
      ensures old(start) == 0 ==>
        builder.committed == old(builder.committed) &&
        builder.lastHint == 2 * old(current.Length) &&
        current.Length >= 2 * old(current.Length)
      ensures old(start) != 0 ==>
        builder.committed == old(builder.committed) + old(current[..start]) &&
        builder.lastHint == 0
    {
      var toFlush := start;
      if toFlush == 0 {
        var requestLength := current.Length * 2;
        builder.Advance(0);
        current := builder.GetSpan(requestLength);
      } else {
        builder.Advance(toFlush);
        current := builder.GetSpan(0);
      }
      start := 0;
    }

    /** The shared retry loop of the three numeric writers: format the whole
        value into the rest of the window, and on failure grow and format it
        again from scratch. A failed attempt changes neither the offset nor
        the text written; a value that fits never causes growth; and the
        window grows at most `1 + Doublings(1, n)` times for a text of length
        `n`, since once nothing is pending each retry at least doubles it. */
    method WriteFormatted<T>(v: T, format: T -> seq<char>)
      requires Valid()
      modifies this, builder, current
      ensures Valid() && builder == old(builder)
      ensures current == old(current) || fresh(current)
      ensures Output() == old(Output()) + format(v)
      ensures start == (if builder.requests == old(builder.requests) then old(start) else 0) + |format(v)|
      ensures |format(v)| <= old(current.Length - start) ==>
                current == old(current) && builder.requests == old(builder.requests) &&
                builder.committed == old(builder.committed)
      ensures old(builder.requests) <= builder.requests <= old(builder.requests) + 1 + Growth.Doublings(1, |format(v)|)
      ensures old(start) == 0 ==>
                builder.requests <= old(builder.requests) + Growth.Doublings(old(current.Length), |format(v)|)
      ensures |builder.lengths| - old(|builder.lengths|) == builder.requests - old(builder.requests)
      ensures builder.requests != old(builder.requests) ==> builder.lengths[|builder.lengths| - 1] == current.Length
      ensures OnlyShortWindowsSince(old(|builder.lengths|), |format(v)|)
    {
      var chars := FormatWithRetry(v, format);
      Skip(chars, format(v));
    }

    /** The `tryAgain` loop of the numeric writers: attempts to format `v`
        after the offset until an attempt succeeds, growing after each
        failure. Returns the length of the text, which then sits right after
        the offset. */
    method FormatWithRetry<T>(v: T, format: T -> seq<char>) returns (chars: nat)
      requires Valid()
      modifies this, builder, current
      ensures Valid() && builder == old(builder)
      ensures current == old(current) || fresh(current)
      ensures Output() == old(Output())
      ensures chars == |format(v)| && start + chars <= current.Length
      ensures current[start .. start + chars] == format(v)
      ensures start == (if builder.requests == old(builder.requests) then old(start) else 0)
      ensures |format(v)| <= old(current.Length - start) ==>
                current == old(current) && builder.requests == old(builder.requests) &&
                builder.committed == old(builder.committed)
      ensures old(builder.requests) <= builder.requests <= old(builder.requests) + 1 + Growth.Doublings(1, |format(v)|)
      ensures old(start) == 0 ==>
                builder.requests <= old(builder.requests) + Growth.Doublings(old(current.Length), |format(v)|)
      ensures |builder.lengths| - old(|builder.lengths|) == builder.requests - old(builder.requests)
      ensures builder.requests != old(builder.requests) ==> builder.lengths[|builder.lengths| - 1] == current.Length
      ensures OnlyShortWindowsSince(old(|builder.lengths|), |format(v)|)
    {
      ghost var n := |format(v)|;
      ghost var bound := RetryMeasure(n);
      ghost var from := |builder.lengths|;
      Growth.DoublingsAntitone(1, current.Length, n);
      var ok;
      ok, chars := Formatting.TryFormat(v, format, current, start);
      while !ok
        invariant Valid() && builder == old(builder)
        invariant current == old(current) || fresh(current)
        invariant Output() == old(Output())
        invariant ok <==> n <= current.Length - start
        invariant ok ==> chars == n && current[start .. start + chars] == format(v)
        invariant old(builder.requests) <= builder.requests
        invariant builder.requests == old(builder.requests) ==>
                    current == old(current) && start == old(start) &&
                    builder.committed == old(builder.committed)
        invariant builder.requests != old(builder.requests) ==> start == 0
        invariant n <= old(current.Length - start) ==> builder.requests == old(builder.requests)
        invariant builder.requests - old(builder.requests) + RetryMeasure(n) <= bound
        invariant |builder.lengths| - from == builder.requests - old(builder.requests)
        invariant builder.requests != old(builder.requests) ==> builder.lengths[|builder.lengths| - 1] == current.Length
        invariant OnlyShortWindowsSince(from, n)
        decreases RetryMeasure(n)
      {
        GrowFor(n);
        ok, chars := Formatting.TryFormat(v, format, current, start);
      }
    }

    /** How many more failed attempts a text of length `n` can cause: with
        nothing pending, the doublings the window still needs; otherwise one
        growth that commits, then at most the doublings a one-character
        window needs. */
    ghost function RetryMeasure(n: nat): nat
      reads this, builder
      requires Valid()
    {
      if start == 0 then Growth.Doublings(current.Length, n) else 1 + Growth.Doublings(1, n)
    }

    /** Growth after an attempt to place `n` characters failed: the retry
        measure drops, because either the pending output was committed or
        the window at least doubled. */
    method GrowFor(ghost n: nat)
      requires Valid() && current.Length - start < n
      modifies this, builder
      ensures Valid() && builder == old(builder) && start == 0 && fresh(current)
      ensures Output() == old(Output())
      ensures builder.requests == old(builder.requests) + 1
      ensures builder.lengths == old(builder.lengths) + [current.Length]
      ensures RetryMeasure(n) < old(RetryMeasure(n))
    {
      ghost var wasEmpty := start == 0;
      ghost var before := current.Length;
      AdvanceAndAcquire();
      if wasEmpty {
        Growth.DoublingsAntitone(2 * before, current.Length, n);
      } else {
        Growth.DoublingsAntitone(1, current.Length, n);
      }
    }

    /** `Write(float)`. */
    method WriteSingle(f: bv32, culture: Formatting.Culture)
      requires Valid()
      modifies this, builder, current
      ensures Valid() && builder == old(builder)
      ensures current == old(current) || fresh(current)
      ensures Output() == old(Output()) + culture.single(f)
      ensures start == (if builder.requests == old(builder.requests) then old(start) else 0) + |culture.single(f)|
      ensures old(builder.requests) <= builder.requests <= old(builder.requests) + 1 + Growth.Doublings(1, |culture.single(f)|)
      ensures old(start) == 0 ==>
                builder.requests <= old(builder.requests) + Growth.Doublings(old(current.Length), |culture.single(f)|)
      ensures |builder.lengths| - old(|builder.lengths|) == builder.requests - old(builder.requests)
      ensures builder.requests != old(builder.requests) ==> builder.lengths[|builder.lengths| - 1] == current.Length
      ensures OnlyShortWindowsSince(old(|builder.lengths|), |culture.single(f)|)
      ensures |culture.single(f)| <= old(current.Length - start) ==>
                current == old(current) && start == old(start) + |culture.single(f)| &&
                builder.requests == old(builder.requests) &&
                builder.committed == old(builder.committed)
    {
      WriteFormatted(f, culture.single);
    }

    /** `Write(double)`. */
    method WriteDouble(d: bv64, culture: Formatting.Culture)
      requires Valid()
      modifies this, builder, current
      ensures Valid() && builder == old(builder)
      ensures current == old(current) || fresh(current)
      ensures Output() == old(Output()) + culture.double(d)
      ensures start == (if builder.requests == old(builder.requests) then old(start) else 0) + |culture.double(d)|
      ensures old(builder.requests) <= builder.requests <= old(builder.requests) + 1 + Growth.Doublings(1, |culture.double(d)|)
      ensures old(start) == 0 ==>
                builder.requests <= old(builder.requests) + Growth.Doublings(old(current.Length), |culture.double(d)|)
      ensures |builder.lengths| - old(|builder.lengths|) == builder.requests - old(builder.requests)
      ensures builder.requests != old(builder.requests) ==> builder.lengths[|builder.lengths| - 1] == current.Length
      ensures OnlyShortWindowsSince(old(|builder.lengths|), |culture.double(d)|)
      ensures |culture.double(d)| <= old(current.Length - start) ==>
                current == old(current) && start == old(start) + |culture.double(d)| &&
                builder.requests == old(builder.requests) &&
                builder.committed == old(builder.committed)
    {
      WriteFormatted(d, culture.double);
    }

    /** `Write(decimal)`. */
    method WriteDecimal(m: bv128, culture: Formatting.Culture)
      requires Valid()
      modifies this, builder, current
      ensures Valid() && builder == old(builder)
      ensures current == old(current) || fresh(current)
      ensures Output() == old(Output()) + culture.decimal(m)
      ensures start == (if builder.requests == old(builder.requests) then old(start) else 0) + |culture.decimal(m)|
      ensures old(builder.requests) <= builder.requests <= old(builder.requests) + 1 + Growth.Doublings(1, |culture.decimal(m)|)
      ensures old(start) == 0 ==>
                builder.requests <= old(builder.requests) + Growth.Doublings(old(current.Length), |culture.decimal(m)|)
      ensures |builder.lengths| - old(|builder.lengths|) == builder.requests - old(builder.requests)
      ensures builder.requests != old(builder.requests) ==> builder.lengths[|builder.lengths| - 1] == current.Length
      ensures OnlyShortWindowsSince(old(|builder.lengths|), |culture.decimal(m)|)
      ensures |culture.decimal(m)| <= old(current.Length - start) ==>
                current == old(current) && start == old(start) + |culture.decimal(m)| &&
                builder.requests == old(builder.requests) &&
                builder.committed == old(builder.committed)
    {
      WriteFormatted(m, culture.decimal);
    }

    /** The `tryAgain` step of `WriteSpan`: while the window has no room
        left, grow it. A window with room is left alone. */
    method MakeRoom()
      requires Valid()
      modifies this, builder
      ensures Valid() && builder == old(builder) && start < current.Length
      ensures current == old(current) || fresh(current)
      ensures Output() == old(Output())
      ensures builder.received - old(builder.received) + old(Room()) == Room()
      ensures old(start) < old(current.Length) ==>
                current == old(current) && start == old(start) &&
                builder.requests == old(builder.requests) &&
                builder.committed == old(builder.committed)
    {
      while current.Length - start == 0
        invariant Valid() && builder == old(builder)
        invariant current == old(current) || fresh(current)
        invariant Output() == old(Output())
        invariant builder.received - old(builder.received) + old(Room()) == Room()
        invariant old(start) < old(current.Length) ==>
                    current == old(current) && start == old(start) &&
                    builder.requests == old(builder.requests) &&
                    builder.committed == old(builder.committed)
        decreases if current.Length == start then 1 else 0
      {
        AdvanceAndAcquire();
      }
    }

    /** `Start += chars` after `text` was placed right after the offset:
        the text becomes part of the output. */
    method Skip(chars: nat, ghost text: seq<char>)
      requires Valid() && start + chars <= current.Length
      requires chars == |text| && current[start .. start + chars] == text
      modifies this
      ensures Valid() && builder == old(builder) && current == old(current)
      ensures start == old(start) + chars
      ensures Output() == old(Output()) + text
    {
      assert current[..start + chars] == current[..start] + text;
      start := start + chars;
    }

    /** Copies a chunk that fits into the rest of the window and moves the
        offset past it; no growth. */
    method Place(chunk: seq<char>)
      requires Valid() && |chunk| <= current.Length - start
      modifies this, current
      ensures Valid() && builder == old(builder) && current == old(current)
      ensures start == old(start) + |chunk|
      ensures builder.requests == old(builder.requests)
      ensures builder.committed == old(builder.committed)
      ensures Output() == old(Output()) + chunk
    {
      CopyTo(chunk, current, start);
      Skip(|chunk|, chunk);
    }

    /** Copies a run of characters in maximal chunks: as much as the window
        has room for, then growth once the window is full and characters
        remain. An empty run changes nothing; a run that fits in the rest of
        the window never causes growth. */
    method WriteSpan(source: seq<char>)
      requires Valid()
      modifies this, builder, current
      ensures Valid() && builder == old(builder)
      ensures current == old(current) || fresh(current)
      ensures Output() == old(Output()) + source
      ensures builder.received - old(builder.received) + old(Room()) == |source| + Room()
      ensures builder.requests != old(builder.requests) ==> start > 0
      ensures |source| <= old(current.Length - start) ==>
                current == old(current) && start == old(start) + |source| &&
                builder.requests == old(builder.requests) &&
                builder.committed == old(builder.committed)
    {
      ghost var fits := |source| <= current.Length - start;
      ghost var done := 0;
      var toCopy := source;
      while toCopy != []
        invariant Valid() && builder == old(builder)
        invariant current == old(current) || fresh(current)
        invariant 0 <= done <= |source| && toCopy == source[done..]
        invariant Output() == old(Output()) + source[..done]
        invariant builder.received - old(builder.received) + old(Room()) == done + Room()
        invariant builder.requests != old(builder.requests) ==> start > 0
        invariant fits ==> current == old(current) && start == old(start) + done &&
                           builder.requests == old(builder.requests) &&
                           builder.committed == old(builder.committed)
        decreases |toCopy|
      {
        MakeRoom();
        var available := current.Length - start;
        var copyLen := if available < |toCopy| then available else |toCopy|;
        Place(toCopy[..copyLen]);
        assert source[..done + copyLen] == source[..done] + toCopy[..copyLen];
        toCopy := toCopy[copyLen..];
        done := done + copyLen;
      }
    }

    /** `Write(char[], int, int)`: the run `ch[startIx .. startIx + len]`;
        a range outside the array is a contract violation. */
    method WriteChars(ch: array<char>, startIx: int, len: int)
      requires 0 <= startIx && 0 <= len && startIx + len <= ch.Length
      requires Valid()
      modifies this, builder, current
      ensures Valid() && builder == old(builder)
      ensures current == old(current) || fresh(current)
      ensures Output() == old(Output()) + old(ch[startIx .. startIx + len])
      ensures builder.received - old(builder.received) + old(Room()) == len + Room()
      ensures builder.requests != old(builder.requests) ==> start > 0
      ensures len <= old(current.Length - start) ==>
                current == old(current) && start == old(start) + len &&
                builder.requests == old(builder.requests) &&
                builder.committed == old(builder.committed)
    {
      var toCopy := ch[startIx .. startIx + len];
      WriteSpan(toCopy);
    }

    /** `Write(string)`. */
    method WriteString(strRef: seq<char>)
      requires Valid()
      modifies this, builder, current
      ensures Valid() && builder == old(builder)
      ensures current == old(current) || fresh(current)
      ensures Output() == old(Output()) + strRef
      ensures builder.received - old(builder.received) + old(Room()) == |strRef| + Room()
      ensures builder.requests != old(builder.requests) ==> start > 0
      ensures |strRef| <= old(current.Length - start) ==>
                current == old(current) && start == old(start) + |strRef| &&
                builder.requests == old(builder.requests) &&
                builder.committed == old(builder.committed)
    {
      WriteSpan(strRef);
    }

    /** `Write(char)`: grows only when the window is full, then stores the
        character at the offset and moves past it. */
    method WriteChar(ch: char)
      requires Valid()
      modifies this, builder, current
      ensures Valid() && builder == old(builder)
      ensures current == old(current) || fresh(current)
      ensures Output() == old(Output()) + [ch]
      ensures builder.received - old(builder.received) + old(Room()) == 1 + Room()
      ensures old(start) < old(current.Length) ==>
                current == old(current) && start == old(start) + 1 &&
                builder.requests == old(builder.requests) &&
                builder.committed == old(builder.committed)
      ensures old(start) == old(current.Length) ==>
                builder.requests == old(builder.requests) + 1 && start == 1
    {
      if start == current.Length {
        AdvanceAndAcquire();
      }
      current[start] := ch;
      assert current[..start + 1] == current[..start] + [ch];
      start := start + 1;
    }

    method WriteCommonConstant(str: int, tables: Catalog.Tables)
      requires Catalog.Resolves(tables.common, str)
      requires Valid()
      modifies this, builder, current
      ensures Valid() && builder == old(builder)
      ensures current == old(current) || fresh(current)
      ensures Output() == old(Output()) + Catalog.Entry(tables.common, str)
      ensures builder.received - old(builder.received) + old(Room()) ==
                |Catalog.Entry(tables.common, str)| + Room()
      ensures builder.requests != old(builder.requests) ==> start > 0
      ensures |Catalog.Entry(tables.common, str)| <= old(current.Length - start) ==>
                current == old(current) && builder.requests == old(builder.requests) &&
                builder.committed == old(builder.committed)
    {
      var subset := Catalog.Entry(tables.common, str);
      WriteSpan(subset);
    }

    method WriteFormattingConstant(str: int, tables: Catalog.Tables)
      requires Catalog.Resolves(tables.formatting, str)
      requires Valid()
      modifies this, builder, current
      ensures Valid() && builder == old(builder)
      ensures current == old(current) || fresh(current)
      ensures Output() == old(Output()) + Catalog.Entry(tables.formatting, str)
      ensures builder.received - old(builder.received) + old(Room()) ==
                |Catalog.Entry(tables.formatting, str)| + Room()
      ensures builder.requests != old(builder.requests) ==> start > 0
      ensures |Catalog.Entry(tables.formatting, str)| <= old(current.Length - start) ==>
                current == old(current) && builder.requests == old(builder.requests) &&
                builder.committed == old(builder.committed)
    {
      var subset := Catalog.Entry(tables.formatting, str);
      WriteSpan(subset);
    }

    method WriteMinConstant(str: int, tables: Catalog.Tables)
      requires Catalog.Resolves(tables.min, str)
      requires Valid()
      modifies this, builder, current
      ensures Valid() && builder == old(builder)
      ensures current == old(current) || fresh(current)
      ensures Output() == old(Output()) + Catalog.Entry(tables.min, str)
      ensures builder.received - old(builder.received) + old(Room()) ==
                |Catalog.Entry(tables.min, str)| + Room()
      ensures builder.requests != old(builder.requests) ==> start > 0
      ensures |Catalog.Entry(tables.min, str)| <= old(current.Length - start) ==>
                current == old(current) && builder.requests == old(builder.requests) &&
                builder.committed == old(builder.committed)
    {
      var subset := Catalog.Entry(tables.min, str);
      WriteSpan(subset);
    }

    method WriteValueConstant(str: int, tables: Catalog.Tables)
      requires Catalog.Resolves(tables.value, str)
      requires Valid()
      modifies this, builder, current
      ensures Valid() && builder == old(builder)
      ensures current == old(current) || fresh(current)
      ensures Output() == old(Output()) + Catalog.Entry(tables.value, str)
      ensures builder.received - old(builder.received) + old(Room()) ==
                |Catalog.Entry(tables.value, str)| + Room()
      ensures builder.requests != old(builder.requests) ==> start > 0
      ensures |Catalog.Entry(tables.value, str)| <= old(current.Length - start) ==>
                current == old(current) && builder.requests == old(builder.requests) &&
                builder.committed == old(builder.committed)
    {
      var subset := Catalog.Entry(tables.value, str);
      WriteSpan(subset);
    }

    /** The shared prefix, then the entry's payload character. */
    method Write000EscapeConstant(str: int, tables: Catalog.Tables)
      requires Catalog.EscapeResolves(tables.escape000Chars, str)
      requires Valid()
      modifies this, builder, current
      ensures Valid() && builder == old(builder)
      ensures current == old(current) || fresh(current)
      ensures Output() == old(Output()) + Catalog.Escape(tables.escape000Prefix, tables.escape000Chars, str)
      ensures builder.received - old(builder.received) + old(Room()) ==
                |tables.escape000Prefix| + 1 + Room()
      ensures start > 0
    {
      var ix := Catalog.Byte(str);
      WriteSpan(tables.escape000Prefix);
      WriteChar(tables.escape000Chars[ix]);
    }

    method Write001EscapeConstant(str: int, tables: Catalog.Tables)
      requires Catalog.EscapeResolves(tables.escape001Chars, str)
      requires Valid()
      modifies this, builder, current
      ensures Valid() && builder == old(builder)
      ensures current == old(current) || fresh(current)
      ensures Output() == old(Output()) + Catalog.Escape(tables.escape001Prefix, tables.escape001Chars, str)
      ensures builder.received - old(builder.received) + old(Room()) ==
                |tables.escape001Prefix| + 1 + Room()
      ensures start > 0
    {
      var ix := Catalog.Byte(str);
      WriteSpan(tables.escape001Prefix);
      WriteChar(tables.escape001Chars[ix]);
    }

    method WriteDayOfWeek(str: int, tables: Catalog.Tables)
      requires Catalog.DayResolves(tables.daysOfWeek, str)
      requires Valid()
      modifies this, builder, current
      ensures Valid() && builder == old(builder)
      ensures current == old(current) || fresh(current)
      ensures Output() == old(Output()) + Catalog.Day(tables.daysOfWeek, str)
      ensures builder.received - old(builder.received) + old(Room()) == Catalog.DayLength + Room()
      ensures builder.requests != old(builder.requests) ==> start > 0
      ensures Catalog.DayLength <= old(current.Length - start) ==>
                current == old(current) && builder.requests == old(builder.requests) &&
                builder.committed == old(builder.committed)
    {
      var subset := Catalog.Day(tables.daysOfWeek, str);
      WriteSpan(subset);
    }

    /** Commits what is pending and leaves the session: the provider then
        holds exactly the text written, and the cursor is idle. */
    method End()
      requires Valid()
      modifies this, builder
      ensures Idle()
      ensures old(builder).committed == old(Output())
      ensures old(builder).requests == old(builder.requests)
    {
      builder.Advance(start);
      current := new char[0];
      start := 0;
      builder := null;
    }
  }
}
