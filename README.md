# Jil's growable write cursor, in Dafny

This project models `ThunkWriter` over `IBufferWriter<char>` from the Jil JSON
serializer (`Jil/Serialize/ThunkWriter.IBufferWriter.cs`). It is the
component that writes serialized text straight into memory that a buffer
provider hands out. The cursor holds three things:

- the provider (`Builder`);
- the window the provider last returned (`Current`);
- the write offset into that window (`Start`).

Between operations, the text written so far is the provider's committed
characters followed by `Current[0..Start)`. The model calls this
`Output()`. Every write is proved to extend `Output()` by exactly its own
text, in order, for any sequence of window sizes the provider hands out.

Files, one module each:

- `catalog.dfy` (`Catalog`): the packed `ConstantString_*` ids. Their
  `(ushort)` and `(byte)` casts, the offset/length decode and its inverse,
  and the text each id stands for. `ThunkWriterCharArrays` is a record of
  immutable tables (`Tables`).
- `buffers.dfy` (`Buffers`): `IBufferWriter<char>` as a class
  `BufferWriter` with `Advance` and `GetSpan`. Window sizes come from an
  arbitrary `slack` function, so one class stands for every sizing policy.
  The cursor's proofs use what the contract of `GetSpan` states: the window
  is fresh and non-empty, it has exactly the size that the provider's policy
  gives for the request, and the committed text is unchanged. Only `Init`
  and the two scenarios state anything that depends on that exact size. The
  provider also counts its requests and, as ghost bookkeeping, the window
  space it has handed out.
- `formatting.dfy` (`Formatting`): `TryFormat` for `float`, `double` and
  `decimal`. It is all or nothing. The formatted text itself is left
  uninterpreted: a `Culture` record carries one formatting function per
  numeric kind.
- `growth.dfy` (`Growth`): how many doublings a window needs to reach a
  size. This bounds the numeric retry loop.
- `thunkwriter.dfy` (`Serialize`): the class `ThunkWriter` and every
  operation of the cursor.
- `session.dfy` (`Session`): a whole session, meaning `Init`, any sequence
  of writes, then `End`. It also holds two concrete scenarios.

The model follows the code on one point that is easy to misread. With nothing
pending, `AdvanceAndAcquire` asks for twice the length of the window it
actually *received* (`Current.Length * 2`). It does not ask for twice the size
it last *requested*.

## Model

| member | source | states |
|---|---|---|
| `Catalog.UShort` | Jil/Serialize/ThunkWriter.IBufferWriter.cs:127 | `(ushort)str` is the unique residue of `str` modulo 65536 and leaves ids already in range unchanged |
| `Catalog.Byte` | Jil/Serialize/ThunkWriter.IBufferWriter.cs:179 | `(byte)str` is the unique residue of `str` modulo 256 and leaves ids already in range unchanged |
| `Catalog.Unpack` | Jil/Serialize/ThunkWriter.IBufferWriter.cs:127-129 | the decoded offset (`>> 8`) and length (`& 0xFF`) are both below 256, and `offset * 256 + length` gives back the id |
| `Catalog.Pack` | Jil/Serialize/ThunkWriter.IBufferWriter.cs:127-129 | packing an offset and a length below 256 gives a 16-bit id that the decoder turns back into the same slot |
| `Catalog.PackUnpack` | Jil/Serialize/ThunkWriter.IBufferWriter.cs:127-129 | the other half of the round trip: every 16-bit id is the packing of its own decoded slot |
| `Catalog.Entry` | Jil/Serialize/ThunkWriter.IBufferWriter.cs:132 | a variable-length id stands for exactly `length` characters of its table, starting at `offset`, and at most 255 of them |
| `Catalog.EntryOfDeclared` | Jil/Serialize/ThunkWriter.IBufferWriter.cs:125-135 | catalog fidelity: an entry declared over `backing[offset .. offset + length)` resolves, and its text is exactly those characters |
| `Catalog.DayOfDeclared` | Jil/Serialize/ThunkWriter.IBufferWriter.cs:198-200 | catalog fidelity for days: the id of an abbreviation declared at an offset below 256 resolves, and writes exactly the three characters of `DaysOfWeek` at that offset |
| `Catalog.EscapeOfDeclared` | Jil/Serialize/ThunkWriter.IBufferWriter.cs:179-183 | catalog fidelity for escapes: the id of a payload character declared at an index below 256 resolves, and writes the shared prefix followed by exactly `Chars` at that index |
| `Buffers.BufferWriter.Advance` | Jil/Serialize/ThunkWriter.IBufferWriter.cs:27 | committing `count` characters appends exactly the first `count` characters of the last window to the committed text |
| `Buffers.BufferWriter.GetSpan` | Jil/Serialize/ThunkWriter.IBufferWriter.cs:23 | a window is fresh, non-empty and at least as long as the hint; committed text is unchanged; the request is counted, the window's length is recorded in the provider's history, and the window space handed out is totalled |
| `Formatting.TryFormat` | Jil/Serialize/ThunkWriter.IBufferWriter.cs:46 | formatting succeeds exactly when the whole text fits after the offset; on success the text sits right after the offset; nothing before the offset is touched either way |
| `Growth.DoublingsLeast` | Jil/Serialize/ThunkWriter.IBufferWriter.cs:21 | `Doublings(len, need)` is the least number of doublings that makes a window of `len` hold `need` characters |
| `Growth.DoublingsAntitone` | Jil/Serialize/ThunkWriter.IBufferWriter.cs:21 | a larger window never needs more doublings than a smaller one |
| `Growth.DoublingsStep` | Jil/Serialize/ThunkWriter.IBufferWriter.cs:21 | a window too small for `need` needs exactly one doubling fewer once doubled |
| `Serialize.CopyTo` | Jil/Serialize/ThunkWriter.IBufferWriter.cs:105 | the chunk lands right after the offset and nothing before the offset changes |
| `Serialize.ThunkWriter.Init` | Jil/Serialize/ThunkWriter.IBufferWriter.cs:35-40 | binds the provider with offset 0 in a fresh window of the default size (hint 0); the session's output so far is exactly what the provider had already committed |
| `Serialize.ThunkWriter.AdvanceAndAcquire` | Jil/Serialize/ThunkWriter.IBufferWriter.cs:15-32 | with offset 0: commits nothing and asks for twice the window's length; otherwise: commits exactly `Current[0..Start)` and asks with the default hint; either way the output is unchanged, the offset is 0, the window is fresh, and the window space received grows by the new window's length |
| `Serialize.ThunkWriter.FormatWithRetry` | Jil/Serialize/ThunkWriter.IBufferWriter.cs:45-50 | retries until the whole text fits; failed attempts leave the output unchanged; a value that fits causes no growth; every window acquired before the final one was too short for the text, so growth stops at the first window that holds it; with nothing pending, at most `Doublings(window, n)` windows are requested, and otherwise at most `1 + Doublings(1, n)` |
| `Serialize.ThunkWriter.GrowFor` | Jil/Serialize/ThunkWriter.IBufferWriter.cs:48 | growth after a failed attempt strictly decreases the retry measure (the termination argument) |
| `Serialize.ThunkWriter.Skip` | Jil/Serialize/ThunkWriter.IBufferWriter.cs:52 | moving the offset past text already in the window adds exactly that text to the output |
| `Serialize.ThunkWriter.WriteFormatted` | Jil/Serialize/ThunkWriter.IBufferWriter.cs:43-79 | a numeric write adds exactly `Format(v)` to the output, all or nothing; the offset ends at the old offset (or 0 after growth) plus its length; no growth when it fits; every window acquired before the final one was too short for the text; with nothing pending, at most the doublings the current window needs, otherwise at most one commit plus the doublings a one-character window needs |
| `Serialize.ThunkWriter.WriteSingle` | Jil/Serialize/ThunkWriter.IBufferWriter.cs:43-53 | `Write(float)` adds exactly the invariant-culture text of the value; no growth when it fits; afterwards the offset is the old offset (or 0 after growth) plus the text's length; every window acquired before the final one was too short for the text; the number of requests is bounded as for `WriteFormatted` |
| `Serialize.ThunkWriter.WriteDouble` | Jil/Serialize/ThunkWriter.IBufferWriter.cs:56-66 | `Write(double)` adds exactly the invariant-culture text of the value; no growth when it fits; afterwards the offset is the old offset (or 0 after growth) plus the text's length; every window acquired before the final one was too short for the text; the number of requests is bounded as for `WriteFormatted` |
| `Serialize.ThunkWriter.WriteDecimal` | Jil/Serialize/ThunkWriter.IBufferWriter.cs:69-79 | `Write(decimal)` adds exactly the invariant-culture text of the value; no growth when it fits; afterwards the offset is the old offset (or 0 after growth) plus the text's length; every window acquired before the final one was too short for the text; the number of requests is bounded as for `WriteFormatted` |
| `Serialize.ThunkWriter.MakeRoom` | Jil/Serialize/ThunkWriter.IBufferWriter.cs:94-100 | grows only while the window is full and ends with room for at least one character; a window with room is left alone; the window space received equals the room gained, so no space is abandoned |
| `Serialize.ThunkWriter.Place` | Jil/Serialize/ThunkWriter.IBufferWriter.cs:102-108 | a chunk that fits is added to the output and the offset moves past it, without growth |
| `Serialize.ThunkWriter.WriteSpan` | Jil/Serialize/ThunkWriter.IBufferWriter.cs:90-110 | the output grows by exactly the source, in order, with no loss or duplication, whatever the window sizes; an empty source or one that fits (exactly, too) causes no growth and moves the offset by its length; the old room plus the window space received equals the source's length plus the room left, and the final window holds at least one character of the source whenever a window was acquired, so growth happens only on a full window while characters remain |
| `Serialize.ThunkWriter.WriteChars` | Jil/Serialize/ThunkWriter.IBufferWriter.cs:82-87 | the output grows by exactly `ch[startIx .. startIx + len)`; callers must keep the range inside the array; no growth when it fits; no window space is abandoned, and every window acquired during the write receives at least one character |
| `Serialize.ThunkWriter.WriteString` | Jil/Serialize/ThunkWriter.IBufferWriter.cs:206-209 | the output grows by exactly the string; no growth when it fits; no window space is abandoned, and every window acquired during the write receives at least one character |
| `Serialize.ThunkWriter.WriteChar` | Jil/Serialize/ThunkWriter.IBufferWriter.cs:113-122 | the output grows by exactly the character; growth happens only when the offset is at the end of the window, and then the offset becomes 1; otherwise the offset rises by one in the same window; no window space is abandoned |
| `Serialize.ThunkWriter.WriteCommonConstant` | Jil/Serialize/ThunkWriter.IBufferWriter.cs:125-135 | the output grows by exactly the common-catalog entry of the id; no growth when it fits; no window space is abandoned, and every window acquired during the write receives at least one character |
| `Serialize.ThunkWriter.WriteFormattingConstant` | Jil/Serialize/ThunkWriter.IBufferWriter.cs:138-148 | the output grows by exactly the formatting-catalog entry of the id; no growth when it fits; no window space is abandoned, and every window acquired during the write receives at least one character |
| `Serialize.ThunkWriter.WriteMinConstant` | Jil/Serialize/ThunkWriter.IBufferWriter.cs:151-161 | the output grows by exactly the min-catalog entry of the id; no growth when it fits; no window space is abandoned, and every window acquired during the write receives at least one character |
| `Serialize.ThunkWriter.WriteValueConstant` | Jil/Serialize/ThunkWriter.IBufferWriter.cs:164-174 | the output grows by exactly the value-catalog entry of the id; no growth when it fits; no window space is abandoned, and every window acquired during the write receives at least one character |
| `Serialize.ThunkWriter.Write000EscapeConstant` | Jil/Serialize/ThunkWriter.IBufferWriter.cs:177-184 | the output grows by the `000` escape prefix followed by the entry's payload character; no window space is abandoned, and the write ends with the payload character in the window, so there is no growth after it |
| `Serialize.ThunkWriter.Write001EscapeConstant` | Jil/Serialize/ThunkWriter.IBufferWriter.cs:187-193 | the output grows by the `001` escape prefix followed by the entry's payload character; no window space is abandoned, and the write ends with the payload character in the window, so there is no growth after it |
| `Serialize.ThunkWriter.WriteDayOfWeek` | Jil/Serialize/ThunkWriter.IBufferWriter.cs:196-203 | the output grows by exactly the three-character day abbreviation; no growth when it fits; no window space is abandoned, and every window acquired during the write receives at least one character |
| `Serialize.ThunkWriter.End` | Jil/Serialize/ThunkWriter.IBufferWriter.cs:212-218 | commits exactly the pending characters, so the provider then holds the whole output; the cursor is then idle (no provider, empty window, offset 0); no window is requested |
| `Session.Perform` | Jil/Serialize/ThunkWriter.IBufferWriter.cs:43-209 | each kind of write, `Write(char[], int, int)` included, adds exactly its rendered text to the output |
| `Session.PerformAll` | Jil/Serialize/ThunkWriter.IBufferWriter.cs:43-209 | a sequence of writes adds the concatenation of their texts, in order |
| `Session.Run` | Jil/Serialize/ThunkWriter.IBufferWriter.cs:35-40 | over `Init`, any writes and `End`, the provider gains exactly the concatenation of the writes' texts, and the cursor ends idle |
| `Session.ExactFit` | Jil/Serialize/ThunkWriter.IBufferWriter.cs:92-100 | a four-character catalog entry into a four-character window: one window requested, no growth, `"true"` committed |
| `Session.SpanningWrites` | Jil/Serialize/ThunkWriter.IBufferWriter.cs:92-109 | `"hello"` written through two-character windows is committed intact and in order |

## Left out

- `Jil/SerializeDynamic/WriterProxy.cs` is not part of this model. It forwards
  characters and strings to a `TextWriter`, with no windowing and no logic of
  its own.
- The text that `float`, `double` and `decimal` `TryFormat` produce under
  `CultureInfo.InvariantCulture`. This is .NET library formatting, and
  floating-point formatting at that, so it stays an uninterpreted function in
  `Formatting.Culture`.
- `Formatting.TryFormat`: on failure, .NET leaves the destination's contents
  unspecified. The contract promises only that nothing before the offset
  changes. The model's body writes nothing.
- The real `IBufferWriter<char>` implementation, the contents of
  `ThunkWriterCharArrays`, and the values of the `ConstantString_*` enums.
  None of these are part of this model. The tables are parameters. An id that
  would make `Slice` or an array index throw is excluded by a precondition,
  because it is a programming error in the catalog.
- Allocation failures from the provider, and the exceptions that `Advance`
  throws for a count larger than the window, are not modelled. `Advance`
  requires a count within the window instead.
- Using the cursor after `End`, or calling `End` twice, is not modelled as
  the source's null dereference. Every operation requires the cursor to be
  inside a session.
- `Serialize.ThunkWriter.AdvanceAndAcquire`: does not model the 32-bit
  overflow of `Current.Length * 2` for windows of 2^30 characters or more,
  because integers here are unbounded. The same holds for `Start` in every
  writer.
- `Serialize.ThunkWriter.WriteChars`: the source span is read as a snapshot
  when the call starts. A character array that aliases the provider's own
  window is not modelled.
- Compiler and runtime concerns with no behavioural content:
  `MethodImplOptions.AggressiveInlining`, `unsafe`, the `#if
  BUFFER_AND_SEQUENCE` guard, and the `ref struct` and `Span` lifetime rules.
  After `Advance`, the model keeps the old window readable.
- The `goto tryAgain` jumps are written as `while` loops with termination
  measures.
  - In `WriteSpan`, the re-test is the loop in `MakeRoom`, and the provider's
    non-empty windows end it after one growth.
  - In the numeric writers, the loop ends because every retry with nothing
    pending at least doubles the window.
- The provider's windows are assumed to be non-empty, because that is the
  documented `IBufferWriter` contract. The code does not check this: an empty
  first window would keep the doubled request at 0.
- Character width. A Dafny `char` is a Unicode scalar value, and a C#
  `char` is a UTF-16 code unit. Here `char` stands for one code unit. A lone
  surrogate has no Dafny `char`, so text that contains surrogate pairs is not
  modelled. In the source, `WriteSpan` can split such a pair across two
  windows. No proof inspects individual characters, so the results hold for
  any sequence of code units that can be written down.
- `Session.SpanningWrites`: states the committed text, not that the write
  spans exactly three windows. The window count depends on the size hint of
  every request made during the write, and the contract of `WriteSpan` states
  how much window space was received, not which hints were used.
