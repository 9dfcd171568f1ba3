/** `TryFormat` of `float`, `double` and `decimal` under the invariant
    culture. What text a value formats to is not part of this model: a
    `Culture` carries one formatting function per numeric kind, and the
    cursor's results are stated in terms of them. Values are carried as their
    bit patterns (IEEE 754 binary32 and binary64, and the 128-bit .NET
    decimal). */
module Formatting {

  datatype Culture = Culture(
    single: bv32 -> seq<char>,
    double: bv64 -> seq<char>,
    decimal: bv128 -> seq<char>)

  /** Formats `v` into `dest` from index `from` on, all or nothing: it
      succeeds exactly when the whole text fits in `dest[from..]`, and then
      reports its length in `chars`. Nothing before `from` is touched either
      way. */
  method TryFormat<T>(v: T, format: T -> seq<char>, dest: array<char>, from: nat)
      returns (ok: bool, chars: nat)
    requires from <= dest.Length
    modifies dest
    ensures ok <==> |format(v)| <= dest.Length - from
    ensures ok ==> chars == |format(v)| && dest[from .. from + chars] == format(v)
    ensures !ok ==> chars == 0
    ensures dest[..from] == old(dest[..from])
  {
    var text := format(v);
    ok := |text| <= dest.Length - from;
    if ok {
      chars := |text|;
      forall i | 0 <= i < chars {
        dest[from + i] := text[i];
      }
    } else {
      chars := 0;
    }
  }
}
