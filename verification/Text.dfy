/** Text as Unicode scalar values, and the lengths the program measures it by. */
module Text {
  import opened Basics

  /** Octets of one scalar value in UTF-8 (section 3 of RFC 3629). */
  function Utf8Width(c: char): nat
  {
    if c as int < 0x80 then 1 else if c as int < 0x800 then 2 else if c as int < 0x1_0000 then 3 else 4
  }

  /** Go's len(string) and the browser's TextEncoder length. */
  function ByteLength(s: string): nat
  {
    if s == [] then 0 else ByteLength(s[..|s| - 1]) + Utf8Width(s[|s| - 1])
  }

  function Concat(chunks: seq<string>): string
  {
    if chunks == [] then "" else Concat(chunks[..|chunks| - 1]) + chunks[|chunks| - 1]
  }

  /** max(1, (runes+3)/4): the least positive number of tokens of four characters that covers the text. */
  function EstimateTokens(s: string): (tokens: int)
    ensures tokens >= 1 && |s| <= 4 * tokens && (tokens > 1 ==> 4 * (tokens - 1) < |s|)
  {
    Max(1, (|s| + 3) / 4)
  }

  lemma {:induction false} ByteLengthAdds(a: string, b: string)
    ensures ByteLength(a + b) == ByteLength(a) + ByteLength(b)
  {
    if b == [] {
      assert a + b == a;
    } else {
      assert (a + b)[..|a + b| - 1] == a + b[..|b| - 1];
      ByteLengthAdds(a, b[..|b| - 1]);
    }
  }

  lemma ConcatAppend(chunks: seq<string>, chunk: string)
    ensures Concat(chunks + [chunk]) == Concat(chunks) + chunk
  {
    assert (chunks + [chunk])[..|chunks|] == chunks;
  }

  /** Where chunk k of an answer starts. */
  function Offset(chunks: seq<string>, k: nat): nat
    requires k <= |chunks|
  {
    ByteLength(Concat(chunks[..k]))
  }

  lemma {:induction false} OffsetsIncrease(chunks: seq<string>, i: nat, k: nat)
    requires i < k <= |chunks| && forall j :: 0 <= j < |chunks| ==> chunks[j] != ""
    ensures Offset(chunks, i) < Offset(chunks, k)
  {
    assert chunks[..k][..k - 1] == chunks[..k - 1];
    ByteLengthAdds(Concat(chunks[..k - 1]), chunks[k - 1]);
    if i == k - 1 {
    } else {
      OffsetsIncrease(chunks, i, k - 1);
    }
  }
}
