/** Fixed-size, NUL-terminated character fields: the wire payloads, the model objects
    and the per-connection context all keep their strings in such buffers. */
module FixedFields {
  import opened Wrappers

  const NUL: char := '\0'

  /** What a reader of a C string sees: everything before the first NUL. */
  function CString(buffer: seq<char>): (s: string)
    ensures NUL !in s
    ensures s <= buffer
    ensures |s| < |buffer| ==> buffer[|s|] == NUL
  {
    if buffer == [] || buffer[0] == NUL then [] else [buffer[0]] + CString(buffer[1..])
  }

  /** The strings an N-byte field can hold without loss. */
  predicate Fits(n: nat, s: string) {
    |s| < n && NUL !in s
  }

  function Clip(n: nat, s: string): (r: string)
    requires n > 0
    ensures r == if |s| < n then s else s[..n - 1]
  {
    s[..if |s| < n then |s| else n - 1]
  }

  /** The string that reads back from an N-byte buffer after copying `s` into it. */
  function Stored(n: nat, s: string): (r: string)
    requires n > 0
    ensures Fits(n, r)
    ensures Fits(n, s) ==> r == s
  {
    if Fits(n, s) then CStringOfClean(s); s else CString(Clip(n, s))
  }

  lemma {:induction false} CStringOfClean(s: string)
    requires NUL !in s
    ensures CString(s) == s
  {
    if s != [] {
      CStringOfClean(s[1..]);
    }
  }

  lemma {:induction false} StoredIsClippedCString(n: nat, s: string)
    requires n > 0
    ensures Stored(n, s) == CString(Clip(n, s))
  {
    if Fits(n, s) { CStringOfClean(s); }
  }

  /** A buffer after the copy: the clipped source, a NUL, and whatever was there before. */
  function Overwritten(buffer: seq<char>, source: string): (r: seq<char>)
    requires |buffer| > 0
    ensures |r| == |buffer|
  {
    var copied := Clip(|buffer|, source);
    copied + [NUL] + buffer[|copied| + 1..]
  }

  function Zeros(n: nat): (r: seq<char>)
    ensures |r| == n && forall i :: 0 <= i < n ==> r[i] == NUL
  {
    seq(n, _ => NUL)
  }

  /** The field of a zero-initialised payload or of a context buffer filled with NULs first. */
  function Padded(n: nat, source: string): (r: seq<char>)
    requires n > 0
    ensures |r| == n
  {
    Overwritten(Zeros(n), source)
  }

  /** CString stops at the first NUL, whatever follows it. */
  lemma {:induction false} CStringStops(s: string, tail: seq<char>)
    ensures CString(s + [NUL] + tail) == CString(s)
  {
    if s == [] || s[0] == NUL {
    } else {
      assert (s + [NUL] + tail)[1..] == s[1..] + [NUL] + tail;
      CStringStops(s[1..], tail);
    }
  }

  /** Reading back any buffer after a copy gives the stored form, old contents never leak. */
  lemma {:induction false} ReadBack(buffer: seq<char>, source: string)
    requires |buffer| > 0
    ensures CString(Overwritten(buffer, source)) == Stored(|buffer|, source)
  {
    var copied := Clip(|buffer|, source);
    CStringStops(copied, buffer[|copied| + 1..]);
    StoredIsClippedCString(|buffer|, source);
  }

  lemma {:induction false} PaddedRead(n: nat, source: string)
    requires n > 0
    ensures CString(Padded(n, source)) == Stored(n, source)
  {
    ReadBack(Zeros(n), source);
  }

  /** extractFixedString: refused unless some byte of the field is a NUL. */
  function Extract(raw: seq<char>): (r: Option<string>)
    ensures r.Some? <==> NUL in raw
    ensures r.Some? ==> Fits(|raw|, r.value) && r.value < raw && raw[|r.value|] == NUL
  {
    if NUL in raw then
      NulCutsShort(raw);
      Some(CString(raw))
    else None
  }

  lemma {:induction false} NulCutsShort(raw: seq<char>)
    requires NUL in raw
    ensures |CString(raw)| < |raw|
  {
    var s := CString(raw);
    assert |s| == |raw| ==> s == raw;
  }

  /** For every field size and NUL-free source, extracting a padded copy gives the longest prefix that fits. */
  lemma {:induction false} ExtractOfPadded(n: nat, source: string)
    requires n > 0
    ensures Extract(Padded(n, source)) == Some(Stored(n, source))
    ensures NUL !in source ==> Stored(n, source) == source[..if |source| < n then |source| else n - 1]
  {
    var copied := Clip(n, source);
    assert Padded(n, source)[|copied|] == NUL;
    PaddedRead(n, source);
    if NUL !in source {
      StoredIsClippedCString(n, source);
      CStringOfClean(copied);
    }
  }

  /** A string accepted from an N-byte wire field goes through a same-sized model buffer and back unchanged. */
  lemma {:induction false} WireFieldIsLossless(raw: seq<char>, old_: seq<char>)
    requires Extract(raw).Some? && |old_| == |raw|
    ensures var s := Extract(raw).value;
            && Stored(|raw|, s) == s
            && CString(Overwritten(old_, s)) == s
            && Extract(Padded(|raw|, s)) == Some(s)
  {
    var s := Extract(raw).value;
    ReadBack(old_, s);
    ExtractOfPadded(|raw|, s);
  }

  /** copy_buffer and copyPaddedString: copy in place, then terminate. */
  method CopyPaddedString(destination: array<char>, source: string)
    requires destination.Length > 0
    modifies destination
    ensures destination[..] == Overwritten(old(destination[..]), source)
    ensures CString(destination[..]) == Stored(destination.Length, source)
  {
    ghost var before := destination[..];
    var copiedLength := if |source| < destination.Length - 1 then |source| else destination.Length - 1;
    var i := 0;
    while i < copiedLength
      invariant 0 <= i <= copiedLength
      invariant destination[..i] == source[..i]
      invariant destination[i..] == before[i..]
    {
      destination[i] := source[i];
      i := i + 1;
      assert destination[i..] == before[i - 1..][1..];
    }
    destination[copiedLength] := NUL;
    assert destination[copiedLength + 1..] == before[copiedLength..][1..];
    assert Clip(destination.Length, source) == source[..copiedLength];
    assert destination[..] == destination[..copiedLength] + [NUL] + destination[copiedLength + 1..];
    ReadBack(before, source);
  }

  /** extractFixedString over the raw bytes of a field. */
  method ExtractFixedString(raw: seq<char>) returns (ok: bool, outString: string)
    ensures ok <==> Extract(raw).Some?
    ensures ok ==> outString == Extract(raw).value
  {
    var nullPos := 0;
    while nullPos < |raw| && raw[nullPos] != NUL
      invariant nullPos <= |raw|
      invariant NUL !in raw[..nullPos]
    {
      nullPos := nullPos + 1;
    }
    if nullPos == |raw| {
      assert raw[..nullPos] == raw;
      return false, "";
    }
    assert raw == raw[..nullPos] + [NUL] + raw[nullPos + 1..];
    CStringStops(raw[..nullPos], raw[nullPos + 1..]);
    CStringOfClean(raw[..nullPos]);
    return true, raw[..nullPos];
  }

  /** Little-endian unsigned integers inside payloads. */
  function LittleEndian(width: nat, value: nat): (r: seq<char>)
    ensures |r| == width
  {
    if width == 0 then [] else [(value % 256) as char] + LittleEndian(width - 1, value / 256)
  }
}
