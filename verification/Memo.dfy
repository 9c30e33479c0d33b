/** Stellar text memos (`truncateTextMemo` in packages/shared/src/stellar.ts and, word for word,
    in apps/worker/src/jobs/stellar-watcher.ts).

    A Dafny `char` is a Unicode scalar value, so a `string` is exactly a text with a UTF-8 form. */
module Memo {
  import opened Wrappers

  const MEMO_MAX_BYTES: nat := 28

  type Byte = b: int | 0 <= b < 256

  // ---------------------------------------------------------------- UTF-8, section 3 of RFC 3629

  function EncodeChar(c: char): (bytes: seq<Byte>)
    ensures 1 <= |bytes| <= 4
    ensures !IsContinuation(bytes[0])
    ensures forall i :: 1 <= i < |bytes| ==> IsContinuation(bytes[i])
  {
    var n := c as int;
    if n < 0x80 then [n]
    else if n < 0x800 then [0xC0 + n / 64, 0x80 + n % 64]
    else if n < 0x10000 then [0xE0 + n / 4096, 0x80 + n / 64 % 64, 0x80 + n % 64]
    else [0xF0 + n / 262144, 0x80 + n / 4096 % 64, 0x80 + n / 64 % 64, 0x80 + n % 64]
  }

  function Utf8(text: string): seq<Byte>
  {
    if text == "" then [] else EncodeChar(text[0]) + Utf8(text[1..])
  }

  /** `(b & 0xc0) == 0x80`. */
  predicate IsContinuation(b: Byte) { 0x80 <= b < 0xC0 }

  lemma ContinuationMask(b: bv8)
    ensures (b & 0xC0 == 0x80) <==> IsContinuation(b as int)
  {}

  function Payload(b: Byte): int { b - 0x80 }

  predicate IsScalar(n: int) { 0 <= n < 0xD800 || 0xE000 <= n < 0x11_0000 }

  /** The first character of a byte string and its length in bytes, or None if the bytes are not UTF-8. */
  function DecodeFirst(b: seq<Byte>): (r: Option<(char, nat)>)
    requires b != []
    ensures r.Some? ==> 1 <= r.value.1 <= |b|
  {
    var lead: int := b[0];
    if lead < 0x80 then Some((lead as char, 1))
    else if 0xC2 <= lead < 0xE0 && |b| >= 2 && IsContinuation(b[1]) then
      Some((((lead - 0xC0) * 64 + Payload(b[1])) as char, 2))
    else if 0xE0 <= lead < 0xF0 && |b| >= 3 && IsContinuation(b[1]) && IsContinuation(b[2]) then
      var n := (lead - 0xE0) * 4096 + Payload(b[1]) * 64 + Payload(b[2]);
      if 0x800 <= n && IsScalar(n) then Some((n as char, 3)) else None
    else if 0xF0 <= lead < 0xF5 && |b| >= 4
         && IsContinuation(b[1]) && IsContinuation(b[2]) && IsContinuation(b[3]) then
      var n := (lead - 0xF0) * 262144 + Payload(b[1]) * 4096 + Payload(b[2]) * 64 + Payload(b[3]);
      if 0x10000 <= n && IsScalar(n) then Some((n as char, 4)) else None
    else None
  }

  /** `Buffer.toString("utf8")` on well-formed bytes. */
  function Decode(b: seq<Byte>): Option<string>
  {
    if b == [] then Some("") else
      match DecodeFirst(b)
      case None => None
      case Some((c, size)) =>
        match Decode(b[size..])
        case None => None
        case Some(rest) => Some([c] + rest)
  }

  lemma DecodeEncodedChar(c: char, rest: seq<Byte>)
    ensures DecodeFirst(EncodeChar(c) + rest) == Some((c, |EncodeChar(c)|))
  {
    var bytes, n := EncodeChar(c), c as int;
    var all := bytes + rest;
    assert forall i :: 0 <= i < |bytes| ==> all[i] == bytes[i];
    SixBitGroups(n);
  }

  lemma SixBitGroups(n: nat)
    ensures n == n / 64 * 64 + n % 64
    ensures n / 64 == n / 4096 * 64 + n / 64 % 64
    ensures n / 4096 == n / 262144 * 64 + n / 4096 % 64
  {}

  lemma {:induction false} DecodeUtf8(text: string)
    ensures Decode(Utf8(text)) == Some(text)
  {
    if text != "" {
      DecodeEncodedChar(text[0], Utf8(text[1..]));
      DecodeUtf8(text[1..]);
      var first := EncodeChar(text[0]);
      assert (first + Utf8(text[1..]))[|first|..] == Utf8(text[1..]);
      assert [text[0]] + text[1..] == text;
    }
  }

  lemma {:induction false} Utf8Concat(a: string, b: string)
    ensures Utf8(a + b) == Utf8(a) + Utf8(b)
  {
    if a == "" {
      assert a + b == b;
    } else {
      Utf8Concat(a[1..], b);
      assert (a + b)[1..] == a[1..] + b;
    }
  }

  // ---------------------------------------------------------------- truncation

  /** Whole characters of `text`, as many as fit in `budget` bytes. */
  function Fitting(text: string, budget: int): (r: string)
    ensures r <= text
    ensures 0 <= budget ==> |Utf8(r)| <= budget
  {
    if text == "" || |EncodeChar(text[0])| > budget then ""
    else
      var r := [text[0]] + Fitting(text[1..], budget - |EncodeChar(text[0])|);
      assert r[1..] == Fitting(text[1..], budget - |EncodeChar(text[0])|);
      r
  }

  /** What a memo looks like on the chain. */
  function Truncated(memo: string): string { Fitting(memo, MEMO_MAX_BYTES) }

  lemma {:induction false} FittingAll(text: string, budget: int)
    requires |Utf8(text)| <= budget
    ensures Fitting(text, budget) == text
  {
    if text != "" {
      FittingAll(text[1..], budget - |EncodeChar(text[0])|);
      assert [text[0]] + text[1..] == text;
    }
  }

  // The first character left out does not fit any more.
  lemma {:induction false} FittingStops(text: string, budget: int)
    requires 0 <= budget < |Utf8(text)|
    ensures var r := Fitting(text, budget);
      |r| < |text| && |Utf8(r)| + |EncodeChar(text[|r|])| > budget
  {
    var size := |EncodeChar(text[0])|;
    if size <= budget {
      FittingStops(text[1..], budget - size);
      var r := Fitting(text, budget);
      assert r[1..] == Fitting(text[1..], budget - size);
      assert text[|r|] == text[1..][|r| - 1];
    }
  }

  lemma {:induction false} FittingLongest(text: string, budget: int, p: string)
    requires p <= text && |Utf8(p)| <= budget
    ensures |p| <= |Fitting(text, budget)|
  {
    if p != "" {
      FittingLongest(text[1..], budget - |EncodeChar(text[0])|, p[1..]);
    }
  }

  /** The memo kept is the longest prefix of whole characters that fits. */
  lemma TruncatedIsLongest(memo: string, p: string)
    ensures Truncated(memo) <= memo && |Utf8(Truncated(memo))| <= 28
    ensures p <= memo && |Utf8(p)| <= 28 ==> p <= Truncated(memo)
  {
    if p <= memo && |Utf8(p)| <= MEMO_MAX_BYTES {
      FittingLongest(memo, MEMO_MAX_BYTES, p);
    }
  }

  /** A memo is cut exactly when it is longer than 28 bytes, and then 25 to 28 bytes are kept. */
  lemma TruncatedSize(memo: string)
    ensures Truncated(memo) == memo <==> |Utf8(memo)| <= 28
    ensures Truncated(memo) != memo ==> 25 <= |Utf8(Truncated(memo))| <= 28
  {
    if |Utf8(memo)| <= MEMO_MAX_BYTES {
      FittingAll(memo, MEMO_MAX_BYTES);
    } else {
      FittingStops(memo, MEMO_MAX_BYTES);
    }
  }

  lemma TruncatedTwice(memo: string)
    ensures Truncated(Truncated(memo)) == Truncated(memo)
  {
    FittingAll(Truncated(memo), MEMO_MAX_BYTES);
  }

  // Where the bytes of a cut text lie: the kept bytes, then a character that starts at their end.
  lemma CutPoint(memo: string) returns (end: nat)
    requires |Utf8(memo)| > MEMO_MAX_BYTES
    ensures end <= MEMO_MAX_BYTES
    ensures Utf8(memo)[..end] == Utf8(Truncated(memo))
    ensures !IsContinuation(Utf8(memo)[end])
    ensures forall i :: end < i <= MEMO_MAX_BYTES ==> IsContinuation(Utf8(memo)[i])
  {
    var kept := Truncated(memo);
    end := |Utf8(kept)|;
    FittingStops(memo, MEMO_MAX_BYTES);
    var rest := memo[|kept|..];
    assert memo == kept + rest;
    Utf8Concat(kept, rest);
    var next := EncodeChar(rest[0]);
    assert Utf8(memo) == Utf8(kept) + (next + Utf8(rest[1..]));
    forall i | end < i <= MEMO_MAX_BYTES
      ensures IsContinuation(Utf8(memo)[i])
    {
      assert Utf8(memo)[i] == next[i - end];
    }
  }

  /** Back up from byte 28 over continuation bytes and decode what is left. */
  method TruncateTextMemo(memo: string) returns (r: string)
    ensures r == Truncated(memo)
  {
    var buf := Utf8(memo);
    if |buf| <= MEMO_MAX_BYTES {
      FittingAll(memo, MEMO_MAX_BYTES);
      return memo;
    }
    ghost var cut := CutPoint(memo);
    var end := MEMO_MAX_BYTES;
    while end > 0 && IsContinuation(buf[end])
      invariant cut <= end <= MEMO_MAX_BYTES
    {
      end := end - 1;
    }
    DecodeUtf8(Truncated(memo));
    r := Decode(buf[..end]).value;
  }
}
