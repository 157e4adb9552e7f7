/** UTF-8 as section 3 of RFC 3629 defines it, and truncation to a byte limit. */
module Utf8 {
  import opened Wrappers
  import opened Pcm

  type CodePoint = c: int | 0 <= c < 0x11_0000
  type Text = seq<CodePoint>

  datatype EncodeError = SurrogateNotAllowed

  predicate Surrogate(c: CodePoint) {
    0xD800 <= c <= 0xDFFF
  }

  predicate Encodable(text: Text) {
    forall i | 0 <= i < |text| :: !Surrogate(text[i])
  }

  function EncodeOne(c: CodePoint): (b: seq<Byte>)
    ensures 1 <= |b| <= 4
  {
    if c < 0x80 then [c]
    else if c < 0x800 then [0xC0 + c / 64, 0x80 + c % 64]
    else if c < 0x1_0000 then [0xE0 + c / 4096, 0x80 + c / 64 % 64, 0x80 + c % 64]
    else [0xF0 + c / 262144, 0x80 + c / 4096 % 64, 0x80 + c / 64 % 64, 0x80 + c % 64]
  }

  function Bytes(text: Text): seq<Byte> {
    if text == [] then [] else EncodeOne(text[0]) + Bytes(text[1..])
  }

  function Encode(text: Text): Result<seq<Byte>, EncodeError> {
    if Encodable(text) then Ok(Bytes(text)) else Err(SurrogateNotAllowed)
  }

  predicate Continuation(b: Byte) {
    0x80 <= b < 0xC0
  }

  function Value2(a: int, b: int): int {
    (a - 0xC0) * 64 + (b - 0x80)
  }

  function Value3(a: int, b: int, c: int): int {
    (a - 0xE0) * 4096 + (b - 0x80) * 64 + (c - 0x80)
  }

  function Value4(a: int, b: int, c: int, d: int): int {
    (a - 0xF0) * 262144 + (b - 0x80) * 4096 + (c - 0x80) * 64 + (d - 0x80)
  }

  /** The well-formed sequence a byte string starts with: its code point and its length. */
  function Head(b: seq<Byte>): Option<(CodePoint, nat)> {
    if b == [] then None
    else if b[0] < 0x80 then Some((b[0], 1))
    else if 0xC2 <= b[0] < 0xE0 && |b| > 1 && Continuation(b[1]) then
      Some((Value2(b[0], b[1]), 2))
    else if 0xE0 <= b[0] < 0xF0 && |b| > 2 && Continuation(b[1]) && Continuation(b[2]) then
      var c := Value3(b[0], b[1], b[2]);
      if c >= 0x800 && !Surrogate(c) then Some((c, 3)) else None
    else if 0xF0 <= b[0] < 0xF5 && |b| > 3 && Continuation(b[1]) && Continuation(b[2]) && Continuation(b[3]) then
      var c := Value4(b[0], b[1], b[2], b[3]);
      if 0x1_0000 <= c < 0x11_0000 then Some((c, 4)) else None
    else None
  }

  /** Decoding that ignores errors: a byte that starts no well-formed sequence is skipped. */
  function DecodeIgnoring(b: seq<Byte>): Text {
    if b == [] then []
    else
      match Head(b)
      case Some((c, n)) => if n <= |b| then [c] + DecodeIgnoring(b[n..]) else []
      case None => DecodeIgnoring(b[1..])
  }

  function Cut(b: seq<Byte>, max: nat): seq<Byte> {
    if |b| <= max then b else b[..max]
  }

  function TruncateUtf8(text: Text, max: nat): Result<Text, EncodeError> {
    match Encode(text)
    case Err(e) => Err(e)
    case Ok(b) => Ok(DecodeIgnoring(Cut(b, max)))
  }

  // ---- What truncation means ----

  lemma Value2Of(c: int)
    requires 0x80 <= c < 0x800
    ensures Value2(0xC0 + c / 64, 0x80 + c % 64) == c && 2 <= c / 64 < 32
  {
  }

  lemma Value3Of(c: int)
    requires 0x800 <= c < 0x1_0000
    ensures Value3(0xE0 + c / 4096, 0x80 + c / 64 % 64, 0x80 + c % 64) == c && 0 <= c / 4096 < 16
  {
    var q := c / 64;
    assert q / 64 == c / 4096;
  }

  lemma Value4Of(c: int)
    requires 0x1_0000 <= c < 0x11_0000
    ensures Value4(0xF0 + c / 262144, 0x80 + c / 4096 % 64, 0x80 + c / 64 % 64, 0x80 + c % 64) == c
            && 0 <= c / 262144 < 5
  {
    var q := c / 64;
    assert q / 64 == c / 4096;
    assert q / 64 / 64 == c / 262144;
  }

  lemma HeadOfOne(c: CodePoint, rest: seq<Byte>)
    requires !Surrogate(c)
    ensures Head(EncodeOne(c) + rest) == Some((c, |EncodeOne(c)|))
  {
    hide Value2, Value3, Value4;
    if c < 0x80 {
    } else if c < 0x800 {
      Value2Of(c);
    } else if c < 0x1_0000 {
      Value3Of(c);
    } else {
      Value4Of(c);
    }
  }

  lemma {:induction false} ContinuationsVanish(b: seq<Byte>)
    requires forall i | 0 <= i < |b| :: Continuation(b[i])
    ensures DecodeIgnoring(b) == []
  {
    if b != [] {
      assert Continuation(b[0]);
      ContinuationsVanish(b[1..]);
    }
  }

  /** An incomplete sequence decodes to nothing. */
  lemma PartVanishes(c: CodePoint, k: nat)
    requires k < |EncodeOne(c)|
    ensures DecodeIgnoring(EncodeOne(c)[..k]) == []
  {
    var b := EncodeOne(c)[..k];
    if k > 0 {
      assert Head(b).None?;
      ContinuationsVanish(b[1..]);
    }
  }

  /** How many code points fit. */
  function Fit(text: Text, max: nat): (n: nat)
    ensures n <= |text|
  {
    if text == [] || |EncodeOne(text[0])| > max then 0 else 1 + Fit(text[1..], max - |EncodeOne(text[0])|)
  }

  lemma DecodeOne(c: CodePoint, rest: seq<Byte>)
    requires !Surrogate(c)
    ensures DecodeIgnoring(EncodeOne(c) + rest) == [c] + DecodeIgnoring(rest)
  {
    HeadOfOne(c, rest);
    hide Head, EncodeOne;
    assert (EncodeOne(c) + rest)[|EncodeOne(c)|..] == rest;
  }

  lemma CutOne(one: seq<Byte>, rest: seq<Byte>, max: nat)
    ensures if |one| <= max then Cut(one + rest, max) == one + Cut(rest, max - |one|)
            else Cut(one + rest, max) == one[..max]
  {
  }

  lemma FitOne(text: Text, max: nat)
    requires text != []
    ensures Bytes(text) == EncodeOne(text[0]) + Bytes(text[1..])
    ensures var one := |EncodeOne(text[0])|;
            text[..Fit(text, max)] == if one > max then [] else [text[0]] + text[1..][..Fit(text[1..], max - one)]
  {
    hide EncodeOne;
  }

  lemma {:induction false} CutDecodesToFit(text: Text, max: nat)
    requires Encodable(text)
    ensures DecodeIgnoring(Cut(Bytes(text), max)) == text[..Fit(text, max)]
  {
    hide DecodeIgnoring, EncodeOne, Fit, Cut;
    if text == [] {
      NothingToDecode(max);
    } else {
      var one, rest := EncodeOne(text[0]), Bytes(text[1..]);
      FitOne(text, max);
      CutOne(one, rest, max);
      hide Bytes;
      if |one| > max {
        PartVanishes(text[0], max);
      } else {
        DecodeOne(text[0], Cut(rest, max - |one|));
        CutDecodesToFit(text[1..], max - |one|);
      }
    }
  }

  lemma NothingToDecode(max: nat)
    ensures DecodeIgnoring(Cut([], max)) == []
  {
  }

  lemma {:induction false} FitIsLongest(text: Text, max: nat, m: nat)
    requires m <= |text|
    ensures |Bytes(text[..m])| <= max <==> m <= Fit(text, max)
  {
    if m > 0 {
      var one := EncodeOne(text[0]);
      assert text[..m][1..] == text[1..][..m - 1];
      if |one| <= max {
        FitIsLongest(text[1..], max - |one|, m - 1);
      }
    }
  }

  /** Truncation gives the longest prefix of whole code points whose encoding fits the limit; it fails exactly on text
      that has no encoding. */
  lemma TruncateIsLongestPrefix(text: Text, max: nat)
    ensures TruncateUtf8(text, max).Ok? <==> Encodable(text)
    ensures Encodable(text) ==> TruncateUtf8(text, max) == Ok(text[..Fit(text, max)])
    ensures forall m | 0 <= m <= |text| :: |Bytes(text[..m])| <= max <==> m <= Fit(text, max)
  {
    if Encodable(text) {
      CutDecodesToFit(text, max);
    }
    forall m | 0 <= m <= |text| ensures |Bytes(text[..m])| <= max <==> m <= Fit(text, max) {
      FitIsLongest(text, max, m);
    }
  }

  /** Decoding undoes encoding. */
  lemma DecodeEncode(text: Text)
    requires Encodable(text)
    ensures DecodeIgnoring(Bytes(text)) == text
  {
    CutDecodesToFit(text, |Bytes(text)|);
    FitIsLongest(text, |Bytes(text)|, |text|);
    assert text[..|text|] == text;
  }
}
