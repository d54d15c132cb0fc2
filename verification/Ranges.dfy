/** The Range header parser of internal/httpapi/range.go and the replies cut with it. */
module Ranges {
  import opened Base

  const INT64_MAX: int := 0x7fff_ffff_ffff_ffff

  datatype RangeError = Unsupported | Multipart | Invalid | NotSatisfiable

  datatype ByteRange = ByteRange(start: int, end: int) {
    function Length(): int { end - start + 1 }
  }

  // ----- strings and strconv helpers

  predicate IsSpace(c: char) {
    c in {'\t', '\n', '\U{0B}', '\U{0C}', '\r', ' ', '\U{85}', '\U{A0}', '\U{1680}',
          '\U{2028}', '\U{2029}', '\U{202F}', '\U{205F}', '\U{3000}'}
    || '\U{2000}' <= c <= '\U{200A}'
  }

  function TrimLeft(s: string): string {
    if s != "" && IsSpace(s[0]) then TrimLeft(s[1..]) else s
  }

  function TrimRight(s: string): string {
    if s != "" && IsSpace(s[|s| - 1]) then TrimRight(s[..|s| - 1]) else s
  }

  function TrimSpace(s: string): string { TrimRight(TrimLeft(s)) }

  predicate IsDigit(c: char) { '0' <= c <= '9' }

  function DigitValue(c: char): nat
    requires IsDigit(c)
  {
    c as int - '0' as int
  }

  predicate AllDigits(s: string) { forall c | c in s :: IsDigit(c) }

  function DigitsValue(s: string): nat
    requires AllDigits(s)
  {
    if s == "" then 0 else 10 * DigitsValue(s[..|s| - 1]) + DigitValue(s[|s| - 1])
  }

  /** strconv.ParseInt(s, 10, 64): an optional sign, at least one digit, int64 range. */
  function ParseInt(s: string): Option<int> {
    if s == "" then None
    else
      var negative := s[0] == '-';
      var digits := if s[0] == '-' || s[0] == '+' then s[1..] else s;
      if digits == "" || !AllDigits(digits) then None
      else
        var n: int := DigitsValue(digits);
        if negative then (if n <= INT64_MAX + 1 then Some(-n) else None)
        else (if n <= INT64_MAX then Some(n) else None)
  }

  /** The index of the first c in s, or |s|. */
  function IndexOf(s: string, c: char): (i: nat)
    ensures i <= |s|
    ensures i < |s| ==> s[i] == c
    ensures c !in s[..i]
  {
    if s == "" || s[0] == c then 0
    else
      var j := IndexOf(s[1..], c);
      assert s[..j + 1] == [s[0]] + s[1..][..j];
      j + 1
  }

  const PREFIX := "bytes="

  function ParseSingleRangeHeader(header: string, size: nat): Result<ByteRange, RangeError> {
    var value := TrimSpace(header);
    if !(PREFIX <= value) then Err(Unsupported)
    else
      var spec := value[|PREFIX|..];
      if ',' in spec then Err(Multipart)
      else
        var dash := IndexOf(spec, '-');
        if dash == |spec| then Err(Invalid)
        else ParseSpec(spec[..dash], spec[dash + 1..], size)
  }

  /** The part after "bytes=", split at its first dash. */
  function ParseSpec(first: string, last: string, size: nat): Result<ByteRange, RangeError> {
    if first == "" then
      match ParseInt(last)
      case None => Err(Invalid)
      case Some(suffix) =>
        if suffix <= 0 then Err(Invalid)
        else
          var clamped := if suffix > size then size else suffix;
          Ok(ByteRange(size - clamped, size - 1))
    else
      match ParseInt(first)
      case None => Err(Invalid)
      case Some(start) =>
        if start < 0 then Err(Invalid)
        else if last == "" then
          if start >= size then Err(NotSatisfiable) else Ok(ByteRange(start, size - 1))
        else
          match ParseInt(last)
          case None => Err(Invalid)
          case Some(end) =>
            if end < start then Err(Invalid)
            else if start >= size then Err(NotSatisfiable)
            else Ok(ByteRange(start, if end >= size then size - 1 else end))
  }

  /** Every accepted range lies in the payload and is non-empty exactly when the payload is:
      the suffix form is accepted for an empty payload too, and denotes (0, -1) there. */
  lemma ParsedRangeInBounds(header: string, size: nat)
    requires ParseSingleRangeHeader(header, size).Ok?
    ensures var r := ParseSingleRangeHeader(header, size).value;
            && 0 <= r.start <= r.end + 1 <= size
            && (0 <= r.start <= r.end < size <==> size > 0)
            && (r.Length() == 0 <==> size == 0)
  {
  }

  /** The witness for the size == 0 case of ParsedRangeInBounds. */
  lemma EmptyPayloadSuffixAccepted()
    ensures ParseSingleRangeHeader("bytes=-5", 0) == Ok(ByteRange(0, -1))
  {
    var h := "bytes=-5";
    assert TrimLeft(h) == h && TrimRight(h) == h;
    assert h[|PREFIX|..] == "-5";
    assert IndexOf("-5", '-') == 0;
    assert "-5"[..0] == "" && "-5"[1..] == "5";
    assert DigitsValue("5") == 10 * DigitsValue("5"[..0]) + 5;
    assert ParseInt("5") == Some(5);
  }

  // ----- spaces and lists

  ghost predicate Blank(s: string) { forall c | c in s :: IsSpace(c) }

  lemma {:induction false} TrimRightBlank(s: string, post: string)
    requires Blank(post)
    ensures TrimRight(s + post) == TrimRight(s)
    decreases |post|
  {
    if post == "" {
      assert s + post == s;
    } else {
      var n := |post| - 1;
      assert (s + post)[..|s + post| - 1] == s + post[..n];
      assert (s + post)[|s + post| - 1] == post[n];
      TrimRightBlank(s, post[..n]);
    }
  }

  lemma {:induction false} TrimLeftBlank(pre: string, s: string)
    requires Blank(pre)
    ensures TrimLeft(pre + s) == TrimLeft(s)
  {
    if pre == "" {
      assert pre + s == s;
    } else {
      assert (pre + s)[1..] == pre[1..] + s && (pre + s)[0] == pre[0];
      TrimLeftBlank(pre[1..], s);
    }
  }

  lemma {:induction false} TrimBlank(s: string, post: string)
    requires Blank(post)
    ensures TrimSpace(s + post) == TrimSpace(s)
  {
    if s == "" {
      TrimLeftBlank(post, "");
      assert s + post == post == post + "";
    } else if IsSpace(s[0]) {
      assert (s + post)[1..] == s[1..] + post;
      TrimBlank(s[1..], post);
    } else {
      TrimRightBlank(s, post);
    }
  }

  /** White space around a header does not matter. */
  lemma SpacesIgnored(pre: string, header: string, post: string, size: nat)
    requires Blank(pre) && Blank(post)
    ensures ParseSingleRangeHeader(pre + header + post, size) == ParseSingleRangeHeader(header, size)
  {
    assert pre + header + post == pre + (header + post);
    TrimLeftBlank(pre, header + post);
    TrimBlank(header, post);
  }

  lemma {:induction false} TrimRightKeeps(s: string, k: nat)
    requires k < |s| && !IsSpace(s[k])
    ensures k < |TrimRight(s)| <= |s| && TrimRight(s) == s[..|TrimRight(s)|]
    decreases |s|
  {
    if IsSpace(s[|s| - 1]) { TrimRightKeeps(s[..|s| - 1], k); }
  }

  /** A header that lists more than one range is refused as such, whatever the ranges. */
  lemma ListRefused(first: string, others: string, size: nat)
    ensures ParseSingleRangeHeader(PREFIX + first + "," + others, size) == Err(Multipart)
  {
    var h, k := PREFIX + first + "," + others, |PREFIX + first|;
    assert h[0] == 'b' && h[k] == ',';
    TrimRightKeeps(h, k);
    assert TrimSpace(h)[|PREFIX|..][k - |PREFIX|] == ',';
  }

  // ----- printing

  function DigitChar(d: nat): (c: char)
    requires d < 10
    ensures IsDigit(c) && DigitValue(c) == d
  {
    '0' + d as char
  }

  /** strconv.FormatInt(n, 10) for n >= 0. */
  function Format(n: nat): (s: string)
    ensures s != "" && AllDigits(s)
  {
    if n < 10 then [DigitChar(n)] else Format(n / 10) + [DigitChar(n % 10)]
  }

  lemma {:induction false} FormatValue(n: nat)
    ensures DigitsValue(Format(n)) == n
  {
    var s := Format(n);
    if n < 10 {
      assert s[..0] == "";
    } else {
      FormatValue(n / 10);
      assert s[..|s| - 1] == Format(n / 10);
    }
  }

  lemma ParseFormatted(n: nat)
    ensures ParseInt(Format(n)) == if n <= INT64_MAX then Some(n) else None
  {
    FormatValue(n);
    var s := Format(n);
    assert IsDigit(s[0]);
  }

  /** What a client asks for: RFC 9110, section 14.1.2. */
  datatype Request = FromTo(a: nat, b: nat) | From(a: nat) | Suffix(n: nat)

  function Printed(q: Request): string {
    match q
    case FromTo(a, b) => PREFIX + Format(a) + "-" + Format(b)
    case From(a) => PREFIX + Format(a) + "-"
    case Suffix(n) => PREFIX + "-" + Format(n)
  }

  predicate Int64(q: Request) {
    match q
    case FromTo(a, b) => a <= INT64_MAX && b <= INT64_MAX
    case From(a) => a <= INT64_MAX
    case Suffix(n) => n <= INT64_MAX
  }

  /** The positions of a payload of the given size that a request selects. */
  ghost predicate Selects(q: Request, size: nat, i: int) {
    && 0 <= i < size
    && match q
       case FromTo(a, b) => a <= i <= b
       case From(a) => a <= i
       case Suffix(n) => size - n <= i
  }

  ghost predicate WellFormed(q: Request) {
    match q
    case FromTo(a, b) => a <= b
    case From(_) => true
    case Suffix(n) => n > 0
  }

  /** Text that neither starts nor ends with white space is its own trimming. */
  lemma TrimIdentity(s: string)
    requires s != "" && !IsSpace(s[0]) && !IsSpace(s[|s| - 1])
    ensures TrimSpace(s) == s
  {
  }

  lemma {:induction false} FirstDash(first: string, last: string)
    requires AllDigits(first)
    ensures IndexOf(first + "-" + last, '-') == |first|
  {
    var spec := first + "-" + last;
    if first != "" {
      assert IsDigit(first[0]);
      assert spec[1..] == first[1..] + "-" + last;
      FirstDash(first[1..], last);
    }
  }

  lemma PrefixedIsTrimmed(first: string, last: string)
    requires AllDigits(last)
    ensures TrimSpace(PREFIX + first + "-" + last) == PREFIX + first + "-" + last
  {
    var h := PREFIX + first + "-" + last;
    assert h[|h| - 1] == if last == "" then '-' else last[|last| - 1];
    assert h[0] == 'b';
    assert last == "" || IsDigit(last[|last| - 1]);
    TrimIdentity(h);
  }

  /** Parsing "bytes=" + first + "-" + last yields the two parts, when first has no dash. */
  lemma ParsePrefixed(first: string, last: string, size: nat)
    requires AllDigits(first) && AllDigits(last)
    ensures ParseSingleRangeHeader(PREFIX + first + "-" + last, size) == ParseSpec(first, last, size)
  {
    var h := PREFIX + first + "-" + last;
    var spec := first + "-" + last;
    PrefixedIsTrimmed(first, last);
    assert h == PREFIX + spec && h[|PREFIX|..] == spec;
    assert forall c | c in spec :: IsDigit(c) || c == '-';
    FirstDash(first, last);
    assert spec[..|first|] == first && spec[|first| + 1..] == last;
  }

  /** A printed request is accepted if and only if it is well formed, selects something, and
      is printed in int64 numbers, or is a suffix of an empty payload; it is answered with
      exactly the positions it selects. */
  lemma PrintedRoundTrip(q: Request, size: nat)
    ensures var r := ParseSingleRangeHeader(Printed(q), size);
            && (r.Ok? <==>
                Int64(q) && WellFormed(q) && ((q.Suffix? && size == 0) || exists i :: Selects(q, size, i)))
            && (r.Ok? ==> forall i :: r.value.start <= i <= r.value.end <==> Selects(q, size, i))
            && (r == Err(NotSatisfiable) <==>
                Int64(q) && WellFormed(q) && !q.Suffix? && !exists i :: Selects(q, size, i))
  {
    match q
    case FromTo(a, b) =>
      assert Printed(q) == PREFIX + Format(a) + "-" + Format(b);
      ParsePrefixed(Format(a), Format(b), size);
      ParseFormatted(a);
      ParseFormatted(b);
      if a <= b && a < size { assert Selects(q, size, a); }
    case From(a) =>
      assert Printed(q) == PREFIX + Format(a) + "-" + "";
      ParsePrefixed(Format(a), "", size);
      ParseFormatted(a);
      if a < size { assert Selects(q, size, a); }
    case Suffix(n) =>
      assert Printed(q) == PREFIX + "" + "-" + Format(n);
      ParsePrefixed("", Format(n), size);
      ParseFormatted(n);
      if n > 0 && size > 0 { assert Selects(q, size, size - 1); }
  }

  /** A legal range that ends at position 2^63 selects bytes, and is refused as invalid. */
  lemma LargeLastPositionRefused(size: nat)
    requires size > 0
    ensures var q := FromTo(0, INT64_MAX + 1);
            && WellFormed(q) && (forall i :: Selects(q, size, i) <==> 0 <= i <= INT64_MAX + 1 && i < size)
            && Selects(q, size, 0) && ParseSingleRangeHeader(Printed(q), size) == Err(Invalid)
  {
    var q := FromTo(0, INT64_MAX + 1);
    assert Selects(q, size, 0);
    PrintedRoundTrip(q, size);
    assert Printed(q) == PREFIX + Format(0) + "-" + Format(INT64_MAX + 1);
    ParsePrefixed(Format(0), Format(INT64_MAX + 1), size);
    ParseFormatted(0);
    ParseFormatted(INT64_MAX + 1);
  }

  // ----- replies

  /** The body writeRangeResponse sends: data[start : end+1]. */
  function Cut(data: Bytes, r: ByteRange): (body: Bytes)
    requires 0 <= r.start <= r.end + 1 <= |data|
    ensures |body| == r.Length()
  {
    data[r.start..r.end + 1]
  }

  /** The body of a pull of data, given its optional Range header; none when it is refused. */
  function Body(header: Option<string>, data: Bytes): Option<Bytes> {
    match header
    case None => Some(data)
    case Some(text) =>
      match ParseSingleRangeHeader(text, |data|)
      case Err(_) => None
      case Ok(r) =>
        ParsedRangeInBounds(text, |data|);
        Some(Cut(data, r))
  }

  /** Cut points 0 < ... < |data| in order. */
  ghost predicate CutPoints(cuts: seq<nat>, size: nat) {
    && |cuts| >= 1 && cuts[0] == 0 && cuts[|cuts| - 1] == size
    && forall i :: 0 <= i < |cuts| - 1 ==> cuts[i] < cuts[i + 1]
  }

  function PieceHeader(from: nat, to: nat): string
    requires from < to
  {
    Printed(FromTo(from, to - 1))
  }

  /** Pull pieces i.. of the partition, one request each, and join the bodies. */
  ghost function Reassembled(data: Bytes, cuts: seq<nat>, i: nat): Bytes
    requires CutPoints(cuts, |data|) && i < |cuts|
    decreases |cuts| - i
  {
    if i == |cuts| - 1 then []
    else
      var body := Body(Some(PieceHeader(cuts[i], cuts[i + 1])), data);
      (if body.Some? then body.value else []) + Reassembled(data, cuts, i + 1)
  }

  lemma {:induction false} CutsAscend(cuts: seq<nat>, size: nat, i: nat)
    requires CutPoints(cuts, size) && i < |cuts|
    ensures cuts[i] <= size
    decreases |cuts| - i
  {
    if i < |cuts| - 1 { CutsAscend(cuts, size, i + 1); }
  }

  lemma PieceBody(data: Bytes, from: nat, to: nat)
    requires from < to <= |data| <= INT64_MAX
    ensures Body(Some(PieceHeader(from, to)), data) == Some(data[from..to])
  {
    ParsePrefixed(Format(from), Format(to - 1), |data|);
    ParseFormatted(from);
    ParseFormatted(to - 1);
    assert PieceHeader(from, to) == PREFIX + Format(from) + "-" + Format(to - 1);
  }

  lemma Rejoined(data: Bytes, from: nat, to: nat)
    requires from < to <= |data|
    ensures data[from..to] + data[to..] == data[from..]
  {
  }

  lemma {:induction false} ReassembledFrom(data: Bytes, cuts: seq<nat>, i: nat)
    requires CutPoints(cuts, |data|) && i < |cuts| && |data| <= INT64_MAX
    ensures cuts[i] <= |data| && Reassembled(data, cuts, i) == data[cuts[i]..]
    decreases |cuts| - i
  {
    CutsAscend(cuts, |data|, i);
    if i < |cuts| - 1 {
      var from, to := cuts[i], cuts[i + 1];
      ReassembledFrom(data, cuts, i + 1);
      PieceBody(data, from, to);
      Rejoined(data, from, to);
    }
  }

  /** Ranges that partition the payload reassemble it. */
  lemma PartitionReassembles(data: Bytes, cuts: seq<nat>)
    requires CutPoints(cuts, |data|) && |data| <= INT64_MAX
    ensures Reassembled(data, cuts, 0) == data
  {
    ReassembledFrom(data, cuts, 0);
  }
}
