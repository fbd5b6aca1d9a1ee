/** OpenDownloadRange and parseContentRange (internal/baidu/download_api.go), against servers
    that answer range requests as sections 14.2, 14.4, 15.3.7 and 15.5.17 of RFC 9110 say. */
module DownloadApi {
  import opened Wrappers
  import opened Model
  import opened Laws

  // ----- Content-Range -------------------------------------------------------

  datatype ContentRange = ContentRange(start: nat, end: nat, total: nat)

  const MAX_INT64: int := 0x7fff_ffff_ffff_ffff

  predicate IsDigit(c: char) { '0' <= c <= '9' }

  predicate AllDigits(s: string) {
    forall c :: c in s ==> IsDigit(c)
  }

  function DigitsValue(s: string): nat
    requires AllDigits(s)
  {
    if s == "" then 0
    else
      assert s[|s| - 1] in s;
      10 * DigitsValue(s[..|s| - 1]) + (s[|s| - 1] as int - '0' as int)
  }

  /** strconv.ParseInt(s, 10, 64): an optional sign, digits, and the range of int64. */
  function ParseInt(s: string): Option<int> {
    var negative := s != "" && s[0] == '-';
    var digits := if s != "" && (s[0] == '-' || s[0] == '+') then s[1..] else s;
    if digits == "" || !AllDigits(digits) then None
    else
      var magnitude: int := DigitsValue(digits);
      var value := if negative then -magnitude else magnitude;
      if -MAX_INT64 - 1 <= value <= MAX_INT64 then Some(value) else None
  }

  predicate IsSpace(c: char) { c == ' ' || c == '\t' || c == '\n' || c == '\r' }

  function TrimLeft(s: string): string {
    if s != "" && IsSpace(s[0]) then TrimLeft(s[1..]) else s
  }

  function TrimRight(s: string): string {
    if s != "" && IsSpace(s[|s| - 1]) then TrimRight(s[..|s| - 1]) else s
  }

  function TrimSpace(s: string): string {
    TrimRight(TrimLeft(s))
  }

  function IndexOf(s: string, c: char): (i: nat)
    ensures i <= |s| && (i < |s| ==> s[i] == c) && forall j :: 0 <= j < i ==> s[j] != c
  {
    if s == "" || s[0] == c then 0 else 1 + IndexOf(s[1..], c)
  }

  /** strings.Cut: the parts before and after the first c. */
  function Cut(s: string, c: char): Option<(string, string)> {
    var i := IndexOf(s, c);
    if i == |s| then None else Some((s[..i], s[i + 1..]))
  }

  function LowerCase(c: char): char {
    if 'A' <= c <= 'Z' then (c as int + 32) as char else c
  }

  predicate HasBytesUnit(s: string) {
    |s| >= 6 && forall i :: 0 <= i < 6 ==> LowerCase(s[i]) == "bytes "[i]
  }

  /** parseContentRange; an unknown total is not accepted. */
  function ParseContentRange(raw: string): Option<ContentRange> {
    var value := TrimSpace(raw);
    if !HasBytesUnit(value) then None
    else
      var parts := Cut(TrimSpace(value[6..]), '/');
      if parts.None? || parts.value.1 == "*" then None
      else
        var bounds := Cut(parts.value.0, '-');
        if bounds.None? then None
        else
          var start, end, total := ParseInt(bounds.value.0), ParseInt(bounds.value.1), ParseInt(parts.value.1);
          if start.None? || start.value < 0 then None
          else if end.None? || end.value < start.value then None
          else if total.None? || total.value <= end.value then None
          else Some(ContentRange(start.value, end.value, total.value))
  }

  function Decimal(n: nat): (s: string)
    ensures s != "" && AllDigits(s) && DigitsValue(s) == n
  {
    var digit := ('0' as int + n % 10) as char;
    if n < 10 then [digit]
    else
      var front := Decimal(n / 10);
      assert (front + [digit])[..|front|] == front;
      front + [digit]
  }

  function FormatContentRange(r: ContentRange): string {
    "bytes " + Decimal(r.start) + "-" + Decimal(r.end) + "/" + Decimal(r.total)
  }

  lemma ParseDecimal(n: nat)
    requires n <= MAX_INT64
    ensures ParseInt(Decimal(n)) == Some(n)
  {
    var s := Decimal(n);
    assert s[0] in s;
  }

  lemma {:induction false} IndexAt(s: string, t: string, c: char)
    requires c !in s
    ensures IndexOf(s + [c] + t, c) == |s|
  {
    assert (s + [c] + t)[|s|] == c;
    forall j | 0 <= j < |s| ensures (s + [c] + t)[j] != c { assert s[j] in s; }
  }

  lemma CutAt(s: string, t: string, c: char)
    requires c !in s
    ensures Cut(s + [c] + t, c) == Some((s, t))
  {
    IndexAt(s, t, c);
    assert (s + [c] + t)[..|s|] == s && (s + [c] + t)[|s| + 1..] == t;
  }

  lemma NotTrimmed(s: string)
    requires s != "" && !IsSpace(s[0]) && !IsSpace(s[|s| - 1])
    ensures TrimSpace(s) == s
  {
  }

  lemma ParseBounds(r: ContentRange, text: string, rest: string)
    requires r.start <= r.end < r.total <= MAX_INT64
    requires rest == (Decimal(r.start) + ['-'] + Decimal(r.end)) + ['/'] + Decimal(r.total)
    requires HasBytesUnit(text) && TrimSpace(text) == text && TrimSpace(text[6..]) == rest
    ensures ParseContentRange(text) == Some(r)
  {
    hide TrimSpace, IndexOf, DigitsValue;
    var start, end, total := Decimal(r.start), Decimal(r.end), Decimal(r.total);
    var bounds := start + ['-'] + end;
    forall c | c in bounds ensures c != '/' { assert c in start || c == '-' || c in end; }
    CutAt(bounds, total, '/');
    CutAt(start, end, '-');
    ParseDecimal(r.start);
    ParseDecimal(r.end);
    ParseDecimal(r.total);
    assert total[0] in total;
  }

  /** A Content-Range written as section 14.4 of RFC 9110 prescribes is read back exactly. */
  lemma ContentRangeRoundTrip(r: ContentRange)
    requires r.start <= r.end < r.total <= MAX_INT64
    ensures ParseContentRange(FormatContentRange(r)) == Some(r)
  {
    hide ParseContentRange, DigitsValue, TrimSpace;
    var start, end, total := Decimal(r.start), Decimal(r.end), Decimal(r.total);
    var rest := (start + ['-'] + end) + ['/'] + total;
    var text := FormatContentRange(r);
    assert text == "bytes " + rest;
    assert start[0] in start && total[|total| - 1] in total;
    NotTrimmed(text);
    NotTrimmed(rest);
    assert text[6..] == rest;
    assert HasBytesUnit(text) by {
      forall i | 0 <= i < 6 ensures LowerCase(text[i]) == "bytes "[i] { assert text[i] == "bytes "[i]; }
    }
    ParseBounds(r, text, rest);
  }

  // ----- responses -----------------------------------------------------------

  /** An HTTP answer: contentLength is -1 when absent; body is what arrives before the connection ends. */
  datatype Response = NoResponse | Response(status: int, contentLength: int, contentRange: string, body: seq<Byte>)

  datatype Opened =
    | Stream(start: nat, end: int, total: int, body: seq<Byte>)
    | RangeNotHonored
    | RangeNotSatisfiable
    | OpenFailed(needsUser: bool)

  /** OpenDownloadRange; end is inclusive, -1 means through the end of the file. */
  function OpenDownloadRange(response: Response, start: int, end: int): Opened {
    if start < 0 || end < -1 || (end >= 0 && end < start) || response.NoResponse? then OpenFailed(false)
    else if response.status == 416 then RangeNotSatisfiable
    else if response.status != 200 && response.status != 206 then OpenFailed(response.status == 401 || response.status == 403)
    else if (start > 0 || end >= 0) && response.status != 206 then RangeNotHonored
    else if response.status == 200 then Stream(0, response.contentLength - 1, response.contentLength, response.body)
    else
      var range := ParseContentRange(response.contentRange);
      if range.None? then OpenFailed(false)
      else if range.value.start != start || (end >= 0 && range.value.end != end) then RangeNotHonored
      else Stream(range.value.start, range.value.end, range.value.total, response.body)
  }

  /** A server of the given bytes: 200 carries them from the start, 206 the range it names; a
      connection may end early, and errors may come at any time. */
  predicate HonestResponse(source: seq<Byte>, response: Response) {
    match response
    case NoResponse => true
    case Response(status, length, range, body) =>
      && (status == 200 ==> body <= source)
      && (status == 206 ==>
            match ParseContentRange(range)
            case None => true
            case Some(r) => r.total == |source| && r.start <= |source| && body <= source[r.start..])
  }

  /** Whatever stream is handed on, it carries the true bytes from the requested offset on. */
  lemma OpenedServes(source: seq<Byte>, response: Response, offset: nat)
    requires HonestResponse(source, response)
    ensures var got := OpenDownloadRange(response, offset, -1);
            got.Stream? ==> Serves(source, offset, got.body)
  {
    if response.Response? && response.status == 200 && offset == 0 { assert source[0..] == source; }
  }
}
