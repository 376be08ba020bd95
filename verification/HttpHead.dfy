/** The repository's HTTP-like requests: a head with `Content-Length `, then the body.

The header line has a space and no colon after its name, unlike section 3.3.2
of RFC 7230; the model follows the code.
*/
module HttpHead {
  import opened Common

  // ---------- library searches ----------

  predicate OccursAt(hay: string, needle: string, i: nat) {
    i + |needle| <= |hay| && hay[i..i + |needle|] == needle
  }

  /** std::search from position `i`: the first occurrence, or the end. */
  function Search(hay: string, needle: string, i: nat): (r: nat)
    requires i <= |hay| && needle != []
    ensures i <= r <= |hay| && (r < |hay| ==> OccursAt(hay, needle, r))
    ensures forall j :: i <= j < r ==> !OccursAt(hay, needle, j)
    decreases |hay| - i
  {
    if i == |hay| || OccursAt(hay, needle, i) then i else Search(hay, needle, i + 1)
  }

  /** std::find from position `i`. */
  function Find(hay: string, c: char, i: nat): (r: nat)
    requires i <= |hay|
    ensures i <= r <= |hay| && (r < |hay| ==> hay[r] == c)
    ensures forall j :: i <= j < r ==> hay[j] != c
    decreases |hay| - i
  {
    if i == |hay| || hay[i] == c then i else Find(hay, c, i + 1)
  }

  // ---------- decimal numbers ----------

  predicate IsDigit(c: char) { '0' <= c <= '9' }

  function DigitOf(n: nat): (c: char)
    requires n < 10
    ensures IsDigit(c)
  {
    '0' + n as char
  }

  /** lexical_cast<string> of a non-negative number. */
  function Decimal(n: nat): (s: string)
    ensures s != [] && forall i :: 0 <= i < |s| ==> IsDigit(s[i])
  {
    if n < 10 then [DigitOf(n)] else Decimal(n / 10) + [DigitOf(n % 10)]
  }

  function Value(s: string): (v: nat)
    requires forall i :: 0 <= i < |s| ==> IsDigit(s[i])
  {
    if s == [] then 0
    else
      var last := s[|s| - 1];
      assert IsDigit(last);
      Value(s[..|s| - 1]) * 10 + (last as int - '0' as int)
  }

  lemma {:induction false} ValueOfDecimal(n: nat)
    ensures Value(Decimal(n)) == n
  {
    if n < 10 {
      assert Decimal(n)[..0] == [];
    } else {
      ValueOfDecimal(n / 10);
      assert Decimal(n)[..|Decimal(n)| - 1] == Decimal(n / 10);
    }
  }

  const IntMax := 0x7fff_ffff

  /** What stands behind an optional sign. */
  function Unsigned(s: string): string {
    if s != [] && (s[0] == '-' || s[0] == '+') then s[1..] else s
  }

  predicate AllDigits(s: string) {
    forall i :: 0 <= i < |s| ==> IsDigit(s[i])
  }

  /** lexical_cast<int>: an optional sign, digits only, within the range of int. */
  function ParseInt(s: string): Option<int> {
    var negative := s != [] && s[0] == '-';
    var digits := Unsigned(s);
    if digits == [] || !AllDigits(digits) then None
    else
      var v: int := Value(digits);
      if negative then (if v <= IntMax + 1 then Some(-v) else None)
      else if v <= IntMax then Some(v) else None
  }

  /** A number as printed, with or without a sign, is read exactly if it fits an int; with anything but digits
  behind the sign, or nothing, there is none. */
  lemma ParseIntIs(n: nat)
    ensures ParseInt(Decimal(n)) == if n <= IntMax then Some(n) else None
    ensures ParseInt("+" + Decimal(n)) == if n <= IntMax then Some(n) else None
    ensures var v := 0 - n; ParseInt("-" + Decimal(n)) == if n <= IntMax + 1 then Some(v) else None
  {
    ValueOfDecimal(n);
    assert IsDigit(Decimal(n)[0]);
    assert ("+" + Decimal(n))[1..] == Decimal(n) && ("-" + Decimal(n))[1..] == Decimal(n);
  }

  lemma NoInt(s: string, i: nat)
    requires s == "" || s == "+" || s == "-"
      || (i < |s| && !IsDigit(s[i]) && !(i == 0 && (s[0] == '+' || s[0] == '-')))
    ensures ParseInt(s) == None
  {
    var digits := Unsigned(s);
    if s != "" && digits != "" { assert !IsDigit(digits[i - (|s| - |digits|)]); }
  }

  // ---------- printing a request ----------

  const Head1 := "POST /xxx HTTP/1.1\r\nContent-Length "
  const Head2 := "\r\nUser-Agent IE\r\n\r\n"
  const Delimiter := "\r\n\r\n"
  const LengthKey := "Content-Length "

  function Head(body: string): string { Head1 + Decimal(|body|) + Head2 }

  function Message(body: string): string { Head(body) + body }

  method CopyInto(buf: array<char>, at: nat, part: string) returns (next: nat)
    requires at + |part| <= buf.Length
    modifies buf
    ensures next == at + |part| && buf[..next] == old(buf[..at]) + part
  {
    var i := 0;
    while i < |part|
      invariant 0 <= i <= |part| && buf[..at + i] == old(buf[..at]) + part[..i]
    {
      buf[at + i] := part[i];
      assert buf[..at + i + 1] == buf[..at + i] + [part[i]];
      i := i + 1;
    }
    assert part[..|part|] == part;
    next := at + |part|;
  }

  /** The send buffer is sized for the three head parts and the body, then filled in order. */
  method PrepareDataThenSend(body: string) returns (sendBuf: array<char>)
    ensures fresh(sendBuf) && sendBuf[..] == Message(body)
  {
    var lengthStr := Decimal(|body|);
    sendBuf := new char[|body| + |Head1| + |Head2| + |lengthStr|](_ => '\0');
    var at := CopyInto(sendBuf, 0, Head1);
    at := CopyInto(sendBuf, at, lengthStr);
    at := CopyInto(sendBuf, at, Head2);
    at := CopyInto(sendBuf, at, body);
    assert [] + Head1 == Head1 && sendBuf[..0] == [];
  }

  // ---------- parsing a head ----------

  datatype Parsed = NoDelimiter | BadLength | NoLength | TooLarge | Ok(headLen: nat, len: int, left: int)

  /** The checks of HandleReadHTTPHeadThenReadHTTPContent, on the whole receive buffer, when `byteNum` bytes of it have been read. */
  function ParseHead(buf: string, byteNum: nat, maxBuf: int): Parsed {
    var d := Search(buf, Delimiter, 0);
    if d == |buf| then NoDelimiter
    else
      var headLen := d + 4;
      var k := Search(buf, LengthKey, 0);
      if k == |buf| then NoLength
      else
        var digits := buf[k + 15..Find(buf, '\r', k + 15)];
        match ParseInt(digits)
        case None => BadLength
        case Some(len) =>
          if len + headLen > maxBuf then TooLarge else Ok(headLen, len, len + headLen - byteNum)
  }

  // ---------- the outcomes ----------

  predicate Nowhere(buf: string, needle: string) {
    forall j :: 0 <= j < |buf| ==> !OccursAt(buf, needle, j)
  }

  /** Its first occurrence is at `i`. */
  predicate FirstAt(buf: string, needle: string, i: nat) {
    i < |buf| && OccursAt(buf, needle, i) && forall j :: 0 <= j < i ==> !OccursAt(buf, needle, j)
  }

  /** `field` is what stands behind the key at `k`, up to the next carriage return or the end. */
  predicate FieldIs(buf: string, k: nat, field: string) {
    && k + 15 + |field| <= |buf| && buf[k + 15..k + 15 + |field|] == field && '\r' !in field
    && (k + 15 + |field| < |buf| ==> buf[k + 15 + |field|] == '\r')
  }

  lemma SearchIs(buf: string, needle: string, i: nat)
    requires needle != []
    ensures Search(buf, needle, 0) == |buf| <==> Nowhere(buf, needle)
    ensures FirstAt(buf, needle, i) <==> i == Search(buf, needle, 0) < |buf|
  {
  }

  lemma FindIs(buf: string, k: nat, field: string)
    requires k + 15 <= |buf|
    ensures FieldIs(buf, k, field) <==> field == buf[k + 15..Find(buf, '\r', k + 15)]
  {
    var e := Find(buf, '\r', k + 15);
    if FieldIs(buf, k, field) {
      var e' := k + 15 + |field|;
      forall j | k + 15 <= j < e' ensures buf[j] != '\r' {
        assert buf[j] == field[j - (k + 15)];
      }
      assert e == e';
    }
  }

  /** Without a delimiter in the buffer, and with one but without the key, the parse says just that. */
  lemma RefusedIff(buf: string, byteNum: nat, maxBuf: int)
    ensures ParseHead(buf, byteNum, maxBuf) == NoDelimiter <==> Nowhere(buf, Delimiter)
    ensures ParseHead(buf, byteNum, maxBuf) == NoLength <==> !Nowhere(buf, Delimiter) && Nowhere(buf, LengthKey)
  {
    SearchIs(buf, Delimiter, 0);
    SearchIs(buf, LengthKey, 0);
  }

  /** With both, the field behind the first key decides: no int, a message over the limit, or the lengths. */
  lemma FieldDecides(buf: string, byteNum: nat, maxBuf: int, d: nat, k: nat, field: string)
    requires FirstAt(buf, Delimiter, d) && FirstAt(buf, LengthKey, k) && FieldIs(buf, k, field)
    ensures var p, len := ParseHead(buf, byteNum, maxBuf), ParseInt(field);
      && (p == BadLength <==> len == None)
      && (p == TooLarge <==> len.Some? && len.value + d + 4 > maxBuf)
      && (p.Ok? <==> len.Some? && len.value + d + 4 <= maxBuf)
      && (p.Ok? ==> p == Ok(d + 4, len.value, len.value + d + 4 - byteNum))
  {
    SearchIs(buf, Delimiter, d);
    SearchIs(buf, LengthKey, k);
    FindIs(buf, k, field);
  }

  // ---------- parsing undoes printing ----------

  lemma Head1Chars()
    ensures |Head1| == 35
    ensures forall k :: 0 <= k < 35 && Head1[k] == '\r' ==> k == 18
    ensures Head1[20] == 'C' && forall k :: 0 <= k < 20 ==> Head1[k] != 'C'
    ensures Head1[20..] == LengthKey
  {
  }

  lemma Head2Chars()
    ensures |Head2| == 19 && Head2[0] == '\r'
    ensures forall k :: 0 <= k < 19 && Head2[k] == '\r' ==> k == 0 || k == 15 || k == 17
    ensures Head2[15..] == Delimiter
  {
  }

  lemma Thirds(a: string, b: string, c: string, buf: string)
    requires a + b + c <= buf
    ensures buf[..|a|] == a && buf[|a|..|a| + |b|] == b && buf[|a| + |b|..|a| + |b| + |c|] == c
  {
    assert buf[..|a + b + c|] == a + b + c;
    assert (a + b + c)[..|a|] == a && (a + b + c)[|a|..|a| + |b|] == b && (a + b + c)[|a| + |b|..] == c;
  }

  lemma Tails(buf: string, i: nat, j: nat, s: string, k: nat)
    requires i <= j <= |buf| && buf[i..j] == s && k <= |s|
    ensures buf[i + k..j] == s[k..] && forall m :: i <= m < j ==> buf[m] == s[m - i]
  {
    assert buf[i + k..j] == buf[i..j][k..];
    forall m | i <= m < j ensures buf[m] == s[m - i] {
      assert buf[m] == buf[i..j][m - i];
    }
  }

  lemma HeadParts(body: string, buf: string)
    requires Head(body) <= buf
    ensures var p := 35 + |Decimal(|body|)|;
      && |Head(body)| == p + 19 <= |buf|
      && buf[0..35] == Head1 && buf[35..p] == Decimal(|body|) && buf[p..p + 19] == Head2
  {
    Head1Chars();
    Head2Chars();
    Thirds(Head1, Decimal(|body|), Head2, buf);
  }

  lemma Head1InBuffer(buf: string)
    requires 35 <= |buf| && buf[0..35] == Head1
    ensures (forall k :: 0 <= k < 35 ==> buf[k] == Head1[k]) && buf[20..35] == LengthKey
  {
    Head1Chars();
    Tails(buf, 0, 35, Head1, 20);
  }

  lemma Head2InBuffer(buf: string, p: nat)
    requires p + 19 <= |buf| && buf[p..p + 19] == Head2
    ensures (forall k :: p <= k < p + 19 ==> buf[k] == Head2[k - p]) && buf[p + 15..p + 19] == Delimiter
  {
    Head2Chars();
    Tails(buf, p, p + 19, Head2, 15);
  }

  /** What a buffer that starts with a printed head holds at each position. */
  lemma BufferChars(body: string, buf: string)
    requires Head(body) <= buf
    ensures var p := 35 + |Decimal(|body|)|;
      && |Head(body)| == p + 19 <= |buf|
      && (forall k :: 0 <= k < 35 ==> buf[k] == Head1[k])
      && (forall k :: 35 <= k < p ==> IsDigit(buf[k]))
      && (forall k :: p <= k < p + 19 ==> buf[k] == Head2[k - p])
      && buf[35..p] == Decimal(|body|) && buf[20..35] == LengthKey && buf[p + 15..p + 19] == Delimiter
  {
    HeadParts(body, buf);
    var p := 35 + |Decimal(|body|)|;
    Head1InBuffer(buf);
    Head2InBuffer(buf, p);
    Tails(buf, 35, p, Decimal(|body|), 0);
  }

  lemma OccursChars(hay: string, needle: string, i: nat)
    ensures OccursAt(hay, needle, i) ==> forall k :: 0 <= k < |needle| ==> hay[i + k] == needle[k]
  {
    if OccursAt(hay, needle, i) {
      forall k | 0 <= k < |needle| ensures hay[i + k] == needle[k] {
        assert hay[i + k] == hay[i..i + |needle|][k];
      }
    }
  }

  lemma Differs(hay: string, needle: string, i: nat, k: nat)
    requires k < |needle| && i + k < |hay| && hay[i + k] != needle[k]
    ensures !OccursAt(hay, needle, i)
  {
    OccursChars(hay, needle, i);
  }

  lemma OccursTwice(hay: string, needle: string, i: nat, other: string)
    requires OccursAt(hay, needle, i) && i + |needle| <= |other| && hay[..i + |needle|] == other[..i + |needle|]
    ensures OccursAt(other, needle, i)
  {
    assert hay[i..i + |needle|] == hay[..i + |needle|][i..];
    assert other[i..i + |needle|] == other[..i + |needle|][i..];
  }

  /** Within a head, '\r' stands in three places. */
  lemma CarriageReturns(body: string, buf: string)
    requires Head(body) <= buf
    ensures var p := 35 + |Decimal(|body|)|;
      forall k :: 0 <= k < p + 19 && buf[k] == '\r' ==> k == 18 || k == p || k == p + 15 || k == p + 17
  {
    BufferChars(body, buf);
    Head1Chars();
    Head2Chars();
  }

  lemma NoEarlierDelimiter(body: string, buf: string, j: nat)
    requires Head(body) <= buf && j < 50 + |Decimal(|body|)|
    ensures !OccursAt(buf, Delimiter, j)
  {
    BufferChars(body, buf);
    CarriageReturns(body, buf);
    Head2Chars();
    if buf[j] != '\r' { Differs(buf, Delimiter, j, 0); } else { Differs(buf, Delimiter, j, 2); }
  }

  /** The first delimiter is the one that ends the head. */
  lemma DelimiterPosition(body: string, buf: string)
    requires Head(body) <= buf
    ensures Search(buf, Delimiter, 0) == |Head(body)| - 4 < |buf|
  {
    BufferChars(body, buf);
    var p := 35 + |Decimal(|body|)|;
    assert OccursAt(buf, Delimiter, p + 15);
    forall j | 0 <= j < p + 15 ensures !OccursAt(buf, Delimiter, j) {
      NoEarlierDelimiter(body, buf, j);
    }
  }

  /** The first length key is the one in the head. */
  lemma KeyPosition(body: string, buf: string)
    requires Head(body) <= buf
    ensures Search(buf, LengthKey, 0) == 20 < |buf|
  {
    BufferChars(body, buf);
    Head1Chars();
    assert OccursAt(buf, LengthKey, 20);
    forall j | 0 <= j < 20 ensures !OccursAt(buf, LengthKey, j) {
      OccursChars(buf, LengthKey, j);
      assert buf[j + 0] == Head1[j] != LengthKey[0];
    }
  }

  lemma LengthDigits(body: string, buf: string)
    requires Head(body) <= buf
    ensures Find(buf, '\r', 35) == 35 + |Decimal(|body|)|
    ensures buf[35..Find(buf, '\r', 35)] == Decimal(|body|)
  {
    BufferChars(body, buf);
    CarriageReturns(body, buf);
    Head2Chars();
    var p := 35 + |Decimal(|body|)|;
    assert buf[p + 0] == Head2[0];
    assert !(p < Find(buf, '\r', 35));
  }

  /** Whatever the body holds, however much of it has been read, and whatever follows the bytes read in the
  buffer, a printed head is parsed exactly: a message over the limit is refused, and so is a body whose length
  is no int. */
  lemma ParseUndoesPrint(body: string, buf: string, r: nat, maxBuf: int)
    requires |Head(body)| <= r <= |Message(body)| && r <= |buf| && buf[..r] == Message(body)[..r]
    ensures ParseHead(buf, r, maxBuf) ==
      if |body| > IntMax then BadLength
      else if |Message(body)| > maxBuf then TooLarge
      else Ok(|Head(body)|, |body|, |Message(body)| - r)
  {
    HeadIsThere(body, buf, r);
    HeadFields(body, buf);
    ParseIntIs(|body|);
    FieldDecides(buf, r, maxBuf, |Head(body)| - 4, 20, Decimal(|body|));
  }

  /** Where the parse finds what it looks for. */
  lemma HeadFields(body: string, buf: string)
    requires Head(body) <= buf
    ensures |Head(body)| >= 4 && FirstAt(buf, Delimiter, |Head(body)| - 4) && FirstAt(buf, LengthKey, 20)
    ensures FieldIs(buf, 20, Decimal(|body|))
  {
    DelimiterPosition(body, buf);
    SearchIs(buf, Delimiter, |Head(body)| - 4);
    KeyPosition(body, buf);
    SearchIs(buf, LengthKey, 20);
    LengthDigits(body, buf);
    FindIs(buf, 20, Decimal(|body|));
  }

  lemma HeadIsThere(body: string, buf: string, r: nat)
    requires |Head(body)| <= r <= |Message(body)| && r <= |buf| && buf[..r] == Message(body)[..r]
    ensures Head(body) <= buf
  {
    forall k | 0 <= k < |Head(body)| ensures Head(body)[k] == buf[k] {
      assert buf[k] == buf[..r][k] == Message(body)[..r][k];
    }
  }

  /** While the head is incomplete no delimiter is found in it. So the parse reports none exactly when none
  reaches into the bytes behind those read, which a buffer used before may hold. */
  lemma IncompleteHeadIff(body: string, buf: string, r: nat, maxBuf: int)
    requires r < |Head(body)| && r <= |buf| && buf[..r] == Message(body)[..r]
    ensures ParseHead(buf, r, maxBuf) == NoDelimiter <==>
      forall j :: r < j + |Delimiter| && 0 <= j < |buf| ==> !OccursAt(buf, Delimiter, j)
  {
    var d := Search(buf, Delimiter, 0);
    if d < |buf| && d + |Delimiter| <= r {
      TakeLess(buf, Message(body), r, d + 4);
      OccursTwice(buf, Delimiter, d, Message(body));
      BufferChars(body, Message(body));
      NoEarlierDelimiter(body, Message(body), d);
      assert false;
    }
  }

  /** In a fresh buffer there is none. */
  lemma IncompleteHead(body: string, r: nat, size: nat, maxBuf: int)
    requires r < |Head(body)| && r <= size
    ensures ParseHead(Message(body)[..r] + seq(size - r, _ => '\0'), r, maxBuf) == NoDelimiter
  {
    var buf := Message(body)[..r] + seq(size - r, _ => '\0');
    assert buf[..r] == Message(body)[..r];
    forall j | r < j + |Delimiter| && 0 <= j < |buf| ensures !OccursAt(buf, Delimiter, j) {
      if j + 4 <= |buf| { Differs(buf, Delimiter, j, 3); }
    }
    IncompleteHeadIff(body, buf, r, maxBuf);
  }

  /** What a used buffer can do: behind ten bytes of a head an old delimiter ends it too soon. */
  lemma OldDelimiterFound(body: string, maxBuf: int)
    ensures ParseHead(Message(body)[..10] + Delimiter, 10, maxBuf) != NoDelimiter
  {
    var buf := Message(body)[..10] + Delimiter;
    assert OccursAt(buf, Delimiter, 10);
  }

  lemma TakeLess(a: string, b: string, r: nat, n: nat)
    requires n <= r <= |a| && r <= |b| && a[..r] == b[..r]
    ensures a[..n] == b[..n]
  {
    assert a[..n] == a[..r][..n] && b[..n] == b[..r][..n];
  }

  // ---------- the two read handlers ----------

  /** The body behind the delimiter, or nothing (ProcessData). */
  function Split(input: string): Option<string> {
    var d := Search(input, Delimiter, 0);
    if d == |input| then None else Some(input[d + 4..])
  }

  lemma SplitMessage(body: string)
    ensures Split(Message(body)) == Some(body)
  {
    DelimiterPosition(body, Message(body));
  }

  /** std::search. */
  method SearchIn(hay: string, needle: string) returns (i: nat)
    requires needle != []
    ensures i == Search(hay, needle, 0)
  {
    i := 0;
    while i < |hay|
      invariant 0 <= i <= |hay| && Search(hay, needle, 0) == Search(hay, needle, i)
    {
      if i + |needle| <= |hay| && hay[i..i + |needle|] == needle { break; }
      i := i + 1;
    }
  }

  /** std::find from position `from`. */
  method FindIn(hay: string, c: char, from: nat) returns (i: nat)
    requires from <= |hay|
    ensures i == Find(hay, c, from)
  {
    i := from;
    while i < |hay|
      invariant from <= i <= |hay| && Find(hay, c, from) == Find(hay, c, i)
    {
      if hay[i] == c { break; }
      i := i + 1;
    }
  }

  class HttpSocket {
    var recvBuf: string
    var closed: bool

    constructor (size: nat)
      ensures recvBuf == seq(size, _ => '\0') && !closed
    {
      recvBuf := seq(size, _ => '\0');
      closed := false;
    }

    /** The number from `at` on, up to the next carriage return. */
    method ReadNumber(at: nat) returns (number: Option<int>)
      requires at <= |recvBuf|
      ensures number == ParseInt(recvBuf[at..Find(recvBuf, '\r', at)])
    {
      var e := FindIn(recvBuf, '\r', at);
      number := ParseInt(recvBuf[at..e]);
    }

    /** Looks for the end of the head and for the length among the bytes read so far. */
    method ParseRead(byteNum: nat, maxBuf: int) returns (p: Parsed)
      requires byteNum <= |recvBuf|
      ensures p == ParseHead(recvBuf, byteNum, maxBuf)
    {
      var d := SearchIn(recvBuf, Delimiter);
      if d == |recvBuf| { return NoDelimiter; }
      var headLen := d + 4;
      var k := SearchIn(recvBuf, LengthKey);
      if k == |recvBuf| { return NoLength; }
      var number := ReadNumber(k + 15);
      if number.None? { return BadLength; }
      var len := number.value;
      if len + headLen > maxBuf { return TooLarge; }
      return Ok(headLen, len, len + headLen - byteNum);
    }

    /** Parses the head of the `byteNum` bytes read so far and makes room for the content. A read error, a
    missing length and a length over the limit close the connection; a head without an end or with a
    length that is no number leaves it as it is. */
    method HandleReadHTTPHeadThenReadHTTPContent(error: bool, byteNum: nat, maxBuf: int) returns (p: Option<Parsed>)
      requires byteNum <= |recvBuf|
      modifies this
      ensures p == if error then None else Some(ParseHead(old(recvBuf), byteNum, maxBuf))
      ensures closed <==> old(closed) || error || p.value.NoLength? || p.value.TooLarge?
      ensures old(recvBuf) <= recvBuf
      ensures !error && p.value.Ok? ==> |recvBuf| == if |old(recvBuf)| < p.value.headLen + p.value.len
                                                     then p.value.headLen + p.value.len else |old(recvBuf)|
      ensures error || !p.value.Ok? ==> recvBuf == old(recvBuf)
    {
      if error {
        closed := true;
        return None;
      }
      var read := ParseRead(byteNum, maxBuf);
      p := Some(read);
      match read
      case NoLength => closed := true;
      case TooLarge => closed := true;
      case Ok(headLen, len, _) =>
        if len + headLen > |recvBuf| {
          recvBuf := recvBuf + seq(len + headLen - |recvBuf|, _ => '\0');
        }
      case _ =>
    }

    /** The content arrives behind what was read, and the buffer is cut to head plus content. */
    method HandleReadHTTPContentThenProcess(byteNum: nat, content: string, total: nat)
      requires byteNum + |content| == total <= |recvBuf|
      modifies this
      ensures recvBuf == old(recvBuf)[..byteNum] + content
    {
      recvBuf := recvBuf[..byteNum] + content + recvBuf[total..];
      recvBuf := recvBuf[..total];
    }
  }

  /** A whole exchange over a connection that delivers the request in two reads: a message over the limit closes
  the connection; of any other the receiver gets the printed message back and its body with it. */
  method Exchange(body: string, first: nat, size: nat, maxBuf: int) returns (closed: bool, input: string, content: Option<string>)
    requires |Head(body)| <= first <= |Message(body)| && maxBuf <= IntMax && |body| <= IntMax && first <= size
    ensures closed <==> |Message(body)| > maxBuf
    ensures !closed ==> input == Message(body) && content == Some(body)
  {
    var wire := PrepareDataThenSend(body);
    var sent := wire[..];
    var sk := new HttpSocket(size);
    sk.recvBuf := sent[..first] + sk.recvBuf[first..];
    ParseUndoesPrint(body, sk.recvBuf, first, maxBuf);
    var p := sk.HandleReadHTTPHeadThenReadHTTPContent(false, first, maxBuf);
    if sk.closed { return true, "", None; }
    assert sk.recvBuf[..first] == sent[..first];
    sk.HandleReadHTTPContentThenProcess(first, sent[first..first + p.value.left], |Message(body)|);
    assert sent[..first] + sent[first..|sent|] == sent;
    input := sk.recvBuf;
    SplitMessage(body);
    content := Split(input);
    closed := false;
  }
}
