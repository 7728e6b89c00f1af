/** Values shared by every card: optional values, HTTP replies as the cards see
    them through `fetch`, and JavaScript truthiness of optional strings. */
module Common {

  /** `null`/`undefined` versus a present value. */
  datatype Option<+T> = None | Some(value: T)

  /** JavaScript truthiness of a nullable string: `null`, `undefined` and `""` are falsy. */
  predicate Truthy(s: Option<string>) {
    s.Some? && s.value != ""
  }

  /** The JSON body of a response: parsed into the expected shape, or `res.json()` rejected. */
  datatype Body<+B> = Json(value: B) | Malformed(message: string)

  /** What one `fetch` call yields: it rejects (network failure, DNS, CORS) with a message,
      or it resolves with a status code and a body. */
  datatype Reply<+B> = NetworkError(message: string) | Response(status: nat, body: Body<B>)

  /** `Response.ok`: the status is in the range 200-299. */
  predicate IsOk(status: nat) {
    200 <= status <= 299
  }

  /** The parsed body of a reply whose status is ok, and nothing for every kind of failure. */
  function Payload<B>(reply: Reply<B>): (r: Option<B>)
    ensures r.Some? <==> reply.Response? && IsOk(reply.status) && reply.body.Json?
    ensures r.Some? ==> r.value == reply.body.value
  {
    match reply
    case Response(status, Json(b)) => if IsOk(status) then Some(b) else None
    case _ => None
  }
}

/** String helpers the cards rely on from the JavaScript runtime. */
module Text {

  /** The ECMAScript WhiteSpace and LineTerminator code points: what `String.prototype.trim` strips. */
  predicate IsSpace(c: char) {
    || c == '\t' || c == '\n' || c == '\U{000B}' || c == '\U{000C}' || c == '\r'
    || c == ' ' || c == '\U{00A0}' || c == '\U{1680}'
    || ('\U{2000}' <= c <= '\U{200A}')
    || c == '\U{2028}' || c == '\U{2029}' || c == '\U{202F}' || c == '\U{205F}'
    || c == '\U{3000}' || c == '\U{FEFF}'
  }

  predicate AllSpace(s: string) {
    forall i :: 0 <= i < |s| ==> IsSpace(s[i])
  }

  /** Drops the leading white space. */
  function TrimStart(s: string): (r: string)
    ensures |r| <= |s| && r == s[|s| - |r|..]
    ensures AllSpace(s[..|s| - |r|])
    ensures r == [] || !IsSpace(r[0])
    decreases |s|
  {
    if s != [] && IsSpace(s[0]) then
      var r := TrimStart(s[1..]);
      assert s[..|s| - |r|] == [s[0]] + s[1..][..|s| - 1 - |r|];
      r
    else s
  }

  /** Drops the trailing white space. */
  function TrimEnd(s: string): (r: string)
    ensures |r| <= |s| && r == s[..|r|]
    ensures AllSpace(s[|r|..])
    ensures r == [] || !IsSpace(r[|r| - 1])
    decreases |s|
  {
    if s != [] && IsSpace(s[|s| - 1]) then
      var r := TrimEnd(s[..|s| - 1]);
      assert s[|r|..] == s[..|s| - 1][|r|..] + [s[|s| - 1]];
      r
    else s
  }

  /** `r` is the slice of `s` starting at `k`, with only white space before
      and after it. */
  predicate TrimmedAt(s: string, r: string, k: nat) {
    && k + |r| <= |s|
    && r == s[k..k + |r|]
    && AllSpace(s[..k])
    && AllSpace(s[k + |r|..])
  }

  /** `String.prototype.trim`. */
  function Trim(s: string): (r: string)
    ensures r == [] || (!IsSpace(r[0]) && !IsSpace(r[|r| - 1]))
    ensures r == [] <==> AllSpace(s)
    // the result is the input with white space removed at its two ends only
    ensures exists k: nat :: TrimmedAt(s, r, k)
  {
    var t := TrimStart(s);
    var r := TrimEnd(t);
    CutParts(s, t, r);
    assert TrimmedAt(s, r, |s| - |t|);
    r
  }

  /** A suffix `t` of `s` cut after white space only and starting with none,
      then a prefix `r` of `t` cut before white space only and ending with none:
      `r` is the slice of `s` between the cuts, and it is empty exactly when `s`
      is blank. */
  lemma CutParts(s: string, t: string, r: string)
    requires |t| <= |s| && t == s[|s| - |t|..] && AllSpace(s[..|s| - |t|])
    requires t == [] || !IsSpace(t[0])
    requires |r| <= |t| && r == t[..|r|] && AllSpace(t[|r|..])
    requires r == [] || !IsSpace(r[|r| - 1])
    ensures r == [] || (!IsSpace(r[0]) && !IsSpace(r[|r| - 1]))
    ensures r == [] <==> AllSpace(s)
    ensures TrimmedAt(s, r, |s| - |t|)
  {
    var k := |s| - |t|;
    assert s[k + |r|..] == t[|r|..];
    assert r == s[k..k + |r|];
    if r == [] {
      assert t[|r|..] == t;
    } else {
      assert r[0] == t[0] == s[k];
    }
  }

  /** Trimming an already trimmed string changes nothing. */
  lemma TrimIdempotent(s: string)
    ensures Trim(Trim(s)) == Trim(s)
  {
    TrimOfTrimmed(Trim(s));
  }

  /** A string with no white space at either end is its own trimmed form. */
  lemma TrimOfTrimmed(s: string)
    requires s == [] || (!IsSpace(s[0]) && !IsSpace(s[|s| - 1]))
    ensures Trim(s) == s
  {
    assert TrimStart(s) == s;
    assert TrimEnd(s) == s;
  }

  predicate IsDigit(c: char) {
    '0' as int <= c as int <= '9' as int
  }

  function DigitChar(d: nat): (c: char)
    requires d < 10
    ensures IsDigit(c)
  {
    (48 + d) as char
  }

  /** The decimal notation JavaScript produces when a non-negative integer is
      interpolated into a template literal. */
  function DecimalOf(n: nat): (s: string)
    ensures s != []
    ensures forall i :: 0 <= i < |s| ==> IsDigit(s[i])
    ensures s[0] == '0' ==> s == "0"
    decreases n
  {
    if n < 10 then [DigitChar(n)] else DecimalOf(n / 10) + [DigitChar(n % 10)]
  }

  /** Reads a string of decimal digits back as a number; the inverse of `DecimalOf`. */
  function ValueOf(s: string): nat
    requires forall i :: 0 <= i < |s| ==> IsDigit(s[i])
    decreases |s|
  {
    if s == [] then 0
    else
      var last := s[|s| - 1];
      assert IsDigit(last);
      10 * ValueOf(s[..|s| - 1]) + (last as int - '0' as int)
  }

  /** Decimal rendering loses nothing: the number can be read back. */
  lemma {:induction false} ValueOfDecimal(n: nat)
    ensures ValueOf(DecimalOf(n)) == n
    decreases n
  {
    if n >= 10 {
      var s := DecimalOf(n);
      assert s[..|s| - 1] == DecimalOf(n / 10);
      ValueOfDecimal(n / 10);
    }
  }

  /** Two messages made of the same prefix and a decimal number are equal only
      when the numbers are. */
  lemma PrefixedDecimalInjective(prefix: string, a: nat, b: nat)
    requires prefix + DecimalOf(a) == prefix + DecimalOf(b)
    ensures a == b
  {
    var sa, sb := prefix + DecimalOf(a), prefix + DecimalOf(b);
    assert DecimalOf(a) == sa[|prefix|..];
    assert DecimalOf(b) == sb[|prefix|..];
    ValueOfDecimal(a);
    ValueOfDecimal(b);
  }
}
