/** Text as the stores use it: trimming, decimal numerals, text order and the
    encodings that are hashed into row identities. */
module Text {

  const NUL: char := 0 as char

  /** White space as Unicode defines it. */
  predicate IsSpace(c: char) {
    || c == ' ' || '\t' <= c <= '\r' || c == 0x85 as char || c == 0xA0 as char || c == 0x1680 as char
    || 0x2000 as char <= c <= 0x200A as char || c == 0x2028 as char || c == 0x2029 as char
    || c == 0x202F as char || c == 0x205F as char || c == 0x3000 as char
  }

  function TrimLeft(s: string): string {
    if s != "" && IsSpace(s[0]) then TrimLeft(s[1..]) else s
  }

  function TrimRight(s: string): string {
    if s != "" && IsSpace(s[|s| - 1]) then TrimRight(s[..|s| - 1]) else s
  }

  function Trim(s: string): string {
    TrimRight(TrimLeft(s))
  }

  predicate Trimmed(s: string) {
    s == "" || (!IsSpace(s[0]) && !IsSpace(s[|s| - 1]))
  }

  lemma TrimmedIsFixed(s: string)
    requires Trimmed(s)
    ensures Trim(s) == s
  {
  }

  lemma {:induction false} TrimRightKeepsHead(s: string)
    requires s != "" && !IsSpace(s[0])
    ensures Trimmed(TrimRight(s))
  {
    if IsSpace(s[|s| - 1]) {
      TrimRightKeepsHead(s[..|s| - 1]);
    }
  }

  lemma {:induction false} TrimIsTrimmed(s: string)
    ensures Trimmed(Trim(s))
  {
    if s == "" {
    } else if IsSpace(s[0]) {
      TrimIsTrimmed(s[1..]);
    } else {
      TrimRightKeepsHead(s);
    }
  }

  /** Decimal numeral of a natural number. */
  function Decimal(n: nat): (r: string)
    ensures r != "" && forall i :: 0 <= i < |r| ==> '0' <= r[i] <= '9'
  {
    if n < 10 then [Digit(n)] else Decimal(n / 10) + [Digit(n % 10)]
  }

  function Digit(n: nat): char
    requires n < 10
  {
    '0' + n as char
  }

  lemma {:induction false} DecimalInjective(a: nat, b: nat)
    requires Decimal(a) == Decimal(b)
    ensures a == b
  {
    var x, y := Decimal(a), Decimal(b);
    assert x[|x| - 1] == Digit(a % 10) && y[|y| - 1] == Digit(b % 10);
    if a >= 10 && b >= 10 {
      assert x[..|x| - 1] == Decimal(a / 10) && y[..|y| - 1] == Decimal(b / 10);
      DecimalInjective(a / 10, b / 10);
    }
  }

  /** A separator cuts a text in one place only, when one side cannot hold it. */
  lemma SplitAtFirst(a: string, x: string, b: string, y: string, c: char)
    requires c !in a && c !in b
    requires a + [c] + x == b + [c] + y
    ensures a == b && x == y
  {
    var s := a + [c] + x;
    assert s[|a|] == c && s[|b|] == c;
    assert |a| == |b|;
    assert a == s[..|a|] && b == s[..|b|];
    assert x == s[|a| + 1..] && y == s[|b| + 1..];
  }

  lemma SplitAtLast(a: string, x: string, b: string, y: string, c: char)
    requires c !in x && c !in y
    requires a + [c] + x == b + [c] + y
    ensures a == b && x == y
  {
    var s := a + [c] + x;
    assert s[|a|] == c && s[|b|] == c;
    assert |a| == |b|;
    assert a == s[..|a|] && b == s[..|b|];
    assert x == s[|a| + 1..] && y == s[|b| + 1..];
  }

  /** JSON string literals, as far as identity depends on them: quotation marks
      and backslashes are escaped, so a literal ends where it says it ends. */
  function Quote(s: string): string {
    ['"'] + QuoteTail(s)
  }

  function QuoteTail(s: string): (r: string)
    ensures r != ""
  {
    if s == "" then ['"']
    else if s[0] == '"' || s[0] == '\\' then ['\\', s[0]] + QuoteTail(s[1..])
    else [s[0]] + QuoteTail(s[1..])
  }

  lemma {:induction false} QuoteTailPrefixFree(a: string, x: string, b: string, y: string)
    requires QuoteTail(a) + x == QuoteTail(b) + y
    ensures a == b && x == y
  {
    var s, t := QuoteTail(a) + x, QuoteTail(b) + y;
    assert s[0] == t[0] && (|s| > 1 && |t| > 1 ==> s[1] == t[1]);
    if a == "" || b == "" {
      assert a == "" && b == "";
      assert x == s[1..] && y == t[1..];
    } else {
      var n := if a[0] == '"' || a[0] == '\\' then 2 else 1;
      assert a[0] == b[0];
      assert s[n..] == QuoteTail(a[1..]) + x;
      assert t[n..] == QuoteTail(b[1..]) + y;
      QuoteTailPrefixFree(a[1..], x, b[1..], y);
      assert a == [a[0]] + a[1..] && b == [b[0]] + b[1..];
    }
  }

  /** The fields of a JSON array of strings, without its brackets. */
  function QuoteAll(fields: seq<string>): string {
    if fields == [] then "" else Quote(fields[0]) + "," + QuoteAll(fields[1..])
  }

  function AfterFirst(a: seq<string>, x: string): string
    requires a != []
  {
    [','] + (QuoteAll(a[1..]) + x)
  }

  lemma QuoteAllCut(a: seq<string>, x: string)
    requires a != []
    ensures QuoteAll(a) + x == ['"'] + (QuoteTail(a[0]) + AfterFirst(a, x))
  {
    var q, r := QuoteTail(a[0]), QuoteAll(a[1..]);
    assert QuoteAll(a) == ['"'] + q + [','] + r;
    Reassociate(['"'], q, [','], r, x);
  }

  lemma Reassociate(a: string, b: string, c: string, d: string, e: string)
    ensures a + b + c + d + e == a + (b + (c + (d + e)))
  {
  }

  lemma ConsInjective(c: char, x: string, y: string)
    requires [c] + x == [c] + y
    ensures x == y
  {
    assert x == ([c] + x)[1..] && y == ([c] + y)[1..];
  }

  lemma QuoteAllStep(a: seq<string>, x: string, b: seq<string>, y: string)
    requires a != [] && b != []
    requires QuoteAll(a) + x == QuoteAll(b) + y
    ensures a[0] == b[0] && QuoteAll(a[1..]) + x == QuoteAll(b[1..]) + y
  {
    QuoteAllCut(a, x);
    QuoteAllCut(b, y);
    ConsInjective('"', QuoteTail(a[0]) + AfterFirst(a, x), QuoteTail(b[0]) + AfterFirst(b, y));
    QuoteTailPrefixFree(a[0], AfterFirst(a, x), b[0], AfterFirst(b, y));
    ConsInjective(',', QuoteAll(a[1..]) + x, QuoteAll(b[1..]) + y);
  }

  lemma {:induction false} QuoteAllPrefixFree(a: seq<string>, x: string, b: seq<string>, y: string)
    requires |a| == |b|
    requires QuoteAll(a) + x == QuoteAll(b) + y
    ensures a == b && x == y
  {
    if a == [] {
      assert QuoteAll(a) + x == x && QuoteAll(b) + y == y;
    } else {
      QuoteAllStep(a, x, b, y);
      QuoteAllPrefixFree(a[1..], x, b[1..], y);
      assert a == [a[0]] + a[1..] && b == [b[0]] + b[1..];
    }
  }

  /** Binary text order, the order SQL compares text columns in. */
  predicate Less(a: string, b: string) {
    b != "" && (a == "" || a[0] < b[0] || (a[0] == b[0] && Less(a[1..], b[1..])))
  }

  lemma {:induction false} LessAfterCommonPrefix(p: string, a: string, b: string)
    ensures Less(p + a, p + b) <==> Less(a, b)
  {
    if p == "" {
      assert p + a == a && p + b == b;
    } else {
      assert (p + a)[1..] == p[1..] + a && (p + b)[1..] == p[1..] + b;
      LessAfterCommonPrefix(p[1..], a, b);
    }
  }

  lemma {:induction false} LessIsTotal(a: string, b: string)
    ensures Less(a, b) || a == b || Less(b, a)
  {
    if a != "" && b != "" && a[0] == b[0] {
      LessIsTotal(a[1..], b[1..]);
      assert a == [a[0]] + a[1..] && b == [b[0]] + b[1..];
    }
  }

  lemma {:induction false} LessIsIrreflexive(a: string)
    ensures !Less(a, a)
  {
    if a != "" {
      LessIsIrreflexive(a[1..]);
    }
  }

  lemma {:induction false} LessIsTransitive(a: string, b: string, c: string)
    requires Less(a, b) && Less(b, c)
    ensures Less(a, c)
  {
    if a != "" && a[0] == b[0] && b[0] == c[0] {
      LessIsTransitive(a[1..], b[1..], c[1..]);
    }
  }
}
