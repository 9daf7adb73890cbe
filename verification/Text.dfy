// Go string helpers the controllers rely on: strings.Contains, strings.Split,
// strings.ToLower, strconv.Atoi, fmt's %d, and Go's byte-wise string order.
module Text {

  datatype Option<+T> = None | Some(value: T)

  // ---- substrings -------------------------------------------------------

  predicate OccursAt(s: string, sub: string, i: nat)
    requires i <= |s| - |sub|
  {
    s[i..i + |sub|] == sub
  }

  predicate Contains(s: string, sub: string) {
    exists i :: 0 <= i <= |s| - |sub| && OccursAt(s, sub, i)
  }

  lemma ContainsIntro(prefix: string, sub: string, suffix: string)
    ensures Contains(prefix + sub + suffix, sub)
  {
    var s := prefix + sub + suffix;
    assert OccursAt(s, sub, |prefix|);
  }

  function Lower(c: char): char {
    if 'A' <= c <= 'Z' then c - 'A' + 'a' else c
  }

  function ToLower(s: string): string {
    seq(|s|, i requires 0 <= i < |s| => Lower(s[i]))
  }

  // Capitals become small letters, and all else stays.
  lemma LowerAt(s: string, i: nat)
    requires i < |s|
    ensures |ToLower(s)| == |s|
    ensures ToLower(s)[i] == if 'A' <= s[i] <= 'Z' then (s[i] as int + 32) as char else s[i]
  {
  }

  // ---- strings.Split on a one-character separator -------------------------

  function Split(s: string, sep: char): (parts: seq<string>)
    ensures |parts| >= 1
  {
    if s == "" then [""] else
      var rest := Split(s[1..], sep);
      if s[0] == sep then [""] + rest else [[s[0]] + rest[0]] + rest[1..]
  }

  function Join(parts: seq<string>, sep: char): string
    requires |parts| >= 1
  {
    if |parts| == 1 then parts[0] else parts[0] + [sep] + Join(parts[1..], sep)
  }

  lemma {:induction false} SplitWhole(s: string, sep: char)
    requires sep !in s
    ensures Split(s, sep) == [s]
  {
    if s != "" {
      SplitWhole(s[1..], sep);
      assert s == [s[0]] + s[1..];
    }
  }

  lemma {:induction false} SplitFirst(a: string, b: string, sep: char)
    requires sep !in a
    ensures Split(a + [sep] + b, sep) == [a] + Split(b, sep)
    decreases |a|
  {
    var s := a + [sep] + b;
    if a == "" {
      assert s[1..] == b;
    } else {
      SplitFirst(a[1..], b, sep);
      assert s[1..] == a[1..] + [sep] + b;
      assert a == [a[0]] + a[1..];
    }
  }

  // Splitting undoes joining, for parts that do not hold the separator.
  lemma {:induction false} SplitJoin(parts: seq<string>, sep: char)
    requires |parts| >= 1
    requires forall p :: p in parts ==> sep !in p
    ensures Split(Join(parts, sep), sep) == parts
  {
    if |parts| == 1 {
      SplitWhole(parts[0], sep);
    } else {
      SplitJoin(parts[1..], sep);
      SplitFirst(parts[0], Join(parts[1..], sep), sep);
    }
  }

  // ---- decimal numbers ----------------------------------------------------

  const MIN_INT64: int := -0x8000_0000_0000_0000
  const MAX_INT64: int := 0x7fff_ffff_ffff_ffff

  predicate IsDigit(c: char) { '0' <= c <= '9' }

  predicate AllDigits(s: string) { forall i :: 0 <= i < |s| ==> IsDigit(s[i]) }

  function Digits(n: nat): (s: string)
    ensures |s| >= 1 && AllDigits(s)
  {
    if n < 10 then ['0' + n as char] else Digits(n / 10) + ['0' + (n % 10) as char]
  }

  // fmt.Sprintf("%d", n)
  function Itoa(n: int): string {
    if n < 0 then "-" + Digits(-n) else Digits(n)
  }

  function ParseDigits(s: string): nat
    requires AllDigits(s)
  {
    if s == "" then 0 else ParseDigits(s[..|s| - 1]) * 10 + (s[|s| - 1] as int - '0' as int)
  }

  // strconv.Atoi: an optional sign, at least one digit, the value within int64.
  function Atoi(s: string): Option<int> {
    var body := if s != "" && (s[0] == '-' || s[0] == '+') then s[1..] else s;
    if body == "" || !AllDigits(body) then None
    else
      var magnitude: int := ParseDigits(body);
      var value := if s[0] == '-' then -magnitude else magnitude;
      if MIN_INT64 <= value <= MAX_INT64 then Some(value) else None
  }

  lemma {:induction false} ParseOfDigits(n: nat)
    ensures ParseDigits(Digits(n)) == n
  {
    if n >= 10 {
      ParseOfDigits(n / 10);
      assert Digits(n)[..|Digits(n)| - 1] == Digits(n / 10);
    }
  }

  lemma AtoiItoa(n: int)
    requires MIN_INT64 <= n <= MAX_INT64
    ensures Atoi(Itoa(n)) == Some(n)
  {
    var m := if n < 0 then -n else n;
    ParseOfDigits(m);
    assert IsDigit(Digits(m)[0]);
    if n < 0 {
      assert Itoa(n)[1..] == Digits(m);
    }
  }

  lemma TenMore(n: nat, d: nat)
    requires n > 0 && d < 10
    ensures Digits(10 * n + d) == Digits(n) + ['0' + d as char]
  {
    assert (10 * n + d) / 10 == n && (10 * n + d) % 10 == d;
  }

  // Decimal, with a minus sign for negative numbers.
  lemma ItoaIs()
    ensures Itoa(0) == "0" && Itoa(7) == "7" && Itoa(128) == "128" && Itoa(-31) == "-31"
  {
    TenMore(1, 2);
    TenMore(12, 8);
    TenMore(3, 1);
  }

  // No digits, or anything else among them, is an error, and so is a number
  // beyond 64 bits.
  lemma AtoiIs(s: string)
    ensures Atoi("").None? && Atoi("+").None? && Atoi("-").None?
    ensures s != "" && AllDigits(s) ==>
              Atoi(s) == (if ParseDigits(s) <= 0x7fff_ffff_ffff_ffff then Some(ParseDigits(s)) else None)
    ensures (exists i :: 1 <= i < |s| && !IsDigit(s[i])) ==> Atoi(s).None?
  {
    if s != "" && AllDigits(s) {
      assert IsDigit(s[0]);
    }
    if i :| 1 <= i < |s| && !IsDigit(s[i]) {
      assert s[1..][i - 1] == s[i];
    }
  }

  lemma DigitsInjective(m: nat, n: nat)
    requires Digits(m) == Digits(n)
    ensures m == n
  {
    ParseOfDigits(m);
    ParseOfDigits(n);
  }

  // ---- cutting at a separator ---------------------------------------------

  // Two strings cut at their last separator agree in both halves.
  lemma {:induction false} CutAtLast(a: string, b: string, x: string, y: string, sep: char)
    requires sep !in b && sep !in y
    requires a + [sep] + b == x + [sep] + y
    ensures a == x && b == y
    decreases |b|
  {
    var s, t := a + [sep] + b, x + [sep] + y;
    var last := s[|s| - 1];
    assert t[|t| - 1] == last;
    assert if b == "" then last == sep else last == b[|b| - 1];
    assert if y == "" then last == sep else last == y[|y| - 1];
    if b != "" && y != "" {
      assert a + [sep] + b[..|b| - 1] == s[..|s| - 1];
      assert x + [sep] + y[..|y| - 1] == t[..|t| - 1];
      CutAtLast(a, b[..|b| - 1], x, y[..|y| - 1], sep);
      assert b == b[..|b| - 1] + [last];
      assert y == y[..|y| - 1] + [last];
    } else {
      assert a == s[..|s| - 1];
      assert x == t[..|t| - 1];
    }
  }

  // Two strings cut at their first separator agree in both halves.
  lemma CutAtFirst(a: string, b: string, x: string, y: string, sep: char)
    requires sep !in a && sep !in x
    requires a + [sep] + b == x + [sep] + y
    ensures a == x && b == y
  {
    SplitFirst(a, b, sep);
    SplitFirst(x, y, sep);
    assert a == Split(a + [sep] + b, sep)[0] == x;
    assert b == (a + [sep] + b)[|a| + 1..];
    assert y == (x + [sep] + y)[|x| + 1..];
  }

  // ---- Go's string order ----------------------------------------------------

  predicate Less(a: string, b: string) {
    if b == "" then false
    else if a == "" then true
    else if a[0] != b[0] then a[0] < b[0]
    else Less(a[1..], b[1..])
  }

  // A longer string follows its prefixes; otherwise the first difference decides.
  lemma {:induction false} LessIs(prefix: string, a: char, b: char, s: string, t: string)
    ensures Less(prefix, prefix + [a] + s) && !Less(prefix + [a] + s, prefix)
    ensures a != b ==> (Less(prefix + [a] + s, prefix + [b] + t) <==> a < b)
  {
    var x, y := prefix + [a] + s, prefix + [b] + t;
    if prefix != "" {
      LessIs(prefix[1..], a, b, s, t);
      assert x[1..] == prefix[1..] + [a] + s && y[1..] == prefix[1..] + [b] + t;
      assert x[0] == prefix[0] == y[0];
    } else {
      assert x[0] == a && y[0] == b;
    }
  }

  lemma {:induction false} LessTotal(a: string, b: string)
    ensures Less(a, b) || a == b || Less(b, a)
    ensures !(Less(a, b) && Less(b, a))
    ensures a == b ==> !Less(a, b)
    decreases |a| + |b|
  {
    if a != "" && b != "" && a[0] == b[0] {
      LessTotal(a[1..], b[1..]);
      assert a == [a[0]] + a[1..];
      assert b == [b[0]] + b[1..];
    }
  }

  lemma {:induction false} LessTransitive(a: string, b: string, c: string)
    requires Less(a, b) && Less(b, c)
    ensures Less(a, c)
  {
    if a != "" && a[0] == b[0] == c[0] {
      LessTransitive(a[1..], b[1..], c[1..]);
    }
  }
}
