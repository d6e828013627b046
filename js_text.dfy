/** The JavaScript string operations the core relies on, over Unicode scalar
    values: `trim`, `toLowerCase` (ASCII letters only), `startsWith`,
    `endsWith`, `indexOf`, `lastIndexOf`, `split`, `String(n)` for integers,
    and the UTF-16 and UTF-8 lengths of a string. */
module JsText {
  import opened Wrappers

  /** The characters `String.prototype.trim` removes: ECMAScript WhiteSpace
      (tab, vertical tab, form feed, space, no-break space, byte order mark
      and the Zs category) and LineTerminator (LF, CR, LS, PS). */
  predicate IsTrimmable(c: char) {
    var n := c as int;
    n == 0x09 || n == 0x0A || n == 0x0B || n == 0x0C || n == 0x0D || n == 0x20
    || n == 0xA0 || n == 0x1680 || (0x2000 <= n <= 0x200A) || n == 0x2028
    || n == 0x2029 || n == 0x202F || n == 0x205F || n == 0x3000 || n == 0xFEFF
  }

  predicate AllTrimmable(s: string) {
    forall i :: 0 <= i < |s| ==> IsTrimmable(s[i])
  }

  /** True of a string that `trim` leaves as it is. */
  predicate IsTrimmed(s: string) {
    s == [] || (!IsTrimmable(s[0]) && !IsTrimmable(s[|s| - 1]))
  }

  function TrimStart(s: string): (r: string)
    ensures |r| <= |s| && r == s[|s| - |r|..]
    ensures r == [] || !IsTrimmable(r[0])
  {
    if s == [] || !IsTrimmable(s[0]) then s else TrimStart(s[1..])
  }

  function TrimEnd(s: string): (r: string)
    ensures |r| <= |s| && r == s[..|r|]
    ensures r == [] || !IsTrimmable(r[|r| - 1])
  {
    if s == [] || !IsTrimmable(s[|s| - 1]) then s else TrimEnd(s[..|s| - 1])
  }

  /** `s.trim()`. */
  function Trim(s: string): (r: string)
    ensures IsTrimmed(r)
    ensures |r| <= |s|
  {
    var t := TrimStart(s);
    var r := TrimEnd(t);
    assert r != [] ==> r[0] == t[0];
    r
  }

  lemma {:induction false} TrimStartFrame(pre: string, rest: string)
    requires AllTrimmable(pre)
    requires rest == [] || !IsTrimmable(rest[0])
    ensures TrimStart(pre + rest) == rest
    decreases |pre|
  {
    if pre == [] {
      assert pre + rest == rest;
    } else {
      assert (pre + rest)[0] == pre[0];
      assert (pre + rest)[1..] == pre[1..] + rest;
      TrimStartFrame(pre[1..], rest);
    }
  }

  lemma {:induction false} TrimEndFrame(rest: string, post: string)
    requires AllTrimmable(post)
    requires rest == [] || !IsTrimmable(rest[|rest| - 1])
    ensures TrimEnd(rest + post) == rest
    decreases |post|
  {
    if post == [] {
      assert rest + post == rest;
    } else {
      var s := rest + post;
      assert s[|s| - 1] == post[|post| - 1];
      assert s[..|s| - 1] == rest + post[..|post| - 1];
      TrimEndFrame(rest, post[..|post| - 1]);
    }
  }

  /** `trim` removes exactly the trimmable characters around a trimmed core:
      whatever surrounds it, the core comes back unchanged. */
  lemma TrimFrame(pre: string, core: string, post: string)
    requires AllTrimmable(pre) && AllTrimmable(post)
    requires IsTrimmed(core)
    ensures Trim(pre + core + post) == core
  {
    if core == [] {
      assert pre + core + post == (pre + post) + [];
      assert AllTrimmable(pre + post);
      TrimStartFrame(pre + post, []);
    } else {
      assert pre + core + post == pre + (core + post);
      TrimStartFrame(pre, core + post);
      TrimEndFrame(core, post);
    }
  }

  /** A trimmed string is a fixed point of `trim`. */
  lemma TrimTrimmed(s: string)
    requires IsTrimmed(s)
    ensures Trim(s) == s
  {
    assert [] + s + [] == s;
    TrimFrame([], s, []);
  }

  /** A blank string trims to nothing. */
  lemma TrimBlank(s: string)
    requires AllTrimmable(s)
    ensures Trim(s) == []
  {
  }

  function LowerChar(c: char): char {
    if 'A' <= c <= 'Z' then (c as int + 32) as char else c
  }

  /** `s.toLowerCase()` restricted to ASCII letters. */
  function Lower(s: string): (r: string)
    ensures |r| == |s|
    ensures forall i :: 0 <= i < |s| ==> r[i] == LowerChar(s[i])
  {
    seq(|s|, i requires 0 <= i < |s| => LowerChar(s[i]))
  }

  lemma LowerConcat(a: string, b: string)
    ensures Lower(a + b) == Lower(a) + Lower(b)
  {
  }

  predicate StartsWith(s: string, prefix: string) {
    |prefix| <= |s| && s[..|prefix|] == prefix
  }

  predicate EndsWith(s: string, suffix: string) {
    |suffix| <= |s| && s[|s| - |suffix|..] == suffix
  }

  /** `s.indexOf(c)`: the first position of `c`, or -1. */
  function IndexOf(s: string, c: char): (r: int)
    ensures -1 <= r < |s|
    ensures r >= 0 ==> s[r] == c
    ensures forall j :: 0 <= j < |s| && (r == -1 || j < r) ==> s[j] != c
  {
    if s == [] then -1
    else if s[0] == c then 0
    else
      var k := IndexOf(s[1..], c);
      if k == -1 then -1 else k + 1
  }

  /** `s.lastIndexOf(c)`: the last position of `c`, or -1. */
  function LastIndexOf(s: string, c: char): (r: int)
    ensures -1 <= r < |s|
    ensures r >= 0 ==> s[r] == c
    ensures forall j :: 0 <= j < |s| && r < j ==> s[j] != c
  {
    if s == [] then -1
    else if s[|s| - 1] == c then |s| - 1
    else LastIndexOf(s[..|s| - 1], c)
  }

  /** Concatenation of `parts` with `sep` between consecutive parts. */
  function Join(parts: seq<string>, sep: char): string {
    if parts == [] then []
    else if |parts| == 1 then parts[0]
    else Join(parts[..|parts| - 1], sep) + [sep] + parts[|parts| - 1]
  }

  /** `s.split(sep)` for a one-character separator: the pieces between the
      occurrences of `sep`, in order. */
  function Split(s: string, sep: char): (parts: seq<string>)
    ensures |parts| >= 1
    decreases |s|
  {
    var j := LastIndexOf(s, sep);
    if j == -1 then [s] else Split(s[..j], sep) + [s[j + 1..]]
  }

  lemma JoinSnoc(init: seq<string>, x: string, sep: char)
    requires |init| >= 1
    ensures Join(init + [x], sep) == Join(init, sep) + [sep] + x
  {
    var parts := init + [x];
    assert parts[..|parts| - 1] == init;
  }

  /** Joining the pieces with the separator gives the string back. */
  lemma {:induction false} SplitJoin(s: string, sep: char)
    ensures Join(Split(s, sep), sep) == s
    decreases |s|
  {
    var j := LastIndexOf(s, sep);
    if j != -1 {
      var head, tail := s[..j], s[j + 1..];
      assert Split(s, sep) == Split(head, sep) + [tail];
      JoinSnoc(Split(head, sep), tail, sep);
      SplitJoin(head, sep);
      assert s == head + [sep] + tail by {
        assert s[j] == sep;
      }
    } else {
      assert Split(s, sep) == [s];
    }
  }

  /** No piece contains the separator. */
  lemma {:induction false} SplitPieces(s: string, sep: char)
    ensures forall i :: 0 <= i < |Split(s, sep)| ==> sep !in Split(s, sep)[i]
    decreases |s|
  {
    var j := LastIndexOf(s, sep);
    if j != -1 {
      var init := Split(s[..j], sep);
      var tail := s[j + 1..];
      assert Split(s, sep) == init + [tail];
      SplitPieces(s[..j], sep);
      assert sep !in tail by {
        forall k | 0 <= k < |tail| ensures tail[k] != sep {
          assert tail[k] == s[j + 1 + k];
        }
      }
    }
  }

  /** The last piece is what follows the last separator: this is what
      `s.split(sep).pop()` returns. */
  lemma SplitLast(s: string, sep: char)
    ensures var parts := Split(s, sep);
            parts[|parts| - 1] == s[LastIndexOf(s, sep) + 1..]
  {
  }

  function DigitChar(d: nat): char
    requires d < 10
  {
    "0123456789"[d]
  }

  predicate IsDigit(c: char) {
    '0' <= c <= '9'
  }

  /** Decimal rendering of a natural number, as in a template literal. */
  function Dec(n: nat): (r: string)
    ensures |r| >= 1
    ensures forall i :: 0 <= i < |r| ==> IsDigit(r[i])
  {
    if n < 10 then [DigitChar(n)] else Dec(n / 10) + [DigitChar(n % 10)]
  }

  /** `String(n)` for an integer-valued number. */
  function DecInt(n: int): (r: string)
    ensures |r| >= 1
  {
    if n < 0 then "-" + Dec(-n) else Dec(n)
  }

  function ParseDec(s: string): nat
    requires forall i :: 0 <= i < |s| ==> IsDigit(s[i])
  {
    if s == [] then 0
    else
      assert IsDigit(s[|s| - 1]);
      ParseDec(s[..|s| - 1]) * 10 + (s[|s| - 1] as int - '0' as int)
  }

  /** Reading the digits back gives the number: distinct numbers render as
      distinct texts. */
  lemma {:induction false} ParseDecDec(n: nat)
    ensures ParseDec(Dec(n)) == n
  {
    if n >= 10 {
      var s := Dec(n);
      var d := DigitChar(n % 10);
      assert s == Dec(n / 10) + [d];
      assert s[..|s| - 1] == Dec(n / 10);
      assert s[|s| - 1] as int - '0' as int == n % 10;
      ParseDecDec(n / 10);
    } else {
      assert Dec(n) == [DigitChar(n)];
    }
  }

  lemma DecInjective(a: nat, b: nat)
    requires Dec(a) == Dec(b)
    ensures a == b
  {
    ParseDecDec(a);
    ParseDecDec(b);
  }

  /** A rendered integer starts with a minus sign exactly when it is
      negative. */
  lemma DecIntSign(n: int)
    ensures DecInt(n)[0] == '-' <==> n < 0
  {
    if n >= 0 {
      assert IsDigit(Dec(n)[0]);
    }
  }

  lemma DecIntInjective(a: int, b: int)
    requires DecInt(a) == DecInt(b)
    ensures a == b
  {
    DecIntSign(a);
    DecIntSign(b);
    if a < 0 {
      assert Dec(-a) == DecInt(a)[1..] == DecInt(b)[1..] == Dec(-b);
      DecInjective(-a, -b);
    } else {
      DecInjective(a, b);
    }
  }

  /** True of a `string | null | undefined` JavaScript treats as true. */
  predicate Truthy(s: Option<string>) {
    s.Some? && s.value != ""
  }

  /** `s.length`: the number of UTF-16 code units. */
  function Utf16Length(s: string): (n: nat)
    ensures |s| <= n <= 2 * |s|
  {
    if s == [] then 0 else (if s[0] as int > 0xFFFF then 2 else 1) + Utf16Length(s[1..])
  }

  function Utf8Width(c: char): nat {
    var n := c as int;
    if n < 0x80 then 1 else if n < 0x800 then 2 else if n < 0x10000 then 3 else 4
  }

  /** The number of bytes `TextEncoder.encode(s)` produces. */
  function Utf8Length(s: string): (n: nat)
    ensures |s| <= n <= 4 * |s|
  {
    if s == [] then 0 else Utf8Width(s[0]) + Utf8Length(s[1..])
  }

  /** Index of the first row of `table` whose suffix ends `name`, or |table|
      when none does. */
  function FirstSuffixMatch(name: string, table: seq<(string, string)>): (k: nat)
    ensures k <= |table|
    ensures k < |table| ==> EndsWith(name, table[k].0)
    ensures forall j :: 0 <= j < k ==> !EndsWith(name, table[j].0)
  {
    if table == [] then 0
    else if EndsWith(name, table[0].0) then 0
    else 1 + FirstSuffixMatch(name, table[1..])
  }

  /** A chain of `if (lower.endsWith(sfx)) return value;` over the
      lower-cased name, ending in `return fallback;`. */
  function SuffixLookup(name: string, table: seq<(string, string)>, fallback: string): (r: string)
    ensures (forall j :: 0 <= j < |table| ==> !EndsWith(Lower(name), table[j].0)) ==> r == fallback
    ensures forall k :: 0 <= k < |table| && EndsWith(Lower(name), table[k].0)
                        && (forall j :: 0 <= j < k ==> !EndsWith(Lower(name), table[j].0))
                        ==> r == table[k].1
  {
    var k := FirstSuffixMatch(Lower(name), table);
    if k < |table| then table[k].1 else fallback
  }
}
