/**
 * Shared vocabulary of the EcoAgent model: optional values, the dynamic values
 * that Python dictionaries hold, clock instants, text helpers with Python's
 * semantics, rounding, the memory-decay curve and a stable sort.
 */
module Prelude {

  datatype Option<T> = None | Some(value: T)

  /** An instant on the wall clock, in seconds since an arbitrary epoch. */
  type Time = real

  /**
   * A Python value as the core stores it. A str is its text, and its `repr`
   * and `json.dumps` renderings are computed (`PyRepr`, `JsonQuote`). Any
   * other non-container value is known by its three renderings: `str(v)`,
   * `repr(v)` and `json.dumps(v)` (None when the value is not
   * JSON-serialisable). Lists and dicts are structural; a dict is its
   * entries in insertion order.
   */
  datatype Value =
    | Text(text: string)
    | Scalar(str: string, repr: string, json: Option<string>)
    | List(elems: seq<Value>)
    | Dict(entries: Fields)

  /** A Python dict in insertion order (keys are distinct when built with Put). */
  type Fields = seq<(string, Value)>

  function Keys(f: Fields): seq<string> {
    seq(|f|, i requires 0 <= i < |f| => f[i].0)
  }

  function Get(f: Fields, k: string): (r: Option<Value>)
    ensures r.Some? <==> k in Keys(f)
    ensures r.Some? ==> exists i :: 0 <= i < |f| && f[i] == (k, r.value)
  {
    if f == [] then None
    else if f[0].0 == k then assert Keys(f)[0] == k; Some(f[0].1)
    else
      var r := Get(f[1..], k);
      assert r.Some? ==> exists i :: 0 <= i < |f[1..]| && f[1..][i] == (k, r.value);
      assert k in Keys(f) <==> k == f[0].0 || k in Keys(f[1..]) by {
        assert Keys(f) == [f[0].0] + Keys(f[1..]);
      }
      r
  }

  /** `d[k] = v`: an existing key keeps its position, a new key goes last. */
  function Put(f: Fields, k: string, v: Value): (r: Fields)
    ensures Get(r, k) == Some(v)
    ensures forall j :: j != k ==> Get(r, j) == Get(f, j)
  {
    if f == [] then [(k, v)]
    else if f[0].0 == k then [(k, v)] + f[1..]
    else [f[0]] + Put(f[1..], k, v)
  }

  predicate DistinctKeys(f: Fields) {
    forall i, j :: 0 <= i < j < |f| ==> f[i].0 != f[j].0
  }

  predicate Distinct<T(==)>(s: seq<T>) {
    forall i, j :: 0 <= i < j < |s| ==> s[i] != s[j]
  }

  /** The elements of s that are not in drop, in order. */
  function Without<T(==,!new)>(s: seq<T>, drop: set<T>): (r: seq<T>)
    ensures forall x :: x in r <==> x in s && x !in drop
    ensures Distinct(s) ==> Distinct(r)
    ensures |r| <= |s|
  {
    if s == [] then []
    else if s[0] in drop then Without(s[1..], drop)
    else
      var t := Without(s[1..], drop);
      assert Distinct(s) ==> s[0] !in s[1..];
      [s[0]] + t
  }

  lemma {:induction false} DistinctCard<T>(s: seq<T>)
    requires Distinct(s)
    ensures |set x | x in s| == |s|
    decreases |s|
  {
    if s != [] {
      DistinctCard(s[1..]);
      assert (set x | x in s) == {s[0]} + (set x | x in s[1..]);
      assert s[0] !in s[1..];
    }
  }

  lemma {:induction false} DistinctCount<T>(s: seq<T>, x: T)
    requires Distinct(s)
    ensures multiset(s)[x] <= 1
    decreases |s|
  {
    if s != [] {
      DistinctCount(s[1..], x);
      assert s == [s[0]] + s[1..];
      assert s[0] !in multiset(s[1..]);
    }
  }

  /** A permutation of a sequence without repeats has no repeats. */
  lemma DistinctPermutation<T>(s: seq<T>, t: seq<T>)
    requires Distinct(s) && multiset(s) == multiset(t)
    ensures Distinct(t)
  {
    forall i, j | 0 <= i < j < |t| ensures t[i] != t[j] {
      if t[i] == t[j] {
        var x := t[i];
        assert t == t[..j] + [t[j]] + t[j + 1..];
        assert x in multiset(t[..j]) by { assert t[..j][i] == x; }
        assert multiset(t)[x] >= 2;
        DistinctCount(s, x);
      }
    }
  }

  lemma {:induction false} WithoutCard<T(!new)>(s: seq<T>, drop: set<T>)
    requires Distinct(s)
    requires forall x :: x in drop ==> x in s
    ensures |Without(s, drop)| == |s| - |drop|
    decreases |s|
  {
    if s == [] {
      assert drop == {};
    } else if s[0] in drop {
      var rest := drop - {s[0]};
      assert Without(s[1..], drop) == Without(s[1..], rest) by {
        WithoutIgnores(s[1..], drop, s[0]);
      }
      WithoutCard(s[1..], rest);
    } else {
      WithoutCard(s[1..], drop);
    }
  }

  lemma {:induction false} WithoutIgnores<T(!new)>(s: seq<T>, drop: set<T>, x: T)
    requires x !in s
    ensures Without(s, drop) == Without(s, drop - {x})
    decreases |s|
  {
    if s != [] {
      WithoutIgnores(s[1..], drop, x);
    }
  }

  /** Dropping nothing keeps everything. */
  lemma {:induction false} WithoutNothing<T(!new)>(s: seq<T>)
    ensures Without(s, {}) == s
    decreases |s|
  {
    if s != [] {
      WithoutNothing(s[1..]);
    }
  }

  /** Dropping a, then b, is dropping both. */
  lemma {:induction false} WithoutTwice<T(!new)>(s: seq<T>, a: set<T>, b: set<T>)
    ensures Without(Without(s, a), b) == Without(s, a + b)
    decreases |s|
  {
    if s != [] {
      WithoutTwice(s[1..], a, b);
    }
  }

  // ---------------------------------------------------------------------------
  // Text, with Python's str methods restricted to the ASCII range

  function LowerChar(c: char): char {
    if 'A' <= c <= 'Z' then (c as int + 32) as char else c
  }

  function UpperChar(c: char): char {
    if 'a' <= c <= 'z' then (c as int - 32) as char else c
  }

  /**
   * `s.lower()` restricted to ASCII: A-Z become a-z and every other
   * character, including the non-ASCII letters Python would also map, is kept.
   */
  function Lower(s: string): (r: string)
    ensures |r| == |s|
    ensures forall i :: 0 <= i < |s| ==> r[i] == LowerChar(s[i])
  {
    seq(|s|, i requires 0 <= i < |s| => LowerChar(s[i]))
  }

  predicate NoUpperAscii(s: string) {
    forall i :: 0 <= i < |s| ==> !('A' <= s[i] <= 'Z')
  }

  /** A string without upper-case ASCII letters is its own lower-casing. */
  lemma LowerOfLower(s: string)
    requires NoUpperAscii(s)
    ensures Lower(s) == s
  {
  }

  /** Lower-casing twice is lower-casing once. */
  lemma LowerIdempotent(s: string)
    ensures NoUpperAscii(Lower(s))
    ensures Lower(Lower(s)) == Lower(s)
  {
    LowerOfLower(Lower(s));
  }

  /**
   * `s.upper()` restricted to ASCII: a-z become A-Z and every other
   * character is kept, so the string keeps its length (Python's own
   * upper-casing can change it: 'ß' becomes "SS").
   */
  function Upper(s: string): (r: string)
    ensures |r| == |s|
    ensures forall i :: 0 <= i < |s| ==> r[i] == UpperChar(s[i])
  {
    seq(|s|, i requires 0 <= i < |s| => UpperChar(s[i]))
  }

  /**
   * Under the ASCII mapping, upper-casing first does not change the
   * lower-cased result. Python's full mapping does not keep this for every
   * string ('ı' upper-cases to 'I', which lower-cases to 'i').
   */
  lemma UpperLower(s: string)
    ensures Lower(Upper(s)) == Lower(s)
  {
  }

  /**
   * The ASCII characters `str.split()` separates words on; the non-ASCII
   * whitespace it also splits on (U+0085, U+00A0, U+2000 and the like) is not included.
   */
  predicate IsSpace(c: char) {
    c == ' ' || c == '\t' || c == '\n' || c == '\r' || c == '\U{B}' || c == '\U{C}'
    || c == '\U{1C}' || c == '\U{1D}' || c == '\U{1E}' || c == '\U{1F}'
  }

  /** The words of `s` after `cur`, the word being read: `str.split()`. */
  function SplitFrom(s: string, cur: string): (r: seq<string>)
    ensures forall w :: w in r ==> w != [] && forall i :: 0 <= i < |w| ==> !IsSpace(w[i])
    requires forall i :: 0 <= i < |cur| ==> !IsSpace(cur[i])
    decreases |s|
  {
    if s == [] then (if cur == [] then [] else [cur])
    else if IsSpace(s[0]) then (if cur == [] then [] else [cur]) + SplitFrom(s[1..], [])
    else SplitFrom(s[1..], cur + [s[0]])
  }

  /** `set(s.split())` */
  function Words(s: string): set<string> {
    set w | w in SplitFrom(s, [])
  }

  /** A string with no non-space character has no words. */
  lemma {:induction false} BlankHasNoWords(s: string, cur: string)
    requires forall i :: 0 <= i < |s| ==> IsSpace(s[i])
    requires cur == []
    ensures SplitFrom(s, cur) == []
    decreases |s|
  {
    if s != [] {
      BlankHasNoWords(s[1..], []);
    }
  }

  /** `needle in hay` for strings. */
  predicate Contains(hay: string, needle: string)
    decreases |hay|
  {
    needle <= hay || (hay != [] && Contains(hay[1..], needle))
  }

  lemma {:induction false} ContainsAt(hay: string, needle: string, i: nat)
    requires i + |needle| <= |hay| && hay[i..i + |needle|] == needle
    ensures Contains(hay, needle)
    decreases i
  {
    if i > 0 {
      assert hay[1..][i - 1..i - 1 + |needle|] == needle;
      ContainsAt(hay[1..], needle, i - 1);
    }
  }

  /** `min(a, b)` */
  function Min(a: int, b: int): int {
    if a < b then a else b
  }

  /** `s[:n]` */
  function Take<T>(s: seq<T>, n: nat): (r: seq<T>)
    ensures |r| == if n < |s| then n else |s|
    ensures r <= s
  {
    if n < |s| then s[..n] else s
  }

  /** `s[-n:]` for n > 0, and all of s when n >= |s|. */
  function TakeLast<T>(s: seq<T>, n: nat): (r: seq<T>)
    ensures |r| == if n < |s| then n else |s|
    ensures forall i :: 0 <= i < |r| ==> r[i] == s[|s| - |r| + i]
  {
    if n < |s| then s[|s| - n..] else s
  }

  /** `a` is a suffix of `b`. */
  predicate IsSuffix<T(==)>(a: seq<T>, b: seq<T>) {
    |a| <= |b| && a == b[|b| - |a|..]
  }

  /**
   * Python's `s[-n:]` for any integer n: the last n elements when n > 0,
   * all of s when n == 0 (since -0 is 0), and s without its first -n
   * elements when n < 0.
   */
  function SliceFromEnd<T(==)>(s: seq<T>, n: int): (r: seq<T>)
    ensures IsSuffix(r, s)
    ensures n > 0 ==> |r| == if n < |s| then n else |s|
    ensures n <= 0 ==> |r| == if -n < |s| then |s| + n else 0
  {
    if n > 0 then TakeLast(s, n) else if -n < |s| then s[-n..] else []
  }

  function Join(sep: string, parts: seq<string>): string
    decreases |parts|
  {
    if parts == [] then ""
    else if |parts| == 1 then parts[0]
    else parts[0] + sep + Join(sep, parts[1..])
  }

  /** `str(n)` for a natural number: its decimal digits. */
  function NatToString(n: nat): (r: string)
    ensures 1 <= |r|
    ensures forall i :: 0 <= i < |r| ==> '0' <= r[i] <= '9'
    decreases n
  {
    var digit := "0123456789"[n % 10];
    if n < 10 then [digit] else NatToString(n / 10) + [digit]
  }

  // ---------------------------------------------------------------------------
  // Python string literals: `repr(s)` and `json.dumps(s)`

  function Pow16(w: nat): (r: nat)
    ensures r >= 1
  {
    if w == 0 then 1 else 16 * Pow16(w - 1)
  }

  /** The lower-case hexadecimal digit of n. */
  function HexDigit(n: nat): (r: char)
    requires n < 16
  {
    if n < 10 then ('0' as int + n) as char else ('a' as int + n - 10) as char
  }

  /** The value of a lower-case hexadecimal digit, None for any other character. */
  function HexValue(c: char): (r: Option<nat>)
    ensures r.Some? ==> r.value < 16
    ensures forall n :: 0 <= n < 16 && c == HexDigit(n) ==> r == Some(n)
  {
    if '0' <= c <= '9' then Some(c as int - '0' as int)
    else if 'a' <= c <= 'f' then Some(c as int - 'a' as int + 10)
    else None
  }

  /** n written with exactly w lower-case hexadecimal digits, as `%0wx` does. */
  function Hex(n: nat, w: nat): (r: string)
    requires n < Pow16(w)
    ensures |r| == w
    ensures forall i :: 0 <= i < |r| ==> HexValue(r[i]).Some?
  {
    if w == 0 then [] else Hex(n / 16, w - 1) + [HexDigit(n % 16)]
  }

  /** Reads a run of hexadecimal digits back as a number. */
  function HexNumber(s: string): (r: Option<nat>)
    ensures r.Some? ==> r.value < Pow16(|s|)
  {
    if s == [] then Some(0)
    else
      var high := HexNumber(s[..|s| - 1]);
      var low := HexValue(s[|s| - 1]);
      if high.Some? && low.Some? then Some(16 * high.value + low.value) else None
  }

  lemma {:induction false} HexRoundTrip(n: nat, w: nat)
    requires n < Pow16(w)
    ensures HexNumber(Hex(n, w)) == Some(n)
  {
    if w > 0 {
      var r := Hex(n, w);
      assert r[..|r| - 1] == Hex(n / 16, w - 1);
      HexRoundTrip(n / 16, w - 1);
    }
  }

  function Prepend(c: char, rest: Option<string>): Option<string> {
    if rest.Some? then Some([c] + rest.value) else None
  }

  /** A character below U+0100 that `str.isprintable()` rejects, so `repr` writes it as `\xhh`. */
  predicate HexEscaped(c: char) {
    c as int < 0x20 || (0x7f <= c as int <= 0xa0) || c as int == 0xad
  }

  /** How `repr` writes one character inside a literal quoted with q. */
  function ReprChar(c: char, q: char): (r: string)
    ensures 1 <= |r| <= 4
  {
    if c == '\\' then "\\\\"
    else if c == q then ['\\', q]
    else if c == '\t' then "\\t"
    else if c == '\n' then "\\n"
    else if c == '\r' then "\\r"
    else if HexEscaped(c) then "\\x" + Hex(c as int, 2)
    else [c]
  }

  function ReprBody(s: string, q: char): (r: string)
    ensures |s| <= |r| <= 4 * |s|
  {
    if s == [] then [] else ReprChar(s[0], q) + ReprBody(s[1..], q)
  }

  /** `repr(s)` picks double quotes only when the text holds a ' and no ". */
  function ReprQuote(s: string): char {
    if '\'' in s && '"' !in s then '"' else '\''
  }

  /**
   * `repr(s)` for a str: quoted, with backslashes, the chosen quote, tab,
   * newline, carriage return and the unprintable Latin-1 characters escaped.
   */
  function PyRepr(s: string): (r: string)
    ensures |r| >= |s| + 2
    ensures r[0] == r[|r| - 1] == ReprQuote(s)
    ensures ReprQuote(s) == '"' <==> '\'' in s && '"' !in s
  {
    var q := ReprQuote(s);
    [q] + ReprBody(s, q) + [q]
  }

  /** Printable ASCII text without a quote or backslash is rendered verbatim in single quotes. */
  lemma ReprOfPlain(s: string)
    requires forall i :: 0 <= i < |s| ==> s[i] != '\'' && s[i] != '\\' && ' ' <= s[i] <= '~'
    ensures PyRepr(s) == "'" + s + "'"
  {
    ReprBodyPlain(s);
  }

  lemma {:induction false} ReprBodyPlain(s: string)
    requires forall i :: 0 <= i < |s| ==> s[i] != '\'' && s[i] != '\\' && ' ' <= s[i] <= '~'
    ensures ReprBody(s, '\'') == s
  {
    if s != [] {
      ReprBodyPlain(s[1..]);
    }
  }

  /** Reads a literal's body back up to its closing quote q, which must end the text. */
  function UnescapeRepr(r: string, q: char): Option<string>
    decreases |r|
  {
    if r == [] then None
    else if r[0] == q then (if |r| == 1 then Some([]) else None)
    else if r[0] != '\\' then Prepend(r[0], UnescapeRepr(r[1..], q))
    else if |r| < 2 then None
    else if r[1] == '\\' || r[1] == q then Prepend(r[1], UnescapeRepr(r[2..], q))
    else if r[1] == 't' then Prepend('\t', UnescapeRepr(r[2..], q))
    else if r[1] == 'n' then Prepend('\n', UnescapeRepr(r[2..], q))
    else if r[1] == 'r' then Prepend('\r', UnescapeRepr(r[2..], q))
    else if r[1] == 'x' && |r| >= 4 && HexNumber(r[2..4]).Some? then
      Prepend(HexNumber(r[2..4]).value as char, UnescapeRepr(r[4..], q))
    else None
  }

  /** Python's reading of a quoted str literal. */
  function ParseRepr(r: string): Option<string> {
    if |r| >= 2 && (r[0] == '\'' || r[0] == '"') then UnescapeRepr(r[1..], r[0]) else None
  }

  lemma ReprCharRoundTrip(c: char, q: char, rest: string)
    requires q == '\'' || q == '"'
    ensures UnescapeRepr(ReprChar(c, q) + rest, q) == Prepend(c, UnescapeRepr(rest, q))
  {
    if c == '\\' || c == q || c == '\t' || c == '\n' || c == '\r' {
      var e := ReprChar(c, q) + rest;
      assert |ReprChar(c, q)| == 2 && e[0] == '\\' && e[2..] == rest;
    } else if HexEscaped(c) {
      ReprHexRoundTrip(c, q, rest);
    } else {
      assert (ReprChar(c, q) + rest)[1..] == rest;
    }
  }

  lemma ReprHexRoundTrip(c: char, q: char, rest: string)
    requires q == '\'' || q == '"'
    requires c as int < 0x100
    ensures UnescapeRepr("\\x" + Hex(c as int, 2) + rest, q) == Prepend(c, UnescapeRepr(rest, q))
  {
    var e := "\\x" + Hex(c as int, 2) + rest;
    assert e[2..4] == Hex(c as int, 2);
    HexRoundTrip(c as int, 2);
    assert e[4..] == rest;
  }

  lemma {:induction false} ReprBodyRoundTrip(s: string, q: char)
    requires q == '\'' || q == '"'
    ensures UnescapeRepr(ReprBody(s, q) + [q], q) == Some(s)
  {
    if s != [] {
      ReprBodyRoundTrip(s[1..], q);
      assert ReprBody(s, q) + [q] == ReprChar(s[0], q) + (ReprBody(s[1..], q) + [q]);
      ReprCharRoundTrip(s[0], q, ReprBody(s[1..], q) + [q]);
      assert [s[0]] + s[1..] == s;
    }
  }

  /** Reading `repr(s)` back gives s: no two strings share a rendering. */
  lemma ReprRoundTrip(s: string)
    ensures ParseRepr(PyRepr(s)) == Some(s)
  {
    var q := ReprQuote(s);
    assert PyRepr(s)[1..] == ReprBody(s, q) + [q];
    ReprBodyRoundTrip(s, q);
  }

  /** How `json.dumps` (with its default `ensure_ascii=True`) writes one character. */
  function JsonChar(c: char): (r: string)
    ensures forall i :: 0 <= i < |r| ==> ' ' <= r[i] <= '~'
  {
    if c == '"' then "\\\""
    else if c == '\\' then "\\\\"
    else if c == '\n' then "\\n"
    else if c == '\r' then "\\r"
    else if c == '\t' then "\\t"
    else if c == '\U{0008}' then "\\b"
    else if c == '\U{000C}' then "\\f"
    else if ' ' <= c <= '~' then [c]
    else if c as int < 0x10000 then "\\u" + Hex(c as int, 4)
    else
      var n := c as int - 0x10000;
      "\\u" + Hex(0xd800 + n / 0x400, 4) + "\\u" + Hex(0xdc00 + n % 0x400, 4)
  }

  function JsonBody(s: string): (r: string)
    ensures |s| <= |r|
    ensures forall i :: 0 <= i < |r| ==> ' ' <= r[i] <= '~'
  {
    if s == [] then [] else JsonChar(s[0]) + JsonBody(s[1..])
  }

  /**
   * `json.dumps(s)` for a str: double-quoted, with `"`, backslash and the
   * control characters escaped and every non-ASCII character written as
   * `\uhhhh` (a surrogate pair above U+FFFF), so the result is printable ASCII.
   */
  function JsonQuote(s: string): (r: string)
    ensures |r| >= |s| + 2
    ensures r[0] == r[|r| - 1] == '"'
    ensures forall i :: 0 <= i < |r| ==> ' ' <= r[i] <= '~'
  {
    "\"" + JsonBody(s) + "\""
  }

  /** Printable ASCII text without `"` or a backslash is rendered verbatim in double quotes. */
  lemma JsonOfPlain(s: string)
    requires forall i :: 0 <= i < |s| ==> s[i] != '"' && s[i] != '\\' && ' ' <= s[i] <= '~'
    ensures JsonQuote(s) == "\"" + s + "\""
  {
    JsonBodyPlain(s);
  }

  lemma {:induction false} JsonBodyPlain(s: string)
    requires forall i :: 0 <= i < |s| ==> s[i] != '"' && s[i] != '\\' && ' ' <= s[i] <= '~'
    ensures JsonBody(s) == s
  {
    if s != [] {
      JsonBodyPlain(s[1..]);
    }
  }

  /** Reads a JSON string's body back up to its closing quote, which must end the text. */
  function UnescapeJson(r: string): Option<string>
    decreases |r|
  {
    if r == [] then None
    else if r[0] == '"' then (if |r| == 1 then Some([]) else None)
    else if r[0] != '\\' then Prepend(r[0], UnescapeJson(r[1..]))
    else if |r| < 2 then None
    else if r[1] == '"' || r[1] == '\\' || r[1] == '/' then Prepend(r[1], UnescapeJson(r[2..]))
    else if r[1] == 'n' then Prepend('\n', UnescapeJson(r[2..]))
    else if r[1] == 'r' then Prepend('\r', UnescapeJson(r[2..]))
    else if r[1] == 't' then Prepend('\t', UnescapeJson(r[2..]))
    else if r[1] == 'b' then Prepend('\U{0008}', UnescapeJson(r[2..]))
    else if r[1] == 'f' then Prepend('\U{000C}', UnescapeJson(r[2..]))
    else if r[1] != 'u' || |r| < 6 || HexNumber(r[2..6]).None? then None
    else
      var v := HexNumber(r[2..6]).value;
      assert Pow16(4) == 0x10000;
      if v < 0xd800 || 0xe000 <= v then Prepend(v as char, UnescapeJson(r[6..]))
      else if v < 0xdc00 && |r| >= 12 && r[6] == '\\' && r[7] == 'u' && HexNumber(r[8..12]).Some?
              && 0xdc00 <= HexNumber(r[8..12]).value < 0xe000 then
        var w := HexNumber(r[8..12]).value;
        Prepend((0x10000 + (v - 0xd800) * 0x400 + (w - 0xdc00)) as char, UnescapeJson(r[12..]))
      else None
  }

  /** A JSON reader's view of a string literal. */
  function ParseJsonString(r: string): Option<string> {
    if |r| >= 2 && r[0] == '"' then UnescapeJson(r[1..]) else None
  }

  lemma JsonCharRoundTrip(c: char, rest: string)
    ensures UnescapeJson(JsonChar(c) + rest) == Prepend(c, UnescapeJson(rest))
  {
    if c == '"' || c == '\\' || c == '\n' || c == '\r' || c == '\t' || c == '\U{0008}' || c == '\U{000C}' {
      JsonShortRoundTrip(c, rest);
    } else if ' ' <= c <= '~' {
      assert (JsonChar(c) + rest)[1..] == rest;
    } else if c as int < 0x10000 {
      JsonUnitRoundTrip(c, rest);
    } else {
      JsonPairRoundTrip(c, rest);
    }
  }

  lemma JsonShortRoundTrip(c: char, rest: string)
    requires c == '"' || c == '\\' || c == '\n' || c == '\r' || c == '\t' || c == '\U{0008}' || c == '\U{000C}'
    ensures UnescapeJson(JsonChar(c) + rest) == Prepend(c, UnescapeJson(rest))
  {
    var e := JsonChar(c) + rest;
    assert |JsonChar(c)| == 2 && e[0] == '\\' && e[2..] == rest;
  }

  lemma JsonUnitRoundTrip(c: char, rest: string)
    requires c as int < 0x10000
    ensures UnescapeJson("\\u" + Hex(c as int, 4) + rest) == Prepend(c, UnescapeJson(rest))
  {
    var e := "\\u" + Hex(c as int, 4) + rest;
    assert Pow16(4) == 0x10000;
    assert e[2..6] == Hex(c as int, 4);
    HexRoundTrip(c as int, 4);
    assert e[6..] == rest;
  }

  lemma JsonPairRoundTrip(c: char, rest: string)
    requires c as int >= 0x10000
    ensures var n := c as int - 0x10000;
      UnescapeJson("\\u" + Hex(0xd800 + n / 0x400, 4) + "\\u" + Hex(0xdc00 + n % 0x400, 4) + rest)
      == Prepend(c, UnescapeJson(rest))
  {
    var n := c as int - 0x10000;
    assert Pow16(4) == 0x10000;
    var e := "\\u" + Hex(0xd800 + n / 0x400, 4) + "\\u" + Hex(0xdc00 + n % 0x400, 4) + rest;
    assert e[2..6] == Hex(0xd800 + n / 0x400, 4);
    HexRoundTrip(0xd800 + n / 0x400, 4);
    assert e[8..12] == Hex(0xdc00 + n % 0x400, 4);
    HexRoundTrip(0xdc00 + n % 0x400, 4);
    assert e[12..] == rest;
  }

  lemma {:induction false} JsonBodyRoundTrip(s: string)
    ensures UnescapeJson(JsonBody(s) + "\"") == Some(s)
  {
    if s != [] {
      JsonBodyRoundTrip(s[1..]);
      assert JsonBody(s) + "\"" == JsonChar(s[0]) + (JsonBody(s[1..]) + "\"");
      JsonCharRoundTrip(s[0], JsonBody(s[1..]) + "\"");
      assert [s[0]] + s[1..] == s;
    }
  }

  /** A JSON reader gets s back from `json.dumps(s)`. */
  lemma JsonRoundTrip(s: string)
    ensures ParseJsonString(JsonQuote(s)) == Some(s)
  {
    assert JsonQuote(s)[1..] == JsonBody(s) + "\"";
    JsonBodyRoundTrip(s);
  }

  // ---------------------------------------------------------------------------
  // Numbers

  function MinReal(a: real, b: real): real { if a <= b then a else b }
  function MaxReal(a: real, b: real): real { if a >= b then a else b }

  /** `int(x)`: truncation toward zero. */
  function Trunc(x: real): (r: int)
    ensures x >= 0.0 ==> r == x.Floor
    ensures x < 0.0 ==> r <= 0
  {
    if x >= 0.0 then x.Floor else -((-x).Floor)
  }

  function Pow10(d: nat): (r: real)
    ensures r >= 1.0
  {
    if d == 0 then 1.0 else 10.0 * Pow10(d - 1)
  }

  /** `math.floor(y)` */
  function FloorOf(y: real): (r: int)
    ensures r as real <= y < r as real + 1.0
  {
    y.Floor
  }

  /** Round x to the nearest multiple of 1/p, ties up. */
  function RoundAt(x: real, p: real): real
    requires p > 0.0
  {
    FloorOf(x * p + 0.5) as real / p
  }

  lemma RoundAtDef(x: real, p: real)
    requires p > 0.0
    ensures RoundAt(x, p) == FloorOf(x * p + 0.5) as real / p
  {
  }

  /** `round(x, d)`, with ties rounded up. */
  function Round(x: real, d: nat): real {
    RoundAt(x, Pow10(d))
  }

  lemma RoundZero(d: nat)
    ensures Round(0.0, d) == 0.0
  {
  }

  /** Rounding keeps a non-negative number non-negative. */
  lemma RoundNonNegative(x: real, d: nat)
    requires x >= 0.0
    ensures Round(x, d) >= 0.0
  {
    var p := Pow10(d);
    ScaleMono(p, 0.0, x);
    RoundAtDef(x, p);
  }

  /** `m / p` grows with m for a positive divisor. */
  lemma DivMono(m: real, n: real, p: real)
    requires p > 0.0 && m <= n
    ensures m / p <= n / p
  {
    assert n / p - m / p == (n - m) / p;
  }

  /** Rounding is monotone. */
  lemma RoundMono(x: real, y: real, d: nat)
    requires x <= y
    ensures Round(x, d) <= Round(y, d)
  {
    var p := Pow10(d);
    ScaleMono(p, x, y);
    var m, n := FloorOf(x * p + 0.5), FloorOf(y * p + 0.5);
    assert m <= n;
    DivMono(m as real, n as real, p);
    RoundAtDef(x, p);
    RoundAtDef(y, p);
  }

  /** Rounding a rounded number again changes nothing. */
  lemma RoundIdempotent(x: real, d: nat)
    ensures Round(Round(x, d), d) == Round(x, d)
  {
    var p := Pow10(d);
    var n := FloorOf(x * p + 0.5);
    var r := RoundAt(x, p);
    RoundAtDef(x, p);
    assert r * p == n as real;
    assert FloorOf(r * p + 0.5) == n;
    RoundAtDef(r, p);
  }

  /**
   * `0.977 ** n` for whole n. The decay of a memory is 2.3% per day.
   */
  function Pow977(n: nat): (r: real)
    ensures 0.0 < r <= 1.0
  {
    if n == 0 then 1.0 else 0.977 * Pow977(n - 1)
  }

  lemma {:induction false} Pow977Antitone(m: nat, n: nat)
    requires m <= n
    ensures Pow977(n) <= Pow977(m)
    decreases n - m
  {
    if m < n {
      Pow977Antitone(m, n - 1);
    }
  }

  /**
   * `0.977 ** age` for age >= 0: exact at whole days, linear in between
   * (within 1e-4, relatively, of the exponential).
   */
  function DecayCurve(age: real): (r: real)
    requires age >= 0.0
    ensures 0.0 < r <= 1.0
  {
    var p, q := Pow977(age.Floor), DayFraction(age);
    UnitProduct(p, q);
    p * q
  }

  /** The linear interpolation factor within a day: from 1 at the day's start towards 0.977. */
  function DayFraction(age: real): (r: real)
    requires age >= 0.0
    ensures 0.977 < r <= 1.0
  {
    1.0 - 0.023 * (age - age.Floor as real)
  }

  lemma UnitProduct(p: real, q: real)
    requires 0.0 < p <= 1.0 && 0.0 < q <= 1.0
    ensures 0.0 < p * q <= p
  {
    assert p * q <= p * 1.0;
  }

  lemma ScaleMono(p: real, x: real, y: real)
    requires p >= 0.0 && x <= y
    ensures p * x <= p * y
  {
    assert p * y - p * x == p * (y - x);
  }

  /** A share of a positive whole lies in [0, 1] and is positive exactly when the part is. */
  lemma UnitFraction(x: real, d: real)
    requires 0.0 <= x <= d && d > 0.0
    ensures 0.0 <= x / d <= 1.0
    ensures x / d > 0.0 <==> x > 0.0
  {
    var q := x / d;
    assert q * d == x;
    if q > 1.0 {
      ScaleMono(d, 1.0, q);
    }
    if q < 0.0 {
      ScaleMono(d, q, 0.0);
    }
  }

  /** Transitivity over terms the arithmetic solver treats as nonlinear. */
  lemma Chain(a: real, b: real, c: real, d: real)
    requires a <= b <= c <= d
    ensures a <= d
  {
  }

  lemma CombineDecay(pm: real, pn: real, qa: real, qb: real)
    requires 0.0 < pm <= 1.0 && 0.0 < pn <= 0.977 * pm && 0.0 < qb <= 1.0 && 0.977 <= qa
    ensures pn * qb <= pm * qa
  {
    UnitProduct(pn, qb);
    ScaleMono(pm, 0.977, qa);
    Chain(pn * qb, pn, pm * 0.977, pm * qa);
  }

  lemma DecayCurveAntitone(a: real, b: real)
    requires 0.0 <= a <= b
    ensures DecayCurve(b) <= DecayCurve(a)
  {
    if a.Floor == b.Floor {
      SameDayDecay(a, b);
    } else {
      LaterDayDecay(a, b);
    }
  }

  lemma SameDayDecay(a: real, b: real)
    requires 0.0 <= a <= b && a.Floor == b.Floor
    ensures DecayCurve(b) <= DecayCurve(a)
  {
    var p := Pow977(a.Floor);
    assert DayFraction(b) <= DayFraction(a);
    ScaleMono(p, DayFraction(b), DayFraction(a));
    assert DecayCurve(b) == p * DayFraction(b);
    Chain(DecayCurve(b), p * DayFraction(b), p * DayFraction(a), DecayCurve(a));
  }

  lemma LaterDayDecay(a: real, b: real)
    requires 0.0 <= a <= b && a.Floor < b.Floor
    ensures DecayCurve(b) <= DecayCurve(a)
  {
    Pow977Antitone(a.Floor + 1, b.Floor);
    assert Pow977(a.Floor + 1) == 0.977 * Pow977(a.Floor);
    CombineDecay(Pow977(a.Floor), Pow977(b.Floor), DayFraction(a), DayFraction(b));
  }

  /** `0.977 ** age` for any age; a negative age (a future instant) grows. */
  function Decay977(age: real): (r: real)
    ensures r > 0.0
    ensures age >= 0.0 ==> r <= 1.0
  {
    if age >= 0.0 then DecayCurve(age) else 1.0 / DecayCurve(-age)
  }

  // ---------------------------------------------------------------------------
  // Sorting: Python's stable `list.sort(key=..., reverse=True)`

  /** A sort key: compared by primary, then secondary. */
  datatype Rank = Rank(primary: real, secondary: real)

  predicate RankGe(a: Rank, b: Rank) {
    a.primary > b.primary || (a.primary == b.primary && a.secondary >= b.secondary)
  }

  predicate SortedDesc<T>(s: seq<T>, key: T -> Rank) {
    forall i, j :: 0 <= i < j < |s| ==> RankGe(key(s[i]), key(s[j]))
  }

  /** Insert x after every element whose key is at least x's (keeps stability). */
  function InsertDesc<T>(x: T, s: seq<T>, key: T -> Rank): (r: seq<T>)
    ensures multiset(r) == multiset(s) + multiset{x}
    ensures |r| == |s| + 1
    decreases |s|
  {
    if s == [] then [x]
    else if RankGe(key(s[0]), key(x)) then
      var t := s[1..];
      assert s == [s[0]] + t;
      [s[0]] + InsertDesc(x, t, key)
    else [x] + s
  }

  lemma {:induction false} InsertDescSorted<T>(x: T, s: seq<T>, key: T -> Rank)
    requires SortedDesc(s, key)
    ensures SortedDesc(InsertDesc(x, s, key), key)
    decreases |s|
  {
    if s != [] && RankGe(key(s[0]), key(x)) {
      InsertDescSorted(x, s[1..], key);
      var r := InsertDesc(x, s, key);
      var t := InsertDesc(x, s[1..], key);
      assert r == [s[0]] + t;
      forall j | 0 < j < |r| ensures RankGe(key(r[0]), key(r[j])) {
        assert r[j] in multiset(t);
        assert r[j] in multiset(s[1..]) || r[j] == x;
        if r[j] != x {
          var k :| 0 <= k < |s[1..]| && s[1..][k] == r[j];
          assert s[k + 1] == r[j];
        }
      }
    } else if s != [] {
      var r := InsertDesc(x, s, key);
      assert r == [x] + s;
      forall i, j | 0 <= i < j < |r| ensures RankGe(key(r[i]), key(r[j])) {
        if i == 0 {
          assert RankGe(key(s[0]), key(s[j - 1]));
        } else {
          assert RankGe(key(s[i - 1]), key(s[j - 1]));
        }
      }
    }
  }

  /** `sorted(s, key=key, reverse=True)` */
  function SortDesc<T>(s: seq<T>, key: T -> Rank): (r: seq<T>)
    ensures multiset(r) == multiset(s)
    ensures |r| == |s|
    decreases |s|
  {
    if s == [] then []
    else
      var init := s[..|s| - 1];
      assert s == init + [s[|s| - 1]];
      InsertDesc(s[|s| - 1], SortDesc(init, key), key)
  }

  lemma SortDescSameElements<T>(s: seq<T>, key: T -> Rank)
    ensures forall x :: x in SortDesc(s, key) <==> x in s
  {
    var r := SortDesc(s, key);
    forall x ensures x in r <==> x in s {
      assert x in r <==> x in multiset(r);
      assert x in s <==> x in multiset(s);
    }
  }

  lemma {:induction false} SortDescSorted<T>(s: seq<T>, key: T -> Rank)
    ensures SortedDesc(SortDesc(s, key), key)
    decreases |s|
  {
    if s != [] {
      SortDescSorted(s[..|s| - 1], key);
      InsertDescSorted(s[|s| - 1], SortDesc(s[..|s| - 1], key), key);
    }
  }

  /** A prefix of a descending sequence ranks at least as high as everything after it. */
  lemma PrefixIsTop<T>(sorted: seq<T>, key: T -> Rank, n: nat)
    requires SortedDesc(sorted, key)
    ensures SortedDesc(Take(sorted, n), key)
    ensures forall x :: x in sorted && x !in Take(sorted, n) ==>
              forall i :: 0 <= i < |Take(sorted, n)| ==> RankGe(key(Take(sorted, n)[i]), key(x))
  {
    var r := Take(sorted, n);
    assert forall i :: 0 <= i < |r| ==> r[i] == sorted[i];
    forall x | x in sorted && x !in r
      ensures forall i :: 0 <= i < |r| ==> RankGe(key(r[i]), key(x))
    {
      var j :| 0 <= j < |sorted| && sorted[j] == x;
      assert j >= |r|;
    }
  }

  /** A prefix holds part of the sequence's elements, and all of them when it is the whole. */
  lemma PrefixElements<T>(s: seq<T>, n: nat)
    ensures multiset(Take(s, n)) <= multiset(s)
    ensures |s| <= n ==> multiset(Take(s, n)) == multiset(s)
  {
    var r := Take(s, n);
    assert s == r + s[|r|..];
    assert multiset(s) == multiset(r) + multiset(s[|r|..]);
  }

  /**
   * `sorted(s, key=key, reverse=True)[:n]`: the top n elements of s, best
   * first. Nothing left out ranks above anything kept, and when s has at
   * most n elements all of them are kept.
   */
  function TopN<T>(s: seq<T>, key: T -> Rank, n: nat): (r: seq<T>)
    ensures SortedDesc(r, key)
    ensures |r| == Min(|s|, n)
    ensures forall i :: 0 <= i < |r| ==> r[i] in s
    ensures multiset(r) <= multiset(s)
    ensures |s| <= n ==> multiset(r) == multiset(s)
    ensures forall x :: x in s && x !in r ==> forall i :: 0 <= i < |r| ==> RankGe(key(r[i]), key(x))
  {
    var sorted := SortDesc(s, key);
    SortDescSorted(s, key);
    SortDescSameElements(s, key);
    PrefixIsTop(sorted, key, n);
    PrefixElements(sorted, n);
    var r := Take(sorted, n);
    assert forall i :: 0 <= i < |r| ==> r[i] in sorted;
    r
  }

  /** A subset is no larger than its superset. */
  lemma SubsetCard<T>(a: set<T>, b: set<T>)
    requires a <= b
    ensures |a| <= |b|
  {
    assert b == a + (b - a);
    assert a * (b - a) == {};
  }

  /** The ADK tool context a tool is called with; an attribute is None when the context lacks it. */
  datatype ToolContext = ToolContext(userId: Option<string>, sessionId: Option<string>)

  /** The context's user id, or "unknown" when there is no context or it has no user id. */
  function UserOf(context: Option<ToolContext>): (r: string)
    ensures context.None? || context.value.userId.None? ==> r == "unknown"
    ensures context.Some? && context.value.userId.Some? ==> r == context.value.userId.value
  {
    if context.Some? && context.value.userId.Some? then context.value.userId.value else "unknown"
  }
}
