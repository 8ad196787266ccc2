/** Values and string helpers shared by every part of the migration tool. */
module Common {

  /** A JSON field or a client answer that may be missing. */
  datatype Option<T> = None | Some(value: T) {
    /** `d.get(key, default)`: the value when present, the default otherwise. */
    function GetOr(default: T): T {
      if Some? then value else default
    }
  }

  newtype byte = x: int | 0 <= x < 256
  type Bytes = seq<byte>
  type Id = string

  /** Python truthiness of an optional string: present and non-empty. */
  predicate Truthy(s: Option<string>) {
    s.Some? && s.value != ""
  }

  /** The characters removed by an argument-less `str.strip()` (ASCII subset). */
  const Whitespace: set<char> := {' ', '\t', '\n', '\r', '\U{B}', '\U{C}'}

  function TrimLeft(s: string, cs: set<char>): (r: string)
    ensures |r| <= |s| && r == s[|s| - |r|..]
    ensures r != [] ==> r[0] !in cs
    ensures forall i :: 0 <= i < |s| - |r| ==> s[i] in cs
  {
    if s != [] && s[0] in cs then
      var r := TrimLeft(s[1..], cs);
      assert s[1..][|s| - 1 - |r|..] == s[|s| - |r|..];
      assert forall i :: 1 <= i < |s| - |r| ==> s[i] == s[1..][i - 1];
      r
    else s
  }

  function TrimRight(s: string, cs: set<char>): (r: string)
    ensures |r| <= |s| && r == s[..|r|]
    ensures r != [] ==> r[|r| - 1] !in cs
    ensures forall i :: |r| <= i < |s| ==> s[i] in cs
  {
    if s != [] && s[|s| - 1] in cs then
      var r := TrimRight(s[..|s| - 1], cs);
      assert s[..|s| - 1][..|r|] == s[..|r|];
      r
    else s
  }

  /** Python's `s.strip(chars)`: drop every leading and trailing character of
      `cs`. The result is the infix of the input left between a run of `cs`
      characters at the front and one at the back. */
  function Strip(s: string, cs: set<char>): (r: string)
    ensures |r| <= |s|
    ensures r != [] ==> r[0] !in cs && r[|r| - 1] !in cs
    ensures (s == [] || (s[0] !in cs && s[|s| - 1] !in cs)) ==> r == s
    ensures var k := |s| - |TrimLeft(s, cs)|;
      && k + |r| <= |s| && (forall j :: 0 <= j < |r| ==> r[j] == s[k + j])
      && (forall i :: 0 <= i < k ==> s[i] in cs)
      && (forall i :: k + |r| <= i < |s| ==> s[i] in cs)
  {
    TrimmedEnds(s, cs);
    TrimmedInfix(s, cs);
    TrimRight(TrimLeft(s, cs), cs)
  }

  lemma TrimmedEnds(s: string, cs: set<char>)
    ensures var r := TrimRight(TrimLeft(s, cs), cs);
      && (r != [] ==> r[0] !in cs)
      && ((s == [] || (s[0] !in cs && s[|s| - 1] !in cs)) ==> r == s)
  {
    var left := TrimLeft(s, cs);
    var r := TrimRight(left, cs);
    if r != [] {
      assert r[0] == left[0];
    }
    if s != [] && s[0] !in cs && s[|s| - 1] !in cs {
      assert left == s;
    }
  }

  lemma TrimmedInfix(s: string, cs: set<char>)
    ensures var left := TrimLeft(s, cs);
      var k := |s| - |left|;
      var r := TrimRight(left, cs);
      && k + |r| <= |s| && (forall j :: 0 <= j < |r| ==> r[j] == s[k + j])
      && (forall i :: k + |r| <= i < |s| ==> s[i] in cs)
  {
    var left := TrimLeft(s, cs);
    PrefixOfSuffix(s, left, TrimRight(left, cs), cs);
  }

  /** A prefix `r` of a suffix `left` of `s` sits in `s` at the suffix's start. */
  lemma PrefixOfSuffix(s: string, left: string, r: string, cs: set<char>)
    requires |left| <= |s| && left == s[|s| - |left|..]
    requires |r| <= |left| && r == left[..|r|]
    requires forall i :: |r| <= i < |left| ==> left[i] in cs
    ensures var k := |s| - |left|;
      && (forall j :: 0 <= j < |r| ==> r[j] == s[k + j])
      && (forall i :: k + |r| <= i < |s| ==> s[i] in cs)
  {
    var k := |s| - |left|;
    forall j | 0 <= j < |r| ensures r[j] == s[k + j] {
      assert r[j] == left[j];
      assert left[j] == s[k + j];
    }
    forall i | k + |r| <= i < |s| ensures s[i] in cs {
      assert s[i] == left[i - k];
    }
  }

  /** Stripping is idempotent: a stripped string has nothing left to strip. */
  lemma StripIdempotent(s: string, cs: set<char>)
    ensures Strip(Strip(s, cs), cs) == Strip(s, cs)
  {
  }

  /** A string with no `cs` character at either end strips to itself. */
  lemma StripKeeps(s: string, cs: set<char>)
    requires s != [] && s[0] !in cs && s[|s| - 1] !in cs
    ensures Strip(s, cs) == s
  {
  }

  /** Characters of `cs` around a string do not change what it strips to. */
  lemma StripPadded(front: string, t: string, back: string, cs: set<char>)
    requires forall i :: 0 <= i < |front| ==> front[i] in cs
    requires forall i :: 0 <= i < |back| ==> back[i] in cs
    ensures Strip(front + t + back, cs) == Strip(t, cs)
  {
    assert front + t + back == front + (t + back);
    StripFront(front, t + back, cs);
    StripBack(t, back, cs);
  }

  lemma StripFront(front: string, x: string, cs: set<char>)
    requires forall i :: 0 <= i < |front| ==> front[i] in cs
    ensures Strip(front + x, cs) == Strip(x, cs)
  {
    TrimLeftPadded(front, x, cs);
  }

  lemma StripBack(t: string, back: string, cs: set<char>)
    requires forall i :: 0 <= i < |back| ==> back[i] in cs
    ensures Strip(t + back, cs) == Strip(t, cs)
  {
    if TrimLeft(t, cs) == [] {
      forall i | 0 <= i < |t + back| ensures (t + back)[i] in cs {
        if i >= |t| {
          assert (t + back)[i] == back[i - |t|];
        }
      }
      AllTrimmed(t + back, cs);
    } else {
      TrimLeftAppend(t, back, cs);
      TrimRightPadded(TrimLeft(t, cs), back, cs);
    }
  }

  lemma {:induction false} TrimLeftPadded(front: string, x: string, cs: set<char>)
    requires forall i :: 0 <= i < |front| ==> front[i] in cs
    ensures TrimLeft(front + x, cs) == TrimLeft(x, cs)
    decreases |front|
  {
    if front != [] {
      assert (front + x)[0] == front[0];
      assert (front + x)[1..] == front[1..] + x;
      assert TrimLeft(front + x, cs) == TrimLeft(front[1..] + x, cs);
      TrimLeftPadded(front[1..], x, cs);
    } else {
      assert front + x == x;
    }
  }

  lemma {:induction false} TrimRightPadded(x: string, back: string, cs: set<char>)
    requires forall i :: 0 <= i < |back| ==> back[i] in cs
    ensures TrimRight(x + back, cs) == TrimRight(x, cs)
    decreases |back|
  {
    if back != [] {
      var n := |back| - 1;
      assert (x + back)[..|x + back| - 1] == x + back[..n];
      TrimRightPadded(x, back[..n], cs);
    } else {
      assert x + back == x;
    }
  }

  lemma {:induction false} TrimLeftAppend(t: string, back: string, cs: set<char>)
    requires TrimLeft(t, cs) != []
    ensures TrimLeft(t + back, cs) == TrimLeft(t, cs) + back
    decreases |t|
  {
    assert (t + back)[0] == t[0];
    if t[0] in cs {
      assert (t + back)[1..] == t[1..] + back;
      assert TrimLeft(t + back, cs) == TrimLeft(t[1..] + back, cs);
      assert TrimLeft(t, cs) == TrimLeft(t[1..], cs);
      TrimLeftAppend(t[1..], back, cs);
    } else {
      assert TrimLeft(t + back, cs) == t + back;
    }
  }

  lemma AllTrimmed(s: string, cs: set<char>)
    requires forall i :: 0 <= i < |s| ==> s[i] in cs
    ensures TrimLeft(s, cs) == [] && Strip(s, cs) == []
  {
  }

  function StartsWith(s: string, prefix: string): bool {
    |prefix| <= |s| && s[..|prefix|] == prefix
  }

  function LowerChar(c: char): char {
    if 'A' <= c <= 'Z' then (c as int + 32) as char else c
  }

  /** `str.lower()` on the ASCII letters. */
  function Lower(s: string): (r: string)
    ensures |r| == |s|
    ensures forall i :: 0 <= i < |s| ==> r[i] == LowerChar(s[i])
  {
    seq(|s|, i requires 0 <= i < |s| => LowerChar(s[i]))
  }

  /** The CDN file extension for an avatar, banner or guild-icon hash:
      animated assets have hashes starting with "a_". */
  function AssetExtension(hash: string): (ext: string)
    ensures ext == "gif" <==> StartsWith(hash, "a_")
    ensures ext == "gif" || ext == "png"
  {
    if StartsWith(hash, "a_") then "gif" else "png"
  }

  predicate IsDigit(c: char) {
    '0' <= c <= '9'
  }

  predicate AllDigits(s: string) {
    forall i :: 0 <= i < |s| ==> IsDigit(s[i])
  }

  function DigitChar(d: nat): char
    requires d < 10
  {
    ('0' as int + d) as char
  }

  /** Decimal rendering of a natural number, as `str(n)`. */
  function NatToString(n: nat): (r: string)
    ensures r != [] && AllDigits(r)
    decreases n
  {
    if n < 10 then [DigitChar(n)] else NatToString(n / 10) + [DigitChar(n % 10)]
  }

  /** `str(i)` (and an f-string's `{i}`) for any integer. */
  function IntToString(i: int): (r: string)
    ensures r != []
  {
    if i < 0 then "-" + NatToString(-i) else NatToString(i)
  }

  /** The value of a non-empty run of decimal digits, most significant first. */
  function DigitsValue(s: string): nat
    requires AllDigits(s)
    decreases |s|
  {
    if s == [] then 0 else DigitsValue(s[..|s| - 1]) * 10 + (s[|s| - 1] as int - '0' as int)
  }

  /** Python's `int(text)` on a string: surrounding whitespace, an optional sign
      and at least one decimal digit; anything else raises ValueError (None). */
  function ParseInt(text: string): (r: Option<int>)
    ensures r.Some? ==> Strip(text, Whitespace) != []
  {
    var t := Strip(text, Whitespace);
    if t == [] then None
    else if t[0] == '-' || t[0] == '+' then
      if |t| > 1 && AllDigits(t[1..]) then
        var v: int := DigitsValue(t[1..]);
        Some(if t[0] == '-' then -v else v)
      else None
    else if AllDigits(t) then Some(DigitsValue(t))
    else None
  }

  lemma {:induction false} DigitsValueOfNatToString(n: nat)
    ensures DigitsValue(NatToString(n)) == n
    decreases n
  {
    var s := NatToString(n);
    if n >= 10 {
      DigitsValueOfNatToString(n / 10);
      assert s[..|s| - 1] == NatToString(n / 10);
    }
  }

  /** Rendering an integer and parsing it back gives the integer. */
  lemma {:induction false} ParseIntOfIntToString(i: int)
    ensures ParseInt(IntToString(i)) == Some(i)
  {
    var n: nat := if i < 0 then -i else i;
    var d := NatToString(n);
    DigitsValueOfNatToString(n);
    var s := IntToString(i);
    assert s[|s| - 1] == d[|d| - 1];
    assert IsDigit(s[|s| - 1]);
    assert s[|s| - 1] !in Whitespace;
    assert s[0] == '-' || IsDigit(s[0]);
    assert s[0] !in Whitespace;
    assert Strip(s, Whitespace) == s;
    if i < 0 {
      assert s[1..] == d;
    }
  }
}
