/**
 * The parts of the .NET runtime and of the Emby host that the plugin leans on:
 * `System.Guid` and its "N"/"D" text forms, `Char.IsWhiteSpace`, `String.Trim`,
 * `String.IsNullOrEmpty`/`IsNullOrWhiteSpace`, `Path.Combine`, and the host
 * functions the model treats as uninterpreted (URI parsing, MD5, item ids).
 */
module Platform {
  import opened Wrappers

  type byte = x: int | 0 <= x < 256

  /** A `System.Guid`, as the sixteen bytes `new Guid(byte[])` stores. */
  type Guid = s: seq<byte> | |s| == 16 witness [0, 0, 0, 0, 0, 0, 0, 0, 0, 0, 0, 0, 0, 0, 0, 0]

  /** `Guid.Empty`. */
  const EmptyGuid: Guid := [0, 0, 0, 0, 0, 0, 0, 0, 0, 0, 0, 0, 0, 0, 0, 0]

  // ---------------------------------------------------------------------------
  // Guid text forms

  /** A lower-case hexadecimal digit for a nibble. */
  function HexDigit(n: nat): (c: char)
    requires n < 16
    ensures IsHexDigit(c)
  {
    if n < 10 then ('0' as int + n) as char else ('a' as int + n - 10) as char
  }

  predicate IsHexDigit(c: char) {
    '0' <= c <= '9' || 'a' <= c <= 'f'
  }

  /** Two lower-case hex digits per byte, high nibble first. */
  function Hex(bs: seq<byte>): (r: string)
    ensures |r| == 2 * |bs|
  {
    if bs == [] then [] else [HexDigit(bs[0] / 16), HexDigit(bs[0] % 16)] + Hex(bs[1..])
  }

  /**
   * The byte order in which `Guid.ToString` prints a Guid: the 32-bit and the two
   * 16-bit leading fields are stored little-endian and printed most significant
   * byte first; the last eight bytes are printed as stored.
   */
  function DisplayOrder(g: Guid): (d: seq<byte>)
    ensures |d| == 16
  {
    [g[3], g[2], g[1], g[0], g[5], g[4], g[7], g[6]] + g[8..]
  }

  /** `Guid.ToString("N")`: 32 hex digits, no separators. */
  function FormatN(g: Guid): string {
    Hex(DisplayOrder(g))
  }

  /** `Guid.ToString()` (format "D"): 8-4-4-4-12 hex digits separated by hyphens. */
  function FormatD(g: Guid): string {
    var d := DisplayOrder(g);
    Hex(d[..4]) + "-" + Hex(d[4..6]) + "-" + Hex(d[6..8]) + "-" + Hex(d[8..10]) + "-" + Hex(d[10..])
  }

  lemma {:induction false} HexDigits(bs: seq<byte>)
    ensures forall i :: 0 <= i < |Hex(bs)| ==> IsHexDigit(Hex(bs)[i])
  {
    if bs != [] {
      HexDigits(bs[1..]);
      var head := [HexDigit(bs[0] / 16), HexDigit(bs[0] % 16)];
      assert Hex(bs) == head + Hex(bs[1..]);
      forall i | 0 <= i < |Hex(bs)| ensures IsHexDigit(Hex(bs)[i]) {
        if i >= 2 {
          assert Hex(bs)[i] == Hex(bs[1..])[i - 2];
        }
      }
    }
  }

  /** The "N" form of every Guid is exactly 32 lower-case hex digits. */
  lemma FormatNShape(g: Guid)
    ensures |FormatN(g)| == 32
    ensures forall i :: 0 <= i < 32 ==> IsHexDigit(FormatN(g)[i])
  {
    HexDigits(DisplayOrder(g));
  }

  lemma HexDigitInjective(m: nat, n: nat)
    requires m < 16 && n < 16
    ensures HexDigit(m) == HexDigit(n) ==> m == n
  {
  }

  lemma {:induction false} HexInjective(a: seq<byte>, b: seq<byte>)
    requires |a| == |b|
    ensures Hex(a) == Hex(b) ==> a == b
  {
    if a != [] && Hex(a) == Hex(b) {
      assert Hex(a) == [HexDigit(a[0] / 16), HexDigit(a[0] % 16)] + Hex(a[1..]);
      assert Hex(b) == [HexDigit(b[0] / 16), HexDigit(b[0] % 16)] + Hex(b[1..]);
      assert Hex(a)[0] == Hex(b)[0] && Hex(a)[1] == Hex(b)[1];
      HexDigitInjective(a[0] / 16, b[0] / 16);
      HexDigitInjective(a[0] % 16, b[0] % 16);
      assert Hex(a)[2..] == Hex(a[1..]) && Hex(b)[2..] == Hex(b[1..]);
      HexInjective(a[1..], b[1..]);
      assert a == [a[0]] + a[1..] && b == [b[0]] + b[1..];
    }
  }

  /** Distinct Guids have distinct "N" forms, so the identifier strings identify. */
  lemma FormatNInjective(g: Guid, h: Guid)
    ensures FormatN(g) == FormatN(h) ==> g == h
  {
    if FormatN(g) == FormatN(h) {
      HexInjective(DisplayOrder(g), DisplayOrder(h));
      var dg, dh := DisplayOrder(g), DisplayOrder(h);
      assert dg == dh;
      forall i | 0 <= i < 16 ensures g[i] == h[i] {
        if i >= 8 { assert g[i] == dg[i] && h[i] == dh[i]; }
        else if i < 4 { assert g[i] == dg[3 - i] && h[i] == dh[3 - i]; }
        else if i < 6 { assert g[i] == dg[9 - i] && h[i] == dh[9 - i]; }
        else { assert g[i] == dg[13 - i] && h[i] == dh[13 - i]; }
      }
    }
  }

  // ---------------------------------------------------------------------------
  // Characters and strings

  /**
   * `Char.IsWhiteSpace`, which is also what the regular-expression class `\s`
   * matches: U+0009..U+000D, U+0085 and the Unicode separator categories
   * Zs, Zl and Zp.
   */
  predicate IsWhiteSpace(c: char) {
    var n := c as int;
    (9 <= n <= 13) || n == 0x20 || n == 0x85 || n == 0xA0 || n == 0x1680
    || (0x2000 <= n <= 0x200A) || n == 0x2028 || n == 0x2029 || n == 0x202F
    || n == 0x205F || n == 0x3000
  }

  predicate AllWhiteSpace(s: string) {
    forall i :: 0 <= i < |s| ==> IsWhiteSpace(s[i])
  }

  /** Drops leading white space. */
  function TrimStart(s: string): (r: string)
    ensures |r| <= |s| && r == s[|s| - |r|..]
    ensures AllWhiteSpace(s[..|s| - |r|])
    ensures r == [] || !IsWhiteSpace(r[0])
  {
    if s != [] && IsWhiteSpace(s[0]) then
      var r := TrimStart(s[1..]);
      assert s[..|s| - |r|] == [s[0]] + s[1..][..|s| - 1 - |r|];
      r
    else s
  }

  /** Drops trailing white space. */
  function TrimEnd(s: string): (r: string)
    ensures |r| <= |s| && r == s[..|r|]
    ensures AllWhiteSpace(s[|r|..])
    ensures r == [] || !IsWhiteSpace(r[|r| - 1])
  {
    if s != [] && IsWhiteSpace(s[|s| - 1]) then
      var r := TrimEnd(s[..|s| - 1]);
      assert s[|r|..] == s[..|s| - 1][|r|..] + [s[|s| - 1]];
      r
    else s
  }

  /** Trimming the end of what `TrimStart` left cuts one slice out of s. */
  lemma TrimSlice(s: string, t: string, r: string)
    requires |t| <= |s| && t == s[|s| - |t|..] && AllWhiteSpace(s[..|s| - |t|])
    requires |r| <= |t| && r == t[..|r|] && AllWhiteSpace(t[|r|..])
    requires t == [] || !IsWhiteSpace(t[0])
    requires r == [] || !IsWhiteSpace(r[|r| - 1])
    ensures exists i, j :: 0 <= i <= j <= |s| && r == s[i..j] && AllWhiteSpace(s[..i]) && AllWhiteSpace(s[j..])
    ensures r == [] || (!IsWhiteSpace(r[0]) && !IsWhiteSpace(r[|r| - 1]))
  {
    var i := |s| - |t|;
    var j := i + |r|;
    assert r == s[i..j];
    assert s[j..] == t[|r|..];
    assert r != [] ==> r[0] == t[0];
  }

  /** `String.Trim()`: the longest slice of `s` that neither starts nor ends with white space. */
  function Trim(s: string): (r: string)
    ensures exists i, j :: 0 <= i <= j <= |s| && r == s[i..j] && AllWhiteSpace(s[..i]) && AllWhiteSpace(s[j..])
    ensures r == [] || (!IsWhiteSpace(r[0]) && !IsWhiteSpace(r[|r| - 1]))
  {
    var t := TrimStart(s);
    var r := TrimEnd(t);
    TrimSlice(s, t, r);
    r
  }

  /** `String.IsNullOrEmpty`. */
  predicate IsNullOrEmpty(s: Option<string>) {
    s == None || s == Some("")
  }

  /** `String.IsNullOrWhiteSpace`. */
  predicate IsNullOrWhiteSpace(s: Option<string>) {
    s.None? || AllWhiteSpace(s.value)
  }

  /** An ordinal prefix test. */
  predicate StartsWith(s: string, prefix: string) {
    |prefix| <= |s| && s[..|prefix|] == prefix
  }

  // ---------------------------------------------------------------------------
  // Paths

  /** The two directory-separator conventions `System.IO.Path` runs under. */
  datatype PathStyle = Unix | Windows {
    function DirectorySeparator(): char {
      if Unix? then '/' else '\\'
    }
    predicate IsSeparator(c: char) {
      c == DirectorySeparator() || c == '/'
    }
  }

  /**
   * Two-argument `Path.Combine`: a rooted second part replaces the first; an
   * empty first part yields the second; otherwise a separator is inserted
   * unless the first part already ends with one.
   */
  function Combine(style: PathStyle, a: string, b: string): string {
    if b != [] && style.IsSeparator(b[0]) then b
    else if a == [] then b
    else if b == [] then a
    else if style.IsSeparator(a[|a| - 1]) then a + b
    else a + [style.DirectorySeparator()] + b
  }

  // ---------------------------------------------------------------------------
  // Host functions the model leaves uninterpreted

  /**
   * Behaviour of the runtime and of the media server that this model does not
   * open up. Each field is a total function, so every call is deterministic.
   *  - absoluteUri(s): `Uri.TryCreate(s, UriKind.Absolute, out u)`, giving
   *    `Some(u.ToString())` on success and `None` on failure;
   *  - md5(s): the `GetMD5()` string extension (an MD5 digest as a Guid);
   *  - newItemId(key, typeName): `ILibraryManager.GetNewItemId(key, typeof(T))`.
   */
  datatype Host = Host(
    absoluteUri: string -> Option<string>,
    md5: string -> Guid,
    newItemId: (string, string) -> Guid)
}
