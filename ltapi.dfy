/**
 * LTAPI.cpp: the client side of LiveTraffic's aircraft API as openSAM uses
 * it.  `hexStr` formats aircraft keys, `getDescription` builds a label, the
 * two `updateAircraft` overloads accept data for one aircraft, the
 * connection clamps its batch size, decomposes the simulated date and time,
 * and `UpdateAcList` drops the aircraft a fetch did not update.
 *
 * The dataref transfers (`DoBulkFetch`) and `timegm` are not modelled: the
 * keys a fetch updated and the raw integers are parameters.  The structure
 * sizes of LTAPI.h (the v1.22 and v2.40 layouts) are parameters as well.
 */
module LTAPI {
  import opened Wrappers
  import opened Strings

  // ---------------------------------------------------------------------
  // hexStr
  // ---------------------------------------------------------------------

  const HexChars := "0123456789ABCDEF"

  function Pow16(k: nat): (p: nat)
    ensures p >= 1
  {
    if k == 0 then 1 else 16 * Pow16(k - 1)
  }

  /** The k least significant hex digits of n, most significant first, zero-filled. */
  function LowDigits(n: nat, k: nat): (s: string)
    ensures |s| == k
  {
    if k == 0 then [] else LowDigits(n / 16, k - 1) + [HexChars[n % 16]]
  }

  /** The number of hex digits of n without leading zeros (one for 0). */
  function NumDigits(n: nat): (d: nat)
    ensures d >= 1
  {
    if n < 16 then 1 else 1 + NumDigits(n / 16)
  }

  /** The upper-case hex digits of n without leading zeros. */
  function HexDigits(n: nat): string
  {
    LowDigits(n, NumDigits(n))
  }

  lemma DivUnique(n: int, d: int, q: int, r: int)
    requires d > 0 && n == q * d + r && 0 <= r < d
    ensures n / d == q && n % d == r
  {
    var q0 := n / d;
    var r0 := n % d;
    assert (q - q0) * d == r0 - r;
    if q > q0 {
      MulAtLeast(q - q0, d);
    } else if q < q0 {
      MulAtLeast(q0 - q, d);
    }
  }

  lemma MulAtLeast(x: int, d: int)
    requires x >= 1 && d > 0
    ensures x * d >= d
  {
  }

  lemma DivDiv(n: nat, k: nat)
    ensures (n / 16) / Pow16(k) == n / Pow16(k + 1)
  {
    var a := n / 16;
    var b := n % 16;
    var p := Pow16(k);
    var q := a / p;
    var r := a % p;
    assert n == 16 * a + b;
    assert a == q * p + r;
    assert n == q * (16 * p) + (16 * r + b);
    DivUnique(n, 16 * p, q, 16 * r + b);
  }

  /** Dividing by 16^k and then by 16 is dividing by 16^(k+1). */
  lemma DivThen16(n: nat, k: nat)
    ensures (n / Pow16(k)) / 16 == n / Pow16(k + 1)
  {
    var p := Pow16(k);
    var a := n / p;
    var b := n % p;
    var q := a / 16;
    var r := a % 16;
    assert n == a * p + b;
    assert a == q * 16 + r;
    assert n == q * (16 * p) + (r * p + b) by {
      assert a * p == q * 16 * p + r * p;
    }
    assert r * p + b < 16 * p by {
      MulAtLeast(16 - r, p);
      assert (16 - r) * p == 16 * p - r * p;
    }
    DivUnique(n, 16 * p, q, r * p + b);
  }

  lemma {:induction false} LowDigitsPrepend(n: nat, k: nat)
    ensures LowDigits(n, k + 1) == [HexChars[(n / Pow16(k)) % 16]] + LowDigits(n, k)
  {
    if k > 0 {
      LowDigitsPrepend(n / 16, k - 1);
      DivDiv(n, k - 1);
      var c := HexChars[(n / Pow16(k)) % 16];
      assert LowDigits(n / 16, k) == [c] + LowDigits(n / 16, k - 1);
      assert LowDigits(n, k + 1) == ([c] + LowDigits(n / 16, k - 1)) + [HexChars[n % 16]];
    }
  }

  lemma {:induction false} NumDigitsExact(n: nat, k: nat)
    requires k >= 1 && n / Pow16(k) == 0 && (k == 1 || n / Pow16(k - 1) > 0)
    ensures NumDigits(n) == k
  {
    if n >= 16 {
      DivDiv(n, k - 1);
      if k > 2 {
        DivDiv(n, k - 2);
      }
      NumDigitsExact(n / 16, k - 1);
    }
  }

  lemma {:induction false} NumDigitsAbove(n: nat, k: nat)
    requires n / Pow16(k) > 0
    ensures NumDigits(n) > k
  {
    if k > 0 {
      DivDiv(n, k - 1);
      NumDigitsAbove(n / 16, k - 1);
    }
  }

  function Zeros(k: int): (s: string)
    ensures |s| == (if k < 0 then 0 else k)
    ensures forall i :: 0 <= i < |s| ==> s[i] == '0'
    decreases if k < 0 then 0 else k
  {
    if k <= 0 then [] else Zeros(k - 1) + "0"
  }

  function Min(a: int, b: int): int { if a <= b then a else b }

  /**
   * What `hexStr(n, minChars)` returns: the hex digits of n after zeros up
   * to min(minChars, 10) - 1 characters, or "-OVFL-" beyond nine digits.
   */
  function HexStrSpec(n: nat, minChars: nat): string
  {
    if NumDigits(n) > 9 then "-OVFL-"
    else Zeros(Min(minChars, 10) - 1 - NumDigits(n)) + HexDigits(n)
  }

  /** The pad loop of `hexStr`: zeros before `last` until `minC` characters precede the terminator at 10. */
  method PadZeros(buf: array<char>, last: nat, minC: nat) returns (first: nat)
    requires buf.Length == 11 && last <= 9 && minC <= 10
    modifies buf
    ensures first == Min(last, 10 - minC)
    ensures buf[first..9] == Zeros(last - first) + old(buf[last..9])
  {
    first := last;
    while 10 - minC < first
      invariant first <= last
      invariant first == last || first >= 10 - minC
      invariant buf[first..9] == Zeros(last - first) + old(buf[last..9])
    {
      ghost var tail := buf[first..9];
      first := first - 1;
      buf[first] := '0';
      assert buf[first..9] == ['0'] + tail;
      assert Zeros(last - first) == ['0'] + Zeros(last - first - 1);
    }
  }

  /**
   * `hexStr`: digits are written from buf[8] down to buf[0], then zeros are
   * prepended; nine digits at most, else the overflow marker.
   */
  method HexStr(n: nat, minChars: nat) returns (s: string)
    ensures s == HexStrSpec(n, minChars)
  {
    var buf := new char[11](_ => '\0');
    var last := 9;
    var m := n;
    while last != 0
      invariant 0 <= last <= 9
      invariant buf[last..9] == LowDigits(n, 9 - last)
      invariant m == n / Pow16(9 - last)
      invariant last < 9 ==> m > 0
      decreases last
    {
      ghost var k := 9 - last;
      LowDigitsPrepend(n, k);
      DivThen16(n, k);
      var c := m % 16;
      ghost var tail := buf[last..9];
      last := last - 1;
      buf[last] := HexChars[c];
      assert buf[last..9] == [HexChars[c]] + tail;
      m := m / 16;
      if m == 0 {
        NumDigitsExact(n, k + 1);
        s := PadDigits(buf, last, minChars, n);
        return;
      }
    }
    NumDigitsAbove(n, 9);
    s := "-OVFL-";
  }

  /** The end of `hexStr` once all digits of n are in buf[last..9]: the zero padding and the copy-out. */
  method PadDigits(buf: array<char>, last: nat, minChars: nat, n: nat) returns (s: string)
    requires buf.Length == 11 && last <= 9 && NumDigits(n) == 9 - last && buf[last..9] == HexDigits(n)
    modifies buf
    ensures s == HexStrSpec(n, minChars)
  {
    var minC := if minChars > 10 then 10 else minChars;
    var first := PadZeros(buf, last, minC);
    s := buf[first..9];
  }

  predicate IsHexDigit(c: char)
  {
    '0' <= c <= '9' || 'A' <= c <= 'F'
  }

  function HexVal(c: char): nat
    requires IsHexDigit(c)
  {
    if c <= '9' then (c as int) - ('0' as int) else (c as int) - ('A' as int) + 10
  }

  /** The number an upper-case hex string denotes. */
  function HexValue(s: string): nat
    requires forall i :: 0 <= i < |s| ==> IsHexDigit(s[i])
  {
    if s == [] then 0 else HexValue(s[..|s| - 1]) * 16 + HexVal(s[|s| - 1])
  }

  lemma HexCharsDigits(d: nat)
    requires d < 16
    ensures IsHexDigit(HexChars[d]) && HexVal(HexChars[d]) == d
  {
  }

  /** Peeling the last hex digit off n modulo 16p. */
  lemma ModStep(n: nat, p: nat)
    requires p >= 1
    ensures ((n / 16) % p) * 16 + n % 16 == n % (16 * p)
  {
    var a := n / 16;
    var b := n % 16;
    var q := a / p;
    var r := a % p;
    assert n == q * (16 * p) + (16 * r + b);
    DivUnique(n, 16 * p, q, 16 * r + b);
  }

  lemma {:induction false} LowDigitsValue(n: nat, k: nat)
    ensures forall i :: 0 <= i < k ==> IsHexDigit(LowDigits(n, k)[i])
    ensures HexValue(LowDigits(n, k)) == n % Pow16(k)
  {
    if k > 0 {
      var s := LowDigits(n, k);
      LowDigitsValue(n / 16, k - 1);
      HexCharsDigits(n % 16);
      assert s[..k - 1] == LowDigits(n / 16, k - 1);
      ModStep(n, Pow16(k - 1));
    }
  }

  lemma {:induction false} NumDigitsBound(n: nat)
    ensures n < Pow16(NumDigits(n))
    ensures NumDigits(n) > 1 ==> Pow16(NumDigits(n) - 1) <= n
  {
    if n >= 16 {
      NumDigitsBound(n / 16);
    }
  }

  /** A number with k > 1 digits has a leading digit 1..15. */
  lemma LeadingDigit(n: nat, p: nat)
    requires p >= 1 && p <= n < 16 * p
    ensures 1 <= n / p < 16
  {
    var q := n / p;
    var r := n % p;
    assert n == q * p + r;
    if q >= 16 {
      MulAtLeast(q - 15, p);
    }
  }

  /** The hex digits of n read back as n, and only the number 0 has a leading zero. */
  lemma HexDigitsValue(n: nat)
    ensures forall i :: 0 <= i < |HexDigits(n)| ==> IsHexDigit(HexDigits(n)[i])
    ensures HexValue(HexDigits(n)) == n
    ensures HexDigits(n)[0] == '0' ==> n == 0
  {
    var k := NumDigits(n);
    LowDigitsValue(n, k);
    NumDigitsBound(n);
    DivUnique(n, Pow16(k), 0, n);
    HexDigitsLeading(n);
  }

  /** Only the number 0 is written with a leading zero. */
  lemma HexDigitsLeading(n: nat)
    ensures HexDigits(n)[0] == '0' ==> n == 0
  {
    var k := NumDigits(n);
    NumDigitsBound(n);
    LowDigitsPrepend(n, k - 1);
    if k > 1 {
      LeadingDigit(n, Pow16(k - 1));
      assert HexChars[(n / Pow16(k - 1)) % 16] != '0';
    } else if n > 0 {
      assert HexDigits(n) == [HexChars[n % 16]];
    }
  }

  /** Leading zeros do not change the value. */
  lemma {:induction false} ZerosValue(k: int, s: string)
    requires forall i :: 0 <= i < |s| ==> IsHexDigit(s[i])
    ensures forall i :: 0 <= i < |Zeros(k) + s| ==> IsHexDigit((Zeros(k) + s)[i])
    ensures HexValue(Zeros(k) + s) == HexValue(s)
    decreases |s| + (if k < 0 then 0 else k)
  {
    var z := Zeros(k) + s;
    if s != [] {
      assert z[..|z| - 1] == Zeros(k) + s[..|s| - 1];
      ZerosValue(k, s[..|s| - 1]);
    } else if k > 0 {
      assert z == Zeros(k - 1) + "0";
      assert z[..|z| - 1] == Zeros(k - 1) + [];
      ZerosValue(k - 1, []);
    }
  }

  /**
   * Below 16^9, `hexStr` returns upper-case hex digits denoting n, padded
   * with zeros to minChars - 1 characters (minChars capped at 10); above,
   * the overflow marker.
   */
  lemma HexStrMeaning(n: nat, minChars: nat)
    ensures n >= Pow16(9) ==> HexStrSpec(n, minChars) == "-OVFL-"
    ensures n < Pow16(9) ==>
      var s := HexStrSpec(n, minChars);
      (forall i :: 0 <= i < |s| ==> IsHexDigit(s[i])) && HexValue(s) == n
      && |s| == (if Min(minChars, 10) - 1 > NumDigits(n) then Min(minChars, 10) - 1 else NumDigits(n))
  {
    NumDigitsBound(n);
    if n >= Pow16(9) {
      DivPositive(n, Pow16(9));
      NumDigitsAbove(n, 9);
    } else {
      if NumDigits(n) > 9 {
        PowMono(9, NumDigits(n) - 1);
      }
      HexDigitsValue(n);
      ZerosValue(Min(minChars, 10) - 1 - NumDigits(n), HexDigits(n));
    }
  }

  lemma DivPositive(n: nat, d: nat)
    requires 1 <= d <= n
    ensures n / d >= 1
  {
    assert n == (n / d) * d + n % d;
  }

  lemma {:induction false} PowMono(i: nat, j: nat)
    requires i <= j
    ensures Pow16(i) <= Pow16(j)
  {
    if i < j {
      PowMono(i, j - 1);
    }
  }

  /** As written, a key below 0x10000 gets five characters where the camera lookup prints six. */
  lemma HexStrOneShort()
    ensures HexStrSpec(0xABCD, 6) == "0ABCD"
    ensures |HexStrSpec(0xABCD, 6)| == 5
  {
    SampleKeyDigits();
    assert Zeros(1) == "0";
  }

  /** The sample key 0xABCD has the four digits ABCD. */
  lemma SampleKeyDigits()
    ensures NumDigits(0xABCD) == 4 && HexDigits(0xABCD) == "ABCD"
  {
    assert 0xABCD / 16 == 0xABC && 0xABC / 16 == 0xAB && 0xAB / 16 == 0xA;
    assert 0xABCD % 16 == 0xD && 0xABC % 16 == 0xC && 0xAB % 16 == 0xB;
    assert NumDigits(0xA) == 1;
    assert NumDigits(0xAB) == 2;
    assert NumDigits(0xABC) == 3;
    assert NumDigits(0xABCD) == 4;
    assert LowDigits(0xA, 1) == "A";
    assert LowDigits(0xAB, 2) == "A" + "B";
    assert LowDigits(0xABC, 3) == "AB" + "C";
    assert LowDigits(0xABCD, 4) == "ABC" + "D";
  }

  /** `hexStr` as documented: at least minChars characters, up to the nine the buffer holds. */
  function HexStrFixed(n: nat, minChars: nat): string
  {
    if NumDigits(n) > 9 then "-OVFL-"
    else Zeros(Min(minChars, 9) - NumDigits(n)) + HexDigits(n)
  }

  /** The documented padding holds for the corrected version, and the value is kept. */
  lemma HexStrFixedMeaning(n: nat, minChars: nat)
    ensures n < Pow16(9) ==>
      var s := HexStrFixed(n, minChars);
      (forall i :: 0 <= i < |s| ==> IsHexDigit(s[i])) && HexValue(s) == n && |s| >= Min(minChars, 9)
  {
    if n < Pow16(9) {
      NumDigitsBound(n);
      if NumDigits(n) > 9 {
        PowMono(9, NumDigits(n) - 1);
      }
      HexDigitsValue(n);
      ZerosValue(Min(minChars, 9) - NumDigits(n), HexDigits(n));
    }
  }

  /** The corrected key of an aircraft below 0x10000 is what `"%06X"` prints. */
  lemma HexStrFixedMatchesLookup()
    ensures HexStrFixed(0xABCD, 6) == "00ABCD"
  {
    SampleKeyDigits();
    assert Zeros(2) == "00";
  }

  // ---------------------------------------------------------------------
  // getDescription
  // ---------------------------------------------------------------------

  /** The identifier: flight number, else call sign, else the key. */
  function Identifier(flightNumber: string, callSign: string, key: string): string
  {
    if flightNumber != "" then flightNumber else if callSign != "" then callSign else key
  }

  /**
   * `getDescription` over the C-string values of the text fields: the
   * identifier, the type in parentheses when known, the route when either
   * end is known.
   */
  function Description(flightNumber: string, callSign: string, key: string, modelIcao: string, model: string,
                       origin: string, destination: string): (r: string)
    ensures Identifier(flightNumber, callSign, key) <= r
    ensures modelIcao == "" && model == "" && origin == "" && destination == "" ==> r == Identifier(flightNumber, callSign, key)
    ensures origin != "" || destination != "" ==>
      var route := " " + (if origin != "" then origin else "?") + "-" + (if destination != "" then destination else "?");
      |route| <= |r| && r[|r| - |route|..] == route
  {
    var id := Identifier(flightNumber, callSign, key);
    var typ := if modelIcao != "" then " (" + modelIcao + ")" else if model != "" then " (" + model + ")" else "";
    var route := if origin != "" || destination != "" then
      " " + (if origin != "" then origin else "?") + "-" + (if destination != "" then destination else "?")
    else "";
    assert (id + typ + route)[|id + typ + route| - |route|..] == route;
    id + typ + route
  }

  /**
   * The type of an aircraft without a route: the model ICAO code in
   * parentheses, else the model name, else nothing.
   */
  lemma DescriptionParts(flightNumber: string, callSign: string, key: string, modelIcao: string, model: string)
    ensures modelIcao != "" ==>
      (Description(flightNumber, callSign, key, modelIcao, model, "", "")
       == Identifier(flightNumber, callSign, key) + " (" + modelIcao + ")")
    ensures modelIcao == "" && model != "" ==>
      (Description(flightNumber, callSign, key, modelIcao, model, "", "")
       == Identifier(flightNumber, callSign, key) + " (" + model + ")")
    ensures modelIcao == "" && model == "" ==>
      (Description(flightNumber, callSign, key, modelIcao, model, "", "")
       == Identifier(flightNumber, callSign, key))
  {
  }

  // ---------------------------------------------------------------------
  // One aircraft
  // ---------------------------------------------------------------------

  /** The numeric data of one aircraft (the fields the update logic touches). */
  datatype BulkData = BulkData(keyNum: nat, lat: real, lon: real, altFt: real, latF: real, lonF: real, altFtF: real)

  /** The text fields of one aircraft as fixed-size character buffers, in declaration order. */
  datatype InfoTexts = InfoTexts(keyNum: nat, texts: seq<seq<char>>)

  /** Index of `cslModel`, the last of the sixteen text fields. */
  const CslModel := 15
  const NumTexts := 16

  /** A zero-terminated buffer holds a C string shorter than itself, and one already terminated is unchanged. */
  lemma {:induction false} ZeroTermBounded(buf: seq<char>)
    requires |buf| > 0
    ensures |CStr(ZeroTerm(buf))| < |buf|
    ensures '\0' in buf[..|buf| - 1] ==> CStr(ZeroTerm(buf)) == CStr(buf)
  {
    if buf[0] != '\0' && |buf| > 1 {
      var z := ZeroTerm(buf);
      assert z[1..] == ZeroTerm(buf[1..]);
      assert buf[1..][..|buf| - 2] == buf[1..|buf| - 1];
      if '\0' in buf[..|buf| - 1] {
        assert '\0' in buf[1..][..|buf[1..]| - 1];
      }
      ZeroTermBounded(buf[1..]);
    }
  }

  /** Zeroing buffer bytes from position `from` on. */
  function ZeroFrom(buf: seq<char>, from: nat): (r: seq<char>)
    ensures |r| == |buf|
    ensures forall i :: 0 <= i < |buf| ==> r[i] == (if i < from then buf[i] else '\0')
  {
    if from >= |buf| then buf else buf[..from] + seq(|buf| - from, _ => '\0')
  }

  /** The text fields after `updateAircraft(info)`: every field terminated, the CSL model cut by size. */
  function AcceptedTexts(texts: seq<seq<char>>, inSize: nat, sizeV122: nat, sizeV240: nat): (r: seq<seq<char>>)
    requires |texts| == NumTexts
    ensures |r| == NumTexts
  {
    var t := seq(NumTexts, i requires 0 <= i < NumTexts => ZeroTerm(texts[i]));
    var csl := if inSize < sizeV122 then ZeroFrom(t[CslModel], 0)
      else if inSize < sizeV240 then ZeroFrom(t[CslModel], 24) else t[CslModel];
    t[CslModel := csl]
  }

  /**
   * After acceptance every non-empty field holds a terminated C string, the
   * CSL model of a v1.20 structure is empty and that of a v1.22 structure
   * has at most 24 characters.
   */
  lemma AcceptedTextsTerminated(texts: seq<seq<char>>, inSize: nat, sizeV122: nat, sizeV240: nat)
    requires |texts| == NumTexts
    ensures var r := AcceptedTexts(texts, inSize, sizeV122, sizeV240);
      forall i :: 0 <= i < NumTexts && |texts[i]| > 0 ==> |CStr(r[i])| < |texts[i]|
    ensures inSize < sizeV122 ==> CStr(AcceptedTexts(texts, inSize, sizeV122, sizeV240)[CslModel]) == ""
    ensures sizeV122 <= inSize < sizeV240 ==> |CStr(AcceptedTexts(texts, inSize, sizeV122, sizeV240)[CslModel])| <= 24
  {
    var r := AcceptedTexts(texts, inSize, sizeV122, sizeV240);
    var t := seq(NumTexts, i requires 0 <= i < NumTexts => ZeroTerm(texts[i]));
    var from := if inSize < sizeV122 then 0 else if inSize < sizeV240 then 24 else |t[CslModel]|;
    assert r[CslModel] == ZeroFrom(t[CslModel], from);
    ZeroFromShortens(t[CslModel], from);
    forall i | 0 <= i < NumTexts && |texts[i]| > 0
      ensures |CStr(r[i])| < |texts[i]|
    {
      ZeroTermBounded(texts[i]);
    }
  }

  /** Zeroing from position `from` leaves a C string no longer than `from` nor than before. */
  lemma {:induction false} ZeroFromShortens(buf: seq<char>, from: nat)
    ensures |CStr(ZeroFrom(buf, from))| <= from
    ensures |CStr(ZeroFrom(buf, from))| <= |CStr(buf)|
  {
    var z := ZeroFrom(buf, from);
    CStrPrefix(buf, z, if from < |buf| then from else |buf|);
  }

  /** Buffers that agree below k have C strings that agree below k. */
  lemma {:induction false} CStrPrefix(a: seq<char>, b: seq<char>, k: nat)
    requires k <= |a| == |b| && a[..k] == b[..k]
    requires k < |b| ==> b[k] == '\0'
    requires forall i :: k <= i < |b| ==> b[i] == '\0'
    ensures |CStr(b)| <= k && |CStr(b)| <= |CStr(a)|
    decreases k
  {
    if k > 0 && a[0] != '\0' {
      assert a[1..][..k - 1] == b[1..][..k - 1];
      CStrPrefix(a[1..], b[1..], k - 1);
    }
  }

  class LTAPIAircraft {
    var key: string
    var keyNum: nat
    var bulk: BulkData
    var info: InfoTexts
    var updated: bool

    /** A fresh aircraft: no key yet. */
    constructor ()
      ensures key == "" && keyNum == 0 && !updated
    {
      key := "";
      keyNum := 0;
      bulk := BulkData(0, 0.0, 0.0, 0.0, 0.0, 0.0, 0.0);
      info := InfoTexts(0, []);
      updated := false;
    }

    /**
     * `updateAircraft(bulk)`: the first call adopts the offered key (the
     * number truncated to `unsigned`, the text by `hexStr`); later calls
     * accept only the same key number.  Data of the v1.20 size gets its
     * doubles from the float fields.
     */
    method UpdateBulk(b: BulkData, inSize: nat, sizeV122: nat) returns (ok: bool)
      requires b.keyNum < 0x1_0000_0000_0000_0000
      modifies this
      ensures ok <==> old(key) == "" || b.keyNum == old(keyNum)
      ensures !ok ==> key == old(key) && keyNum == old(keyNum) && bulk == old(bulk) && updated == old(updated)
      ensures ok ==> updated
      ensures ok && old(key) == "" ==> key == HexStrSpec(b.keyNum, 6) && keyNum == b.keyNum % 0x1_0000_0000
      ensures old(key) != "" ==> key == old(key) && keyNum == old(keyNum)
      ensures ok ==> bulk == (if inSize < sizeV122 then b.(lat := b.latF, lon := b.lonF, altFt := b.altFtF) else b)
      ensures info == old(info)
    {
      if key == "" {
        keyNum := b.keyNum % 0x1_0000_0000;
        key := HexStr(b.keyNum, 6);
      } else {
        if b.keyNum != keyNum {
          return false;
        }
      }
      bulk := b;
      if inSize < sizeV122 {
        bulk := bulk.(lat := bulk.latF, lon := bulk.lonF, altFt := bulk.altFtF);
      }
      updated := true;
      return true;
    }

    /**
     * `updateAircraft(info)`: accepted only for the aircraft's own key
     * number; never changes the key.
     */
    method UpdateInfo(i: InfoTexts, inSize: nat, sizeV122: nat, sizeV240: nat) returns (ok: bool)
      requires |i.texts| == NumTexts
      modifies this
      ensures ok <==> i.keyNum == old(keyNum)
      ensures key == old(key) && keyNum == old(keyNum) && bulk == old(bulk)
      ensures !ok ==> info == old(info) && updated == old(updated)
      ensures ok ==> updated && info == InfoTexts(i.keyNum, AcceptedTexts(i.texts, inSize, sizeV122, sizeV240))
    {
      if i.keyNum != keyNum {
        return false;
      }
      var t := seq(NumTexts, k requires 0 <= k < NumTexts => ZeroTerm(i.texts[k]));
      if inSize < sizeV122 {
        t := t[CslModel := ZeroFrom(t[CslModel], 0)];
      } else if inSize < sizeV240 {
        t := t[CslModel := ZeroFrom(t[CslModel], 24)];
      }
      info := InfoTexts(i.keyNum, t);
      updated := true;
      return true;
    }
  }

  /** Once an aircraft has a key it keeps it: `hexStr` never returns the empty string. */
  lemma KeyNeverEmpty(n: nat)
    ensures HexStrSpec(n, 6) != ""
  {
  }

  // ---------------------------------------------------------------------
  // The connection
  // ---------------------------------------------------------------------

  /** The constructor's batch size: the request clamped into [1, 100]. */
  function ClampBulk(numBulkAc: int): (r: int)
    ensures 1 <= r <= 100
    ensures 1 <= numBulkAc <= 100 ==> r == numBulkAc
    ensures numBulkAc < 1 ==> r == 1
    ensures numBulkAc > 100 ==> r == 100
  {
    if numBulkAc < 1 then 1 else if numBulkAc > 100 then 100 else numBulkAc
  }

  /** C integer division and remainder, truncating toward zero. */
  function CDiv(a: int, b: int): int
    requires b > 0
  {
    if a >= 0 then a / b else -((-a) / b)
  }

  function CMod(a: int, b: int): int
    requires b > 0
  {
    a - CDiv(a, b) * b
  }

  /** The date fields of `getLTSimTime` from YYYYMMDD: year, month from 0, day of month. */
  function DecomposeDate(i: int): (int, int, int)
  {
    var year := CDiv(i, 10000);
    var rest := i - year * 10000;
    (year, CDiv(rest, 100) - 1, CMod(rest, 100))
  }

  /** The time fields of `getLTSimTime` from HHMMSS. */
  function DecomposeTime(i: int): (int, int, int)
  {
    (CDiv(i, 10000), CDiv(CMod(i, 10000), 100), CMod(i, 100))
  }

  /** A non-negative date is year·10000 + (month+1)·100 + day, with month+1 and day below 100. */
  lemma DateRecompose(i: int)
    requires i >= 0
    ensures var (y, m, d) := DecomposeDate(i);
      y * 10000 + (m + 1) * 100 + d == i && 0 <= m + 1 < 100 && 0 <= d < 100 && y >= 0
  {
  }

  /** Composing then decomposing a date gives back its fields. */
  lemma DateRoundTrip(y: int, m: int, d: int)
    requires y >= 0 && 0 <= m + 1 < 100 && 0 <= d < 100
    ensures DecomposeDate(y * 10000 + (m + 1) * 100 + d) == (y, m, d)
  {
    var i := y * 10000 + (m + 1) * 100 + d;
    DivUniqueInt(i, 10000, y, (m + 1) * 100 + d);
    DivUniqueInt((m + 1) * 100 + d, 100, m + 1, d);
  }

  /** A non-negative time is hour·10000 + minute·100 + second, with minute and second below 100. */
  lemma TimeRecompose(i: int)
    requires i >= 0
    ensures var (h, mi, s) := DecomposeTime(i);
      h * 10000 + mi * 100 + s == i && 0 <= mi < 100 && 0 <= s < 100
  {
    var r := i % 10000;
    assert i == (i / 10000) * 10000 + r;
    assert r == (r / 100) * 100 + r % 100;
    DivUniqueInt(i, 100, (i / 10000) * 100 + r / 100, r % 100);
  }

  /** Composing then decomposing a time gives back its fields. */
  lemma TimeRoundTrip(h: int, mi: int, s: int)
    requires h >= 0 && 0 <= mi < 100 && 0 <= s < 100
    ensures DecomposeTime(h * 10000 + mi * 100 + s) == (h, mi, s)
  {
    var i := h * 10000 + mi * 100 + s;
    DivUniqueInt(i, 10000, h, mi * 100 + s);
    DivUniqueInt(mi * 100 + s, 100, mi, s);
    DivUniqueInt(i, 100, h * 100 + mi, s);
  }

  lemma DivUniqueInt(n: int, d: int, q: int, r: int)
    requires d > 0 && n == q * d + r && 0 <= r < d
    ensures n / d == q && n % d == r
  {
    DivUnique(n, d, q, r);
  }

  /**
   * The keys of a map as a walk over it meets them, each once.  `std::map`
   * walks in ascending key order; the model leaves the order open.
   */
  method WalkKeys(keys: set<string>) returns (walk: seq<string>)
    ensures (set k | k in walk) == keys
    ensures forall i, j :: 0 <= i < j < |walk| ==> walk[i] != walk[j]
  {
    walk := [];
    var rest := keys;
    while rest != {}
      invariant rest <= keys
      invariant (set k | k in walk) == keys - rest
      invariant forall i, j :: 0 <= i < j < |walk| ==> walk[i] != walk[j]
      decreases |rest|
    {
      var k :| k in rest;
      assert (set x | x in walk + [k]) == (set x | x in walk) + {k};
      walk := walk + [k];
      rest := rest - {k};
    }
  }

  /** The update flags after `resetUpdated` on every aircraft. */
  method ResetFlags(m: map<string, bool>) returns (r: map<string, bool>)
    ensures r.Keys == m.Keys && forall k :: k in r ==> !r[k]
  {
    r := m;
    var rest := m.Keys;
    while rest != {}
      invariant rest <= r.Keys && r.Keys == m.Keys
      invariant forall k :: k in r && k !in rest ==> !r[k]
      decreases |rest|
    {
      var k :| k in rest;
      r := r[k := false];
      rest := rest - {k};
    }
  }

  /** The sweep: aircraft not updated leave the map and, when asked for, go to the list. */
  method Sweep(m: map<string, bool>, wantRemoved: bool) returns (r: map<string, bool>, removed: seq<string>)
    ensures r == map k | k in m && m[k] :: true
    ensures wantRemoved ==> (set k | k in removed) == set k | k in m && !m[k]
    ensures !wantRemoved ==> removed == []
    ensures forall i, j :: 0 <= i < j < |removed| ==> removed[i] != removed[j]
  {
    r := m;
    removed := [];
    var rest := m.Keys;
    while rest != {}
      invariant rest <= m.Keys
      invariant forall k :: k in r <==> k in m && (k in rest || m[k])
      invariant forall k :: k in r ==> r[k] == m[k]
      invariant wantRemoved ==> (set k | k in removed) == set k | k in m && k !in rest && !m[k]
      invariant !wantRemoved ==> removed == []
      invariant forall i, j :: 0 <= i < j < |removed| ==> removed[i] != removed[j]
      decreases |rest|
    {
      var k :| k in rest;
      if !r[k] {
        if wantRemoved {
          assert (set x | x in removed + [k]) == (set x | x in removed) + {k};
          removed := removed + [k];
        }
        r := r - {k};
      }
      rest := rest - {k};
    }
  }

  /**
   * The aircraft map of the connection, by key; the flag is the aircraft's
   * `bUpdated`.  The aircraft objects themselves are identified by key.
   */
  class LTAPIConnect {
    const iBulkAc: int
    var mapAc: map<string, bool>

    constructor (numBulkAc: int)
      ensures iBulkAc == ClampBulk(numBulkAc) && mapAc == map[]
    {
      iBulkAc := if numBulkAc < 1 then 1 else if numBulkAc > 100 then 100 else numBulkAc;
      mapAc := map[];
    }

    /**
     * `UpdateAcList`: with LiveTraffic unavailable or no aircraft, every
     * aircraft leaves the map; otherwise all flags are reset, the fetch
     * marks the aircraft it delivered (`fetched`, creating new ones), and
     * the unmarked ones leave the map.  Aircraft that leave are handed to
     * the caller when it asks for them.
     */
    method UpdateAcList(available: bool, ltNumAc: int, fetched: set<string>, wantRemoved: bool)
      returns (removed: seq<string>)
      modifies this
      ensures var numAc := if available then ltNumAc else 0;
        numAc <= 0 ==> mapAc == map[] && (wantRemoved ==> (set k | k in removed) == old(mapAc).Keys)
      ensures var numAc := if available then ltNumAc else 0;
        numAc > 0 ==> (mapAc.Keys == fetched && (forall k :: k in mapAc ==> mapAc[k])
          && (wantRemoved ==> (set k | k in removed) == old(mapAc).Keys - fetched))
      ensures !wantRemoved ==> removed == []
      ensures forall i, j :: 0 <= i < j < |removed| ==> removed[i] != removed[j]
    {
      removed := [];
      var numAc := if available then ltNumAc else 0;
      if numAc <= 0 {
        if wantRemoved {
          removed := WalkKeys(mapAc.Keys);
        }
        mapAc := map[];
        return;
      }
      var reset := ResetFlags(mapAc);
      var marked := map k | k in reset.Keys + fetched :: k in fetched;
      mapAc, removed := Sweep(marked, wantRemoved);
      assert mapAc.Keys == fetched;
      assert wantRemoved ==> (set k | k in marked && !marked[k]) == old(mapAc).Keys - fetched;
    }
  }
}
