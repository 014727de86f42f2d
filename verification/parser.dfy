/** The value parsers behind `config set` (utils/parser.go). Each of them
    panics on malformed input; a panic is modelled as `None`. */
module Parser {
  import opened Wrappers
  import opened GoInt
  import opened GoStrings
  import opened Strconv

  /** `ParseBool`: only the exact text "true" is true. */
  function ParseBool(s: string): (r: bool)
    ensures r ==> s == "true"
    ensures s == "true" ==> r
  {
    s == "true"
  }

  /** The check is case-sensitive and knows no other spelling of truth. */
  lemma ParseBoolIsStrict()
    ensures !ParseBool("True") && !ParseBool("TRUE") && !ParseBool("1")
    ensures !ParseBool("yes") && !ParseBool("true ") && !ParseBool("")
    ensures ParseBool("true")
  {
  }

  /** `ParseInt`: `strconv.Atoi`, panicking (`None`) on an error. */
  function ParseInt(s: string): (r: Option<int>)
    ensures r.Some? ==> IsInt64(r.value) && |s| >= 1
    ensures r == Atoi(s)
  {
    Atoi(s)
  }

  /** Every 64-bit value written in decimal parses back to itself, and
      text with a trailing non-digit makes `ParseInt` panic. */
  lemma ParseIntOfItoa(n: int, junk: char)
    requires IsInt64(n)
    requires !IsDigit(junk)
    ensures ParseInt(Itoa(n)) == Some(n)
    ensures ParseInt(Itoa(n) + [junk]) == None
  {
    AtoiItoa(n);
    var s := Itoa(n) + [junk];
    if Atoi(s).Some? {
      var body := if s[0] == '+' || s[0] == '-' then s[1..] else s;
      assert body[|body| - 1] == junk;
    }
  }

  /** The count part of a size: the text with one trailing unit K, M or G
      removed, the whole text when it has none. */
  function SizeCount(s: string): (c: string)
    ensures |c| == |s| || |c| == |s| - 1
    ensures c == s[..|c|]
    ensures |c| == |s| - 1 <==> |s| >= 1 && s[|s| - 1] in {'K', 'M', 'G'}
  {
    if HasSuffix(s, "K") then TrimSuffix(s, "K")
    else if HasSuffix(s, "M") then TrimSuffix(s, "M")
    else if HasSuffix(s, "G") then TrimSuffix(s, "G")
    else s
  }

  /** `ParseSize`: a decimal count with an optional upper-case unit K, M or
      G (powers of 1024). The multiplication is done on the 64-bit `int`
      one factor at a time, so an oversized count wraps around. */
  function ParseSize(s: string): (r: Option<int>)
    ensures r.Some? ==> IsInt64(r.value)
    ensures r.Some? ==> |s| >= 1
    ensures r.None? <==> Atoi(SizeCount(s)).None?
  {
    if HasSuffix(s, "K") then
      match Atoi(TrimSuffix(s, "K"))
      case None => None
      case Some(n) => Some(Wrap64(n * 1024))
    else if HasSuffix(s, "M") then
      match Atoi(TrimSuffix(s, "M"))
      case None => None
      case Some(n) => Some(Wrap64(Wrap64(n * 1024) * 1024))
    else if HasSuffix(s, "G") then
      match Atoi(TrimSuffix(s, "G"))
      case None => None
      case Some(n) => Some(Wrap64(Wrap64(Wrap64(n * 1024) * 1024) * 1024))
    else
      Atoi(s)
  }

  const KiB: int := 1024
  const MiB: int := 1024 * 1024
  const GiB: int := 1024 * 1024 * 1024

  lemma ItoaHasNoUnit(n: int)
    ensures !HasSuffix(Itoa(n), "K") && !HasSuffix(Itoa(n), "M") && !HasSuffix(Itoa(n), "G")
  {
    var s := Itoa(n);
    if n < 0 {
      assert s[|s| - 1] == s[1..][|s| - 2];
    }
    assert IsDigit(s[|s| - 1]);
  }

  lemma TrimUnit(n: int, unit: string)
    requires unit == "K" || unit == "M" || unit == "G"
    ensures HasSuffix(Itoa(n) + unit, unit)
    ensures TrimSuffix(Itoa(n) + unit, unit) == Itoa(n)
  {
    var s := Itoa(n) + unit;
    assert s[|s| - 1..] == unit;
  }

  lemma UnitsDiffer(n: int)
    ensures !HasSuffix(Itoa(n) + "M", "K")
    ensures !HasSuffix(Itoa(n) + "G", "K") && !HasSuffix(Itoa(n) + "G", "M")
  {
    var m := Itoa(n) + "M";
    var g := Itoa(n) + "G";
    assert m[|m| - 1..] == "M";
    assert g[|g| - 1..] == "G";
  }

  /** A bare count is taken as is. */
  lemma ParseSizeBare(n: int)
    requires IsInt64(n)
    ensures ParseSize(Itoa(n)) == Some(n)
  {
    AtoiItoa(n);
    ItoaHasNoUnit(n);
  }

  /** "nK" is n·1024 when that fits in 64 bits. */
  lemma ParseSizeKilo(n: int)
    requires IsInt64(n * KiB)
    ensures ParseSize(Itoa(n) + "K") == Some(n * KiB)
  {
    AtoiItoa(n);
    TrimUnit(n, "K");
  }

  lemma NoWrapMega(n: int)
    requires IsInt64(n * MiB)
    ensures Wrap64(Wrap64(n * 1024) * 1024) == n * MiB
  {
    assert IsInt64(n * 1024);
  }

  lemma NoWrapGiga(n: int)
    requires IsInt64(n * GiB)
    ensures Wrap64(Wrap64(Wrap64(n * 1024) * 1024) * 1024) == n * GiB
  {
    assert IsInt64(n * MiB);
    NoWrapMega(n);
  }

  lemma ParseSizeWithUnit(n: int, unit: string)
    requires IsInt64(n)
    requires unit == "M" || unit == "G"
    ensures unit == "M" ==> ParseSize(Itoa(n) + unit) == Some(Wrap64(Wrap64(n * 1024) * 1024))
    ensures unit == "G" ==> ParseSize(Itoa(n) + unit) == Some(Wrap64(Wrap64(Wrap64(n * 1024) * 1024) * 1024))
  {
    AtoiItoa(n);
    UnitsDiffer(n);
    TrimUnit(n, unit);
  }

  /** "nM" is n·1024² when that fits in 64 bits. */
  lemma ParseSizeMega(n: int)
    requires IsInt64(n * MiB)
    ensures ParseSize(Itoa(n) + "M") == Some(n * MiB)
  {
    ParseSizeWithUnit(n, "M");
    NoWrapMega(n);
  }

  /** "nG" is n·1024³ when that fits in 64 bits. */
  lemma ParseSizeGiga(n: int)
    requires IsInt64(n * GiB)
    ensures ParseSize(Itoa(n) + "G") == Some(n * GiB)
  {
    ParseSizeWithUnit(n, "G");
    NoWrapGiga(n);
  }

  /** Units are case-sensitive: a lower-case suffix is not a unit, and the
      leftover letter makes the count unparsable. */
  lemma ParseSizeLowerCaseUnitPanics(n: int, unit: char)
    requires unit == 'k' || unit == 'm' || unit == 'g'
    ensures ParseSize(Itoa(n) + [unit]) == None
  {
    var s := Itoa(n) + [unit];
    assert s[|s| - 1..] == [unit];
  }
}
