/** The name of the temporary file an uploaded attachment is written to: the
    guild id in decimal followed by the attachment's filename. */
module Scratch {
  import opened Types

  predicate IsDigit(c: char) {
    '0' <= c <= '9'
  }

  predicate AllDigits(s: string) {
    forall i :: 0 <= i < |s| ==> IsDigit(s[i])
  }

  function DigitChar(d: nat): (c: char)
    requires d < 10
    ensures IsDigit(c)
  {
    "0123456789"[d]
  }

  function DigitValue(c: char): (d: nat)
    requires IsDigit(c)
    ensures d < 10
  {
    c as int - '0' as int
  }

  /** The decimal text of `n`, as `Display` writes a guild id: no sign, no
      leading zero, "0" for zero. */
  function Decimal(n: nat): (s: string)
    ensures |s| >= 1 && AllDigits(s)
    ensures s[0] == '0' ==> n == 0
    decreases n
  {
    if n < 10 then [DigitChar(n)] else Decimal(n / 10) + [DigitChar(n % 10)]
  }

  /** The number a string of decimal digits denotes. */
  function ParseDecimal(s: string): (n: nat)
    requires AllDigits(s)
  {
    if s == [] then 0 else ParseDecimal(s[..|s| - 1]) * 10 + DigitValue(s[|s| - 1])
  }

  /** Reading the decimal text back gives the number. */
  lemma {:induction false} DecimalRoundTrip(n: nat)
    ensures ParseDecimal(Decimal(n)) == n
    decreases n
  {
    if n >= 10 {
      DecimalRoundTrip(n / 10);
      var s := Decimal(n);
      assert s[..|s| - 1] == Decimal(n / 10);
    }
  }

  /** The longest prefix of `s` made of digits. */
  function LeadingDigits(s: string): (p: string)
    ensures |p| <= |s| && p == s[..|p|] && AllDigits(p)
    ensures |p| < |s| ==> !IsDigit(s[|p|])
  {
    if s == [] || !IsDigit(s[0]) then [] else [s[0]] + LeadingDigits(s[1..])
  }

  /** The scratch file name for guild `gid` and attachment `filename`. */
  function ScratchName(gid: GuildId, filename: string): (name: string)
    ensures |name| == |Decimal(gid)| + |filename|
    ensures name[..|Decimal(gid)|] == Decimal(gid)
    ensures name[|Decimal(gid)|..] == filename
  {
    Decimal(gid) + filename
  }

  /** The guild id a scratch name begins with. */
  function ScratchGuild(name: string): (gid: nat) {
    ParseDecimal(LeadingDigits(name))
  }

  lemma {:induction false} LeadingDigitsOfDigitsThenOther(d: string, rest: string)
    requires AllDigits(d)
    requires rest == [] || !IsDigit(rest[0])
    ensures LeadingDigits(d + rest) == d
  {
    if d != [] {
      assert (d + rest)[1..] == d[1..] + rest;
      LeadingDigitsOfDigitsThenOther(d[1..], rest);
      assert [d[0]] + d[1..] == d;
    } else {
      assert d + rest == rest;
    }
  }

  /** When the filename does not start with a digit, the guild id can be read
      back from the scratch name. */
  lemma ScratchNameNamesGuild(gid: GuildId, filename: string)
    requires filename == [] || !IsDigit(filename[0])
    ensures ScratchGuild(ScratchName(gid, filename)) == gid
  {
    LeadingDigitsOfDigitsThenOther(Decimal(gid), filename);
    DecimalRoundTrip(gid);
  }

  /** Within one guild, distinct filenames give distinct scratch names. */
  lemma ScratchNameInjectiveInGuild(gid: GuildId, f1: string, f2: string)
    ensures ScratchName(gid, f1) == ScratchName(gid, f2) <==> f1 == f2
  {
    if ScratchName(gid, f1) == ScratchName(gid, f2) {
      assert f1 == ScratchName(gid, f1)[|Decimal(gid)|..];
    }
  }

  /** Across guilds the name is not unique: guild 1 uploading "23.ogg" and
      guild 12 uploading "3.ogg" use the same scratch file. */
  lemma ScratchNamesCollideAcrossGuilds()
    ensures ScratchName(1, "23.ogg") == ScratchName(12, "3.ogg")
  {
    assert Decimal(1) == "1";
    assert Decimal(12) == "12";
  }
}
