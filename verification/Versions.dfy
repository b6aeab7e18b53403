/** Release versions: their text, their order. */
module Versions {
  import opened Wrappers
  import opened Basics

  datatype Channel = Alpha | Beta | Rc | Stable

  datatype Prerelease = Prerelease(channel: Channel, serial: nat)

  datatype Version = Version(major: nat, minor: nat, patch: nat, pre: Option<Prerelease>)

  /** Only prerelease channels have serials. */
  predicate Proper(v: Version) {
    v.pre.Some? ==> v.pre.value.channel != Stable
  }

  // ----- the order -----

  function Rank(channel: Channel): nat {
    match channel
    case Alpha => 0
    case Beta => 1
    case Rc => 2
    case Stable => 3
  }

  function ChannelOf(v: Version): Channel {
    if v.pre.Some? then v.pre.value.channel else Stable
  }

  function SerialOf(v: Version): nat {
    if v.pre.Some? then v.pre.value.serial else 0
  }

  function Compare(left: Version, right: Version): int {
    if left.major != right.major then left.major - right.major
    else if left.minor != right.minor then left.minor - right.minor
    else if left.patch != right.patch then left.patch - right.patch
    else if Rank(ChannelOf(left)) != Rank(ChannelOf(right)) then Rank(ChannelOf(left)) - Rank(ChannelOf(right))
    else SerialOf(left) - SerialOf(right)
  }

  /** Comparing is a total order on versions. */
  lemma CompareIsTotalOrder(a: Version, b: Version, c: Version)
    requires Proper(a) && Proper(b) && Proper(c)
    ensures Compare(a, b) == 0 <==> a == b
    ensures Compare(a, b) < 0 <==> Compare(b, a) > 0
    ensures Compare(a, b) <= 0 && Compare(b, c) <= 0 ==> Compare(a, c) <= 0
    ensures Compare(a, b) < 0 && Compare(b, c) <= 0 ==> Compare(a, c) < 0
    ensures Compare(a, b) <= 0 && Compare(b, c) < 0 ==> Compare(a, c) < 0
  {
  }

  // ----- numbers -----

  function Value(digits: string): nat
    requires forall c <- digits :: Digit(c)
  {
    if digits == "" then 0
    else
      var last := digits[|digits| - 1];
      assert Digit(last);
      10 * Value(digits[..|digits| - 1]) + (last - '0') as nat
  }

  lemma {:induction false} ValueOfDecimal(n: nat)
    ensures Value(Decimal(n)) == n
  {
    var digit := ['0' + (n % 10) as char];
    assert (digit[0] - '0') as nat == n % 10;
    if n < 10 {
      assert Decimal(n)[..0] == "";
    } else {
      ValueOfDecimal(n / 10);
      assert Decimal(n)[..|Decimal(n)| - 1] == Decimal(n / 10);
    }
  }

  /** How many digits a text starts with. */
  function Digits(s: string): (n: nat)
    ensures n <= |s| && (forall c <- s[..n] :: Digit(c)) && (n < |s| ==> !Digit(s[n]))
  {
    if s == "" || !Digit(s[0]) then 0
    else
      var n := Digits(s[1..]);
      assert s[..n + 1] == [s[0]] + s[1..][..n];
      n + 1
  }

  /** The number a text starts with, and what follows it. */
  function TakeNumber(s: string): Option<(nat, string)> {
    var n := Digits(s);
    if n == 0 then None else Some((Value(s[..n]), s[n..]))
  }

  lemma {:induction false} DigitsOf(d: string, rest: string)
    requires (forall c <- d :: Digit(c)) && (rest == "" || !Digit(rest[0]))
    ensures Digits(d + rest) == |d|
  {
    if d == "" {
      assert d + rest == rest;
    } else {
      assert (d + rest)[1..] == d[1..] + rest;
      DigitsOf(d[1..], rest);
    }
  }

  lemma TakeDecimal(n: nat, rest: string)
    requires rest == "" || !Digit(rest[0])
    ensures TakeNumber(Decimal(n) + rest) == Some((n, rest))
  {
    var s, d := Decimal(n) + rest, Decimal(n);
    ValueOfDecimal(n);
    DigitsOf(d, rest);
    assert s[..|d|] == d && s[|d|..] == rest;
  }

  // ----- text -----

  function ChannelName(channel: Channel): string {
    match channel
    case Alpha => "alpha"
    case Beta => "beta"
    case Rc => "rc"
    case Stable => "stable"
  }

  function PrintPre(pre: Option<Prerelease>): string {
    if pre.None? then "" else "-" + ChannelName(pre.value.channel) + "." + Decimal(pre.value.serial)
  }

  function Print(v: Version): string {
    Decimal(v.major) + "." + Decimal(v.minor) + "." + Decimal(v.patch) + PrintPre(v.pre)
  }

  /** A text after the prefix, if it starts with it. */
  function Without(prefix: string, s: string): Option<string> {
    if prefix <= s then Some(s[|prefix|..]) else None
  }

  function ParseSerial(channel: Channel, s: string): Option<Prerelease> {
    match Without("-" + ChannelName(channel) + ".", s)
    case None => None
    case Some(rest) =>
      match TakeNumber(rest)
      case None => None
      case Some((serial, end)) => if end == "" then Some(Prerelease(channel, serial)) else None
  }

  /** A number and the dot after it. */
  function TakePart(s: string): Option<(nat, string)> {
    match TakeNumber(s)
    case None => None
    case Some((n, rest)) => if rest != "" && rest[0] == '.' then Some((n, rest[1..])) else None
  }

  function ParsePre(s: string): Option<Option<Prerelease>> {
    if s == "" then Some(None)
    else if ParseSerial(Alpha, s).Some? then Some(ParseSerial(Alpha, s))
    else if ParseSerial(Beta, s).Some? then Some(ParseSerial(Beta, s))
    else if ParseSerial(Rc, s).Some? then Some(ParseSerial(Rc, s))
    else None
  }

  /** Reads a version; nothing may follow it. */
  function Parse(s: string): (v: Option<Version>)
    ensures v.Some? ==> Proper(v.value)
  {
    match TakePart(s)
    case None => None
    case Some((major, s1)) =>
      match TakePart(s1)
      case None => None
      case Some((minor, s2)) =>
        match TakeNumber(s2)
        case None => None
        case Some((patch, s3)) =>
          match ParsePre(s3)
          case None => None
          case Some(pre) => Some(Version(major, minor, patch, pre))
  }

  function ParseSeries(s: string): Option<(nat, nat)> {
    match TakePart(s)
    case None => None
    case Some((major, s1)) =>
      match TakeNumber(s1)
      case None => None
      case Some((minor, end)) => if end == "" then Some((major, minor)) else None
  }

  lemma TakePrintedPart(n: nat, rest: string)
    ensures TakePart(Decimal(n) + "." + rest) == Some((n, rest))
  {
    assert Decimal(n) + "." + rest == Decimal(n) + ("." + rest);
    TakeDecimal(n, "." + rest);
    assert ("." + rest)[1..] == rest;
  }

  lemma SerialOfOther(channel: Channel, other: Channel, rest: string)
    requires channel != other
    ensures ParseSerial(other, "-" + ChannelName(channel) + "." + rest).None?
  {
    var s := "-" + ChannelName(channel) + "." + rest;
    assert s[1] == ChannelName(channel)[0];
    assert ("-" + ChannelName(other) + ".")[1] == ChannelName(other)[0];
  }

  lemma ParsePrintedPre(pre: Option<Prerelease>)
    requires pre.Some? ==> pre.value.channel != Stable
    ensures ParsePre(PrintPre(pre)) == Some(pre)
    ensures PrintPre(pre) == "" || !Digit(PrintPre(pre)[0])
  {
    if pre.Some? {
      var channel, digits := pre.value.channel, Decimal(pre.value.serial);
      var prefix := "-" + ChannelName(channel) + ".";
      TakeDecimal(pre.value.serial, "");
      assert digits + "" == digits && (prefix + digits)[|prefix|..] == digits;
      assert ParseSerial(channel, prefix + digits) == Some(pre.value);
      forall other | other != channel
        ensures ParseSerial(other, prefix + digits).None?
      {
        SerialOfOther(channel, other, digits);
      }
    }
  }

  /** Reading a printed version returns it. */
  lemma ParsePrint(v: Version)
    requires Proper(v)
    ensures Parse(Print(v)) == Some(v)
  {
    var pre := PrintPre(v.pre);
    var s2 := Decimal(v.patch) + pre;
    var s1 := Decimal(v.minor) + "." + s2;
    assert Print(v) == Decimal(v.major) + "." + s1;
    TakePrintedPart(v.major, s1);
    TakePrintedPart(v.minor, s2);
    ParsePrintedPre(v.pre);
    TakeDecimal(v.patch, pre);
  }
}
