/** IPv4 addresses and networks as iptables reads them: four decimal numbers, and a prefix length. */
module Addresses {
  import opened Common
  import opened Text
  import Units

  /** `strings.Split`. */
  function Parts(s: string, c: char): (parts: seq<string>)
    ensures parts != []
    decreases |s|
  {
    var i := IndexOf(s, c);
    if i == |s| then [s] else [s[..i]] + Parts(s[i + 1..], c)
  }

  predicate IsNumber(s: string, max: nat) {
    s != "" && (forall i :: 0 <= i < |s| ==> IsDigit(s[i])) && Units.NumberValue(s) <= max
  }

  predicate IsAddress(s: string) {
    var parts := Parts(s, '.');
    |parts| == 4 && forall i :: 0 <= i < 4 ==> IsNumber(parts[i], 255)
  }

  /** The address as one number. */
  function AddressValue(s: string): nat
    requires IsAddress(s)
  {
    var p := Parts(s, '.');
    ((Units.NumberValue(p[0]) * 256 + Units.NumberValue(p[1])) * 256 + Units.NumberValue(p[2])) * 256 + Units.NumberValue(p[3])
  }

  /** How many addresses share a prefix. */
  function Block(length: nat): (size: nat)
    requires length <= 32
    ensures size > 0
    decreases 32 - length
  {
    if length == 32 then 1 else 2 * Block(length + 1)
  }

  datatype Network = Network(address: nat, length: nat)

  /** A single address is a network with the longest prefix. */
  function ReadNetwork(s: string): (r: Option<Network>)
    ensures r.Some? ==> r.value.length <= 32
  {
    var parts := Parts(s, '/');
    if !IsAddress(parts[0]) || |parts| > 2 || (|parts| == 2 && !IsNumber(parts[1], 32)) then None
    else Some(Network(AddressValue(parts[0]), if |parts| == 2 then Units.NumberValue(parts[1]) else 32))
  }

  /** Whether a text covers an address: both agree on the prefix. */
  predicate Covers(text: string, n: nat) {
    var r := ReadNetwork(text);
    r.Some? && n / Block(r.value.length) == r.value.address / Block(r.value.length)
  }

  // ---------------------------------------------------------------- reading what is written so

  function Dotted(a: nat, b: nat, c: nat, d: nat): string {
    Decimal(a) + "." + (Decimal(b) + "." + (Decimal(c) + "." + Decimal(d)))
  }

  lemma FirstPart(s: string, rest: string, c: char)
    requires c !in s
    ensures Parts(s + [c] + rest, c) == [s] + Parts(rest, c)
    ensures Parts(s, c) == [s]
  {
    IndexAfter(s, [c] + rest, c);
    assert s + [c] + rest == s + ([c] + rest);
    assert (s + ([c] + rest))[..|s|] == s && (s + ([c] + rest))[|s| + 1..] == rest;
    IndexAfter(s, "", c);
    assert s + "" == s;
  }

  lemma DecimalIsNumber(n: nat, max: nat)
    requires n <= max
    ensures IsNumber(Decimal(n), max) && Units.NumberValue(Decimal(n)) == n
    ensures '.' !in Decimal(n) && '/' !in Decimal(n)
  {
    Units.ValueOfDecimal(n);
  }

  lemma DottedIsRead(a: nat, b: nat, c: nat, d: nat)
    requires a <= 255 && b <= 255 && c <= 255 && d <= 255
    ensures IsAddress(Dotted(a, b, c, d)) && AddressValue(Dotted(a, b, c, d)) == ((a * 256 + b) * 256 + c) * 256 + d
    ensures '/' !in Dotted(a, b, c, d)
  {
    hide Decimal, IsNumber, Parts;
    DecimalIsNumber(a, 255);
    DecimalIsNumber(b, 255);
    DecimalIsNumber(c, 255);
    DecimalIsNumber(d, 255);
    var d3 := Decimal(d);
    var d2 := Decimal(c) + "." + d3;
    var d1 := Decimal(b) + "." + d2;
    FirstPart(Decimal(a), d1, '.');
    FirstPart(Decimal(b), d2, '.');
    FirstPart(Decimal(c), d3, '.');
    FirstPart(d3, "", '.');
    assert Parts(Dotted(a, b, c, d), '.') == [Decimal(a), Decimal(b), Decimal(c), d3];
  }

  /** A network written with its prefix length. */
  lemma NetworkIsRead(a: nat, b: nat, c: nat, d: nat, length: nat)
    requires a <= 255 && b <= 255 && c <= 255 && d <= 255 && length <= 32
    ensures ReadNetwork(Dotted(a, b, c, d) + "/" + Decimal(length)) == Some(Network(((a * 256 + b) * 256 + c) * 256 + d, length))
    ensures ReadNetwork(Dotted(a, b, c, d)) == Some(Network(((a * 256 + b) * 256 + c) * 256 + d, 32))
  {
    hide Decimal, Dotted, IsNumber, Parts, IsAddress, AddressValue;
    DottedIsRead(a, b, c, d);
    DecimalIsNumber(length, 32);
    FirstPart(Dotted(a, b, c, d), Decimal(length), '/');
    FirstPart(Decimal(length), "", '/');
  }

  /** A single address covers itself and nothing else. */
  lemma AddressCoversItself(a: nat, b: nat, c: nat, d: nat, n: nat)
    requires a <= 255 && b <= 255 && c <= 255 && d <= 255
    ensures Covers(Dotted(a, b, c, d), n) <==> n == ((a * 256 + b) * 256 + c) * 256 + d
  {
    NetworkIsRead(a, b, c, d, 32);
  }

  lemma DecimalDigits()
    ensures Decimal(0) == "0" && Decimal(8) == "8" && Decimal(10) == "10" && Decimal(16) == "16"
    ensures Decimal(169) == "169" && Decimal(254) == "254"
  {
    assert Digit(0) == '0' && Digit(1) == '1' && Digit(2) == '2' && Digit(4) == '4' && Digit(5) == '5';
    assert Digit(6) == '6' && Digit(8) == '8' && Digit(9) == '9';
    assert Decimal(1) == "1" && Decimal(2) == "2" && Decimal(16) == Decimal(1) + [Digit(6)] && Decimal(25) == Decimal(2) + [Digit(5)];
    assert Decimal(169) == Decimal(16) + [Digit(9)] && Decimal(254) == Decimal(25) + [Digit(4)];
  }

  lemma BlockSizes()
    ensures Block(16) == 65_536 && Block(8) == 16_777_216
  {
    assert Block(32) == 1 && Block(31) == 2 && Block(30) == 4 && Block(29) == 8 && Block(28) == 16;
    assert Block(27) == 32 && Block(26) == 64 && Block(25) == 128 && Block(24) == 256 && Block(23) == 512;
    assert Block(22) == 1024 && Block(21) == 2048 && Block(20) == 4096 && Block(19) == 8192 && Block(18) == 16_384;
    assert Block(17) == 32_768 && Block(16) == 65_536 && Block(15) == 131_072 && Block(14) == 262_144;
    assert Block(13) == 524_288 && Block(12) == 1_048_576 && Block(11) == 2_097_152 && Block(10) == 4_194_304 && Block(9) == 8_388_608;
  }

  /** The ten dot network is 10.0.0.0 to 10.255.255.255. */
  lemma TenNetwork(n: nat)
    ensures Covers("10.0.0.0/8", n) <==> 167_772_160 <= n <= 184_549_375
  {
    hide ReadNetwork, Block, Decimal;
    DecimalDigits();
    BlockSizes();
    NetworkIsRead(10, 0, 0, 0, 8);
    assert Dotted(10, 0, 0, 0) + "/" + Decimal(8) == "10.0.0.0/8";
  }

  /** The link-local network is 169.254.0.0 to 169.254.255.255. */
  lemma LinkLocalNetwork(n: nat)
    ensures Covers("169.254.0.0/16", n) <==> 2_851_995_648 <= n <= 2_852_061_183
  {
    hide ReadNetwork, Block, Decimal;
    DecimalDigits();
    BlockSizes();
    NetworkIsRead(169, 254, 0, 0, 16);
    assert Dotted(169, 254, 0, 0) + "/" + Decimal(16) == "169.254.0.0/16";
  }
}
