/** The SOCKS5 addresses of RFC 1928: the text a received address is turned into, and
    the address bytes a text is sent upstream as. */
module Socks5 {
  import opened Options
  import opened Texts

  type Byte = n: int | 0 <= n < 256

  const IPV4 := 1
  const DOMAIN := 3
  const IPV6 := 4

  datatype Result<+T> = Ok(value: T) | InvalidAddress | OutOfRange | TooLarge | EndedEarly | EmptyName | UnsupportedType

  // ----- Receiving: bytes to text -----

  /** `readUInt16BE`. */
  function Word(high: int, low: int): int { high * 256 + low }

  function Group(bytes: seq<Byte>, i: nat): (group: nat)
    requires 2 * i + 1 < |bytes|
    ensures group < 65536
  {
    Word(bytes[2 * i], bytes[2 * i + 1])
  }

  function HexGroups(bytes: seq<Byte>, count: nat): (groups: seq<string>)
    requires 2 * count <= |bytes|
    ensures |groups| == count && forall i :: 0 <= i < count ==> groups[i] == Digits(Group(bytes, i), 16)
  {
    seq(count, i requires 0 <= i < count => Digits(Group(bytes, i), 16))
  }

  method Ipv6Text(bytes: seq<Byte>) returns (text: string)
    requires |bytes| == 16
    ensures text == Join(HexGroups(bytes, 8), ":")
  {
    hide Digits;
    var groups: seq<string> := [];
    var index := 0;
    while index < 16
      invariant 0 <= index <= 16 && index % 2 == 0
      invariant groups == HexGroups(bytes, index / 2)
    {
      assert index == 2 * (index / 2);
      groups := groups + [Digits(Word(bytes[index], bytes[index + 1]), 16)];
      index := index + 2;
    }
    text := Join(groups, ":");
  }

  function Octets(bytes: seq<Byte>): (octets: seq<string>)
    ensures |octets| == |bytes| && forall i :: 0 <= i < |bytes| ==> octets[i] == Digits(bytes[i], 10)
  {
    seq(|bytes|, i requires 0 <= i < |bytes| => Digits(bytes[i], 10))
  }

  function AddressLength(addressType: int): nat { if addressType == IPV4 then 4 else 16 }

  /** The text of a received address. */
  function TargetText(addressType: int, bytes: seq<Byte>): string
    requires addressType in {IPV4, IPV6} && |bytes| == AddressLength(addressType)
  {
    if addressType == IPV4 then Join(Octets(bytes), ".") else Join(HexGroups(bytes, 8), ":")
  }

  /** What reading some bytes gives, with so many bytes left of the handshake's limit. */
  function Take(input: seq<Byte>, length: nat, limit: int): Result<seq<Byte>> {
    if length > limit then TooLarge else if length > |input| then EndedEarly else Ok(input[..length])
  }

  /** The target text, and how many bytes it was read from. `decode` is the decoding of
      host names. */
  function TargetOf(
    addressType: int, input: seq<Byte>, limit: int, decode: seq<Byte> -> string): (r: Result<(string, nat)>)
    ensures r.Ok? ==> r.value.1 <= |input|
  {
    if addressType in {IPV4, IPV6} then
      var bytes := Take(input, AddressLength(addressType), limit);
      if bytes.Ok? then Ok((TargetText(addressType, bytes.value), AddressLength(addressType)))
      else Failed(bytes)
    else if addressType == DOMAIN then
      var length := Take(input, 1, limit);
      if !length.Ok? then Failed(length)
      else if length.value[0] == 0 then EmptyName
      else
        var name := Take(input[1..], length.value[0], limit - 1);
        if name.Ok? then Ok((decode(name.value), 1 + |name.value|)) else Failed(name)
    else UnsupportedType
  }

  function Failed<T, U>(r: Result<T>): (f: Result<U>)
    requires !r.Ok?
    ensures !f.Ok?
  {
    match r
    case InvalidAddress => InvalidAddress
    case OutOfRange => OutOfRange
    case TooLarge => TooLarge
    case EndedEarly => EndedEarly
    case EmptyName => EmptyName
    case UnsupportedType => UnsupportedType
  }

  /** The reader of one handshake; `input` is what is still to arrive before the socket
      ends. */
  class HandshakeReader {
    var consumed: nat
    var input: seq<Byte>
    const maximumBytes: nat

    constructor (maximumBytes: nat, input: seq<Byte>)
      ensures this.maximumBytes == maximumBytes && this.input == input && consumed == 0
    {
      this.maximumBytes := maximumBytes;
      this.input := input;
      consumed := 0;
    }

    method Read(length: nat) returns (r: Result<seq<Byte>>)
      modifies this
      ensures consumed == old(consumed) + length
      ensures r == Take(old(input), length, maximumBytes - old(consumed))
      ensures input == if r.Ok? then old(input)[length..] else old(input)
    {
      consumed := consumed + length;
      if consumed > maximumBytes { return TooLarge; }
      if length > |input| { return EndedEarly; }
      r := Ok(input[..length]);
      input := input[length..];
    }

    /** The text read, with exactly the bytes of the address taken from the input. */
    method ReadTarget(addressType: int, decode: seq<Byte> -> string) returns (r: Result<string>)
      modifies this
      ensures var target := TargetOf(addressType, old(input), maximumBytes - old(consumed), decode);
              if target.Ok? then r == Ok(target.value.0) && input == old(input)[target.value.1..]
                && consumed == old(consumed) + target.value.1
              else r == Failed(target)
    {
      if addressType == IPV4 {
        var bytes := Read(4);
        if !bytes.Ok? { return Failed(bytes); }
        return Ok(Join(Octets(bytes.value), "."));
      }
      if addressType == IPV6 {
        var bytes := Read(16);
        if !bytes.Ok? { return Failed(bytes); }
        var text := Ipv6Text(bytes.value);
        return Ok(text);
      }
      if addressType == DOMAIN {
        var length := Read(1);
        if !length.Ok? { return Failed(length); }
        if length.value[0] == 0 { return EmptyName; }
        var name := Read(length.value[0]);
        if !name.Ok? { return Failed(name); }
        return Ok(decode(name.value));
      }
      r := UnsupportedType;
    }
  }

  // ----- Sending: text to groups -----

  /** The bits of either number. */
  function BitOr(a: nat, b: nat): nat {
    if a == 0 && b == 0 then 0
    else 2 * BitOr(a / 2, b / 2) + (if a % 2 == 1 || b % 2 == 1 then 1 else 0)
  }

  /** `(a << 8) | b` on 32-bit integers; a result with the sign bit set is as far out of
      the range of a group as the negative number it stands for. */
  function ShiftOr(a: nat, b: nat): nat { BitOr(a * 256 % 0x1_0000_0000, b % 0x1_0000_0000) }

  /** One part between colons: a hexadecimal group, or a dotted quad worth two groups. */
  function PartGroups(part: string): Option<seq<nat>> {
    if '.' in part then
      var octets := Split(part, ".");
      if |octets| < 4 then None
      else Some([ShiftOr(ToNumber(octets[0]), ToNumber(octets[1])), ShiftOr(ToNumber(octets[2]), ToNumber(octets[3]))])
    else Some([ParseInt(part, 16)])
  }

  function PartsGroups(parts: seq<string>): Option<seq<nat>> {
    if parts == [] then Some([])
    else
      var before, last := PartsGroups(parts[..|parts| - 1]), PartGroups(parts[|parts| - 1]);
      if before.None? || last.None? then None else Some(before.value + last.value)
  }

  function SideGroups(text: Option<string>): Option<seq<nat>> {
    if text.None? || text.value == "" then Some([]) else PartsGroups(Split(text.value, ":"))
  }

  lemma {:induction false} FailureStays(parts: seq<string>, k: nat)
    requires k <= |parts| && PartsGroups(parts[..k]).None?
    ensures PartsGroups(parts).None?
  {
    if k < |parts| {
      assert parts[..|parts| - 1][..k] == parts[..k];
      FailureStays(parts[..|parts| - 1], k);
    } else {
      assert parts[..k] == parts;
    }
  }

  /** parseSide: the groups of the text on one side of a double colon. */
  method ParseSide(text: Option<string>) returns (result: Option<seq<nat>>)
    ensures result == SideGroups(text)
  {
    if text.None? || text.value == "" { return Some([]); }
    var parts := Split(text.value, ":");
    var groups: seq<nat> := [];
    for i := 0 to |parts|
      invariant PartsGroups(parts[..i]) == Some(groups)
    {
      assert parts[..i + 1][..i] == parts[..i];
      if '.' in parts[i] {
        var octets := Split(parts[i], ".");
        if |octets| < 4 {
          FailureStays(parts, i + 1);
          return None;
        }
        groups := groups + [ShiftOr(ToNumber(octets[0]), ToNumber(octets[1])),
          ShiftOr(ToNumber(octets[2]), ToNumber(octets[3]))];
      } else {
        groups := groups + [ParseInt(parts[i], 16)];
      }
    }
    assert parts[..|parts|] == parts;
    result := Some(groups);
  }

  // ----- Sending: groups to bytes -----

  function Zeros(count: int): (z: seq<nat>)
    ensures |z| == (if count > 0 then count else 0) && forall i :: 0 <= i < |z| ==> z[i] == 0
  {
    seq(if count > 0 then count else 0, _ => 0)
  }

  /** The groups of the address, with the double colon filled in. */
  function AddressGroups(address: string): Option<seq<nat>> {
    var sides := Split(ToLower(address), "::");
    var left := SideGroups(Some(sides[0]));
    var right := SideGroups(if |sides| > 1 then Some(sides[1]) else None);
    if left.None? || right.None? then None
    else if IndexOf(address, "::").Some? then Some(left.value + Zeros(8 - |left.value| - |right.value|) + right.value)
    else left
  }

  predicate Writable(groups: seq<nat>) { |groups| <= 8 && forall i :: 0 <= i < |groups| ==> groups[i] < 65536 }

  /** The big-endian bytes of the groups; what is not written stays zero. */
  function GroupBytes(groups: seq<nat>): (bytes: seq<Byte>)
    requires Writable(groups)
    ensures |bytes| == 16
    ensures forall i :: 0 <= i < |groups| ==> Group(bytes, i) == groups[i]
    ensures forall i :: 2 * |groups| <= i < 16 ==> bytes[i] == 0
  {
    var bytes := seq(16, k requires 0 <= k < 16 =>
      if k / 2 >= |groups| then 0 else if k % 2 == 0 then groups[k / 2] / 256 else groups[k / 2] % 256);
    bytes
  }

  function AddressBytes(address: string): (r: Result<seq<Byte>>)
    ensures r.Ok? ==> |r.value| == 16
  {
    var groups := AddressGroups(address);
    if groups.None? then InvalidAddress
    else if !Writable(groups.value) then OutOfRange
    else Ok(GroupBytes(groups.value))
  }

  lemma BytesUnique(bytes: seq<Byte>, groups: seq<nat>)
    requires Writable(groups) && |bytes| == 16
    requires forall i :: 0 <= i < |groups| ==> bytes[2 * i] == groups[i] / 256 && bytes[2 * i + 1] == groups[i] % 256
    requires forall i :: 2 * |groups| <= i < 16 ==> bytes[i] == 0
    ensures bytes == GroupBytes(groups)
  {
    forall k | 0 <= k < 16 ensures bytes[k] == GroupBytes(groups)[k] {
      assert k == 2 * (k / 2) || k == 2 * (k / 2) + 1;
    }
  }

  /** The buffer of sixteen zeros is written group by group. */
  method WriteGroups(groups: seq<nat>) returns (r: Result<seq<Byte>>)
    ensures r == if Writable(groups) then Ok(GroupBytes(groups)) else OutOfRange
  {
    var output := new Byte[16](_ => 0);
    for index := 0 to |groups|
      invariant index <= 8
      invariant forall i :: 0 <= i < index ==> groups[i] < 65536
      invariant forall i :: 0 <= i < index ==> output[2 * i] == groups[i] / 256 && output[2 * i + 1] == groups[i] % 256
      invariant forall i :: 2 * index <= i < 16 ==> output[i] == 0
    {
      if groups[index] > 65535 || 2 * index + 2 > 16 { return OutOfRange; }
      output[2 * index] := groups[index] / 256;
      output[2 * index + 1] := groups[index] % 256;
    }
    BytesUnique(output[..], groups);
    r := Ok(output[..]);
  }

  method Ipv6Bytes(address: string) returns (r: Result<seq<Byte>>)
    ensures r == AddressBytes(address)
  {
    var sides := Split(ToLower(address), "::");
    var left := ParseSide(Some(sides[0]));
    if left.None? { return InvalidAddress; }
    var right := ParseSide(if |sides| > 1 then Some(sides[1]) else None);
    if right.None? { return InvalidAddress; }
    var groups := left.value;
    if IndexOf(address, "::").Some? {
      groups := left.value + Zeros(8 - |left.value| - |right.value|) + right.value;
    }
    r := WriteGroups(groups);
  }

  // ----- The textual forms of RFC 4291, section 2.2 -----

  /** Groups of one to four hexadecimal digits in either case, an optional double colon
      and an optional dotted quad at the end. */
  datatype Spelling =
    | Full(groups: seq<string>, quad: Option<seq<Byte>>)
    | Compressed(left: seq<string>, right: seq<string>, quad: Option<seq<Byte>>)

  predicate IsGroup(text: string) { 1 <= |text| <= 4 && AllDigits(text, 16) }

  predicate AreGroups(texts: seq<string>) { forall i :: 0 <= i < |texts| ==> IsGroup(texts[i]) }

  predicate IsQuad(quad: Option<seq<Byte>>) { quad.Some? ==> |quad.value| == 4 }

  function QuadSize(quad: Option<seq<Byte>>): nat { if quad.Some? then 2 else 0 }

  predicate WellFormed(s: Spelling) {
    && IsQuad(s.quad)
    && match s
       case Full(groups, quad) => AreGroups(groups) && |groups| + QuadSize(quad) == 8
       case Compressed(left, right, quad) =>
         AreGroups(left) && AreGroups(right) && |left| + |right| + QuadSize(quad) <= 7
  }

  /** The parts between colons at the end of the text. */
  function Parts(groups: seq<string>, quad: Option<seq<Byte>>): seq<string> {
    if quad.Some? then groups + [Join(Octets(quad.value), ".")] else groups
  }

  function Text(s: Spelling): string {
    match s
    case Full(groups, quad) => Join(Parts(groups, quad), ":")
    case Compressed(left, right, quad) => Join(left, ":") + "::" + Join(Parts(right, quad), ":")
  }

  function Values(groups: seq<string>): (v: seq<nat>)
    ensures |v| == |groups| && forall i :: 0 <= i < |groups| ==> v[i] == Value(groups[i], 16)
  {
    seq(|groups|, i requires 0 <= i < |groups| => Value(groups[i], 16))
  }

  function QuadGroups(quad: Option<seq<Byte>>): (v: seq<nat>)
    requires IsQuad(quad)
    ensures |v| == QuadSize(quad) && forall i :: 0 <= i < |v| ==> v[i] < 65536
  {
    if quad.Some? then [Group(quad.value, 0), Group(quad.value, 1)] else []
  }

  /** The eight groups a spelling stands for: zeros in place of the double colon. */
  function Denoted(s: Spelling): (v: seq<nat>)
    requires WellFormed(s)
    ensures |v| == 8
  {
    match s
    case Full(groups, quad) => Values(groups) + QuadGroups(quad)
    case Compressed(left, right, quad) =>
      Values(left) + Zeros(8 - |left| - |right| - QuadSize(quad)) + Values(right) + QuadGroups(quad)
  }

  // ----- Parts -----

  lemma {:induction false} BitOrLow(a: nat, b: nat, k: nat)
    requires b < Power(2, k)
    ensures BitOr(a * Power(2, k), b) == a * Power(2, k) + b
    decreases k
  {
    if k == 0 {
      BitOrZero(a);
    } else {
      var p := Power(2, k - 1);
      assert a * Power(2, k) == 2 * (a * p);
      BitOrLow(a, b / 2, k - 1);
    }
  }

  lemma {:induction false} BitOrZero(a: nat)
    ensures BitOr(a, 0) == a
  {
    if a > 0 { BitOrZero(a / 2); }
  }

  lemma ShiftOrOctets(a: Byte, b: Byte)
    ensures ShiftOr(a, b) == Word(a, b)
  {
    hide BitOr;
    TwoToEight();
    BitOrLow(a, b, 8);
  }

  lemma TwoToEight()
    ensures Power(2, 8) == 256
  {
    assert Power(2, 4) == 16;
  }

  lemma OctetRead(octet: Byte)
    ensures ToNumber(Digits(octet, 10)) == octet
    ensures '.' !in Digits(octet, 10) && ':' !in Digits(octet, 10) && Digits(octet, 10) != ""
  {
    DigitsRead(octet, 10);
  }

  lemma QuadSplits(quad: seq<Byte>)
    requires |quad| == 4
    ensures Split(Join(Octets(quad), "."), ".") == Octets(quad)
  {
    hide Split, Join, ToNumber, Digits;
    forall i | 0 <= i < 4 ensures '.' !in Octets(quad)[i] { OctetRead(quad[i]); }
    SplitJoin(Octets(quad), '.');
  }

  lemma QuadText(quad: seq<Byte>)
    requires |quad| == 4
    ensures var text := Join(Octets(quad), "."); '.' in text && ':' !in text && text != ""
  {
    var o := Octets(quad);
    OctetRead(quad[0]); OctetRead(quad[1]); OctetRead(quad[2]); OctetRead(quad[3]);
    assert Join(o[3..], ".") == o[3];
    assert Join(o[2..], ".") == o[2] + "." + o[3] by { assert o[2..][1..] == o[3..]; }
    assert Join(o[1..], ".") == o[1] + "." + (o[2] + "." + o[3]) by { assert o[1..][1..] == o[2..]; }
    assert (o[0] + ".")[|o[0]|] == '.';
  }

  lemma QuadPart(quad: seq<Byte>)
    requires |quad| == 4
    ensures PartGroups(Join(Octets(quad), ".")) == Some([Group(quad, 0), Group(quad, 1)])
  {
    hide ShiftOr, ToNumber, Split, Join, Digits;
    QuadText(quad);
    QuadSplits(quad);
    forall i | 0 <= i < 4 ensures ToNumber(Octets(quad)[i]) == quad[i] { OctetRead(quad[i]); }
    ShiftOrOctets(quad[0], quad[1]);
    ShiftOrOctets(quad[2], quad[3]);
  }

  lemma GroupPart(group: string)
    requires IsGroup(group)
    ensures ':' !in group && PartGroups(group) == Some([Value(group, 16)])
    ensures Value(group, 16) < 65536
  {
    assert forall i :: 0 <= i < |group| ==> IsDigit(group[i], 16);
    ParseAll(group, 16);
    ValueBound(group, 16);
    FourDigits(|group|);
  }

  lemma FourDigits(k: nat)
    requires k <= 4
    ensures Power(16, k) <= 65536
  {
    assert Power(16, 4) == 65536;
  }

  lemma {:induction false} GroupsPart(groups: seq<string>)
    requires AreGroups(groups)
    ensures PartsGroups(groups) == Some(Values(groups))
  {
    hide Value, PartGroups;
    if groups != [] {
      var front := groups[..|groups| - 1];
      GroupsPart(front);
      GroupPart(groups[|groups| - 1]);
      assert Values(groups) == Values(front) + [Value(groups[|groups| - 1], 16)];
    }
  }

  /** The parts at one side read as the groups they spell. */
  lemma PartsRead(groups: seq<string>, quad: Option<seq<Byte>>)
    requires AreGroups(groups) && IsQuad(quad)
    ensures PartsGroups(Parts(groups, quad)) == Some(Values(groups) + QuadGroups(quad))
    ensures forall i :: 0 <= i < |Parts(groups, quad)| ==>
      Parts(groups, quad)[i] != "" && ':' !in Parts(groups, quad)[i]
  {
    hide PartGroups, IsGroup;
    var parts := Parts(groups, quad);
    GroupsPart(groups);
    forall i | 0 <= i < |groups| ensures groups[i] != "" && ':' !in groups[i] { GroupShape(groups[i]); }
    if quad.Some? {
      QuadPart(quad.value);
      QuadText(quad.value);
      assert parts[..|parts| - 1] == groups;
    } else {
      assert Values(groups) + QuadGroups(quad) == Values(groups);
    }
  }

  lemma GroupShape(group: string)
    requires IsGroup(group)
    ensures group != "" && ':' !in group
  {
    GroupPart(group);
  }

  /** One side of a double colon, or the whole text without one. */
  lemma SideRead(groups: seq<string>, quad: Option<seq<Byte>>)
    requires AreGroups(groups) && IsQuad(quad)
    ensures var text := Join(Parts(groups, quad), ":");
      Spaced(text, ':') && SideGroups(Some(text)) == Some(Values(groups) + QuadGroups(quad))
  {
    hide PartsGroups, AreGroups, Spaced;
    var parts := Parts(groups, quad);
    PartsRead(groups, quad);
    JoinSpaced(parts, ':');
    if parts != [] { SplitJoin(parts, ':'); }
    else { assert groups == [] && Values(groups) + QuadGroups(quad) == []; }
  }

  // ----- Case -----

  function Lowered(s: Spelling): Spelling {
    match s
    case Full(groups, quad) => Full(LowerAll(groups), quad)
    case Compressed(left, right, quad) => Compressed(LowerAll(left), LowerAll(right), quad)
  }

  lemma LowerQuad(quad: seq<Byte>)
    ensures ToLower(Join(Octets(quad), ".")) == Join(Octets(quad), ".")
  {
    LowerJoin(Octets(quad), ".");
    forall i | 0 <= i < |quad| ensures ToLower(Octets(quad)[i]) == Octets(quad)[i] {
      DigitsRead(quad[i], 10);
      assert forall j :: 0 <= j < |Octets(quad)[i]| ==> IsDigit(Octets(quad)[i][j], 10);
    }
    assert LowerAll(Octets(quad)) == Octets(quad);
  }

  lemma LowerParts(groups: seq<string>, quad: Option<seq<Byte>>)
    ensures ToLower(Join(Parts(groups, quad), ":")) == Join(Parts(LowerAll(groups), quad), ":")
  {
    LowerJoin(Parts(groups, quad), ":");
    if quad.Some? {
      LowerQuad(quad.value);
      assert LowerAll(Parts(groups, quad)) == Parts(LowerAll(groups), quad);
    }
  }

  lemma LowerText(s: Spelling)
    ensures ToLower(Text(s)) == Text(Lowered(s))
  {
    match s
    case Full(groups, quad) => LowerParts(groups, quad);
    case Compressed(left, right, quad) =>
      LowerParts(left, None);
      LowerParts(right, quad);
      LowerConcat(Join(left, ":") + "::", Join(Parts(right, quad), ":"));
      LowerConcat(Join(left, ":"), "::");
      assert ToLower("::") == "::";
  }

  lemma LowerGroups(groups: seq<string>)
    requires AreGroups(groups)
    ensures AreGroups(LowerAll(groups)) && Values(LowerAll(groups)) == Values(groups)
  {
    hide Value, AllDigits;
    forall i | 0 <= i < |groups|
      ensures IsGroup(LowerAll(groups)[i]) && Value(LowerAll(groups)[i], 16) == Value(groups[i], 16) {
      assert IsGroup(groups[i]);
      LowerValue(groups[i], 16);
    }
  }

  lemma LoweredMeans(s: Spelling)
    requires WellFormed(s)
    ensures WellFormed(Lowered(s)) && Denoted(Lowered(s)) == Denoted(s)
  {
    hide AreGroups;
    match s
    case Full(groups, quad) => LowerGroups(groups);
    case Compressed(left, right, quad) => LowerGroups(left); LowerGroups(right);
  }

  // ----- Every spelling is sent as the address it denotes -----

  lemma ValuesFit(groups: seq<string>)
    requires AreGroups(groups)
    ensures forall i :: 0 <= i < |groups| ==> Values(groups)[i] < 65536
  {
    hide Value;
    forall i | 0 <= i < |groups| ensures Values(groups)[i] < 65536 { GroupPart(groups[i]); }
  }

  lemma DenotedFits(s: Spelling)
    requires WellFormed(s)
    ensures Writable(Denoted(s))
  {
    hide AreGroups;
    match s
    case Full(groups, quad) => ValuesFit(groups);
    case Compressed(left, right, quad) => ValuesFit(left); ValuesFit(right);
  }

  lemma SplitFull(groups: seq<string>, quad: Option<seq<Byte>>)
    requires AreGroups(groups) && IsQuad(quad)
    ensures var text := Join(Parts(groups, quad), ":");
      Split(text, "::") == [text] && IndexOf(text, "::").None?
  {
    SideRead(groups, quad);
    NoDoubleIn(Join(Parts(groups, quad), ":"), ':');
  }

  lemma SplitCompressed(left: seq<string>, right: seq<string>, quad: Option<seq<Byte>>)
    requires AreGroups(left) && AreGroups(right) && IsQuad(quad)
    ensures var l, r := Join(left, ":"), Join(Parts(right, quad), ":");
      Split(l + "::" + r, "::") == [l, r] && IndexOf(l + "::" + r, "::").Some?
  {
    SideRead(left, None);
    SideRead(right, quad);
    SplitDouble(Join(left, ":"), Join(Parts(right, quad), ":"), ':');
  }

  lemma GroupsRead(s: Spelling)
    requires WellFormed(s)
    ensures AddressGroups(Text(s)) == Some(Denoted(s))
  {
    hide AreGroups, PartsGroups, Split, IndexOf, Join, Parts;
    LowerText(s);
    LoweredMeans(s);
    match s
    case Full(groups, quad) =>
      SplitFull(LowerAll(groups), quad);
      SplitFull(groups, quad);
      SideRead(LowerAll(groups), quad);
      assert Denoted(Lowered(s)) == Values(LowerAll(groups)) + QuadGroups(quad);
    case Compressed(left, right, quad) =>
      CompressedRead(left, right, quad);
  }

  lemma SidesFilled(address: string, l: string, r: string, left: seq<nat>, right: seq<nat>)
    requires Split(ToLower(address), "::") == [l, r] && IndexOf(address, "::").Some?
    requires SideGroups(Some(l)) == Some(left) && SideGroups(Some(r)) == Some(right)
    ensures AddressGroups(address) == Some(left + Zeros(8 - |left| - |right|) + right)
  {
    hide SideGroups, Split, IndexOf;
  }

  lemma CompressedRead(left: seq<string>, right: seq<string>, quad: Option<seq<Byte>>)
    requires WellFormed(Compressed(left, right, quad))
    ensures AddressGroups(Text(Compressed(left, right, quad))) == Some(Denoted(Compressed(left, right, quad)))
  {
    hide AreGroups, SideGroups, Split, IndexOf, Join, AddressGroups;
    var s := Compressed(left, right, quad);
    LowerText(s);
    LowerGroups(left);
    LowerGroups(right);
    SplitCompressed(left, right, quad);
    SplitCompressed(LowerAll(left), LowerAll(right), quad);
    SideRead(LowerAll(left), None);
    SideRead(LowerAll(right), quad);
    var l, r := Values(left), Values(right) + QuadGroups(quad);
    assert Values(left) + QuadGroups(None) == l;
    SidesFilled(Text(s), Join(LowerAll(left), ":"), Join(Parts(LowerAll(right), quad), ":"), l, r);
    assert l + Zeros(8 - |l| - |r|) + r == Denoted(s);
  }

  /** Every RFC 4291 text of an address is sent as the sixteen bytes it denotes. */
  lemma SpellingSent(s: Spelling)
    requires WellFormed(s)
    ensures Writable(Denoted(s)) && AddressBytes(Text(s)) == Ok(GroupBytes(Denoted(s)))
  {
    hide Text, Denoted, AddressGroups;
    GroupsRead(s);
    DenotedFits(s);
  }

  // ----- The round trip -----

  /** `isIP` as far as it is relied on: dotted quads are version 4, RFC 4291 texts version 6. */
  ghost predicate Classifies(isIP: string -> int) {
    && (forall quad: seq<Byte> :: |quad| == 4 ==> isIP(Join(Octets(quad), ".")) == 4)
    && (forall s: Spelling :: WellFormed(s) ==> isIP(Text(s)) == 6)
  }

  /** Texts of the two families never coincide, so such a classification exists. */
  lemma FamiliesDiffer()
    ensures Classifies((text: string) => if ':' in text then 6 else 4)
  {
    forall quad: seq<Byte> | |quad| == 4 ensures ':' !in Join(Octets(quad), ".") { QuadText(quad); }
    forall s: Spelling | WellFormed(s) ensures ':' in Text(s) {
      match s
      case Full(groups, quad) =>
        var parts := Parts(groups, quad);
        assert (parts[0] + ":")[|parts[0]|] == ':';
      case Compressed(left, right, quad) =>
        assert (Join(left, ":") + "::")[|Join(left, ":")|] == ':';
    }
  }

  /** Buffer.from keeps the low eight bits. */
  function QuadBytes(host: string): seq<Byte> {
    var octets := Split(host, ".");
    seq(|octets|, i requires 0 <= i < |octets| => ToNumber(octets[i]) % 256)
  }

  /** socksAddress; `utf8` is the encoding of host names. */
  function SocksAddress(isIP: string -> int, utf8: string -> seq<Byte>, host: string): Result<seq<Byte>> {
    var family := isIP(host);
    if family == 4 then Ok([IPV4] + QuadBytes(host))
    else if family == 6 then
      var bytes := AddressBytes(host);
      if bytes.Ok? then Ok([IPV6] + bytes.value) else bytes
    else
      var domain := utf8(host);
      if |domain| == 0 || |domain| > 255 then InvalidAddress else Ok([DOMAIN, |domain|] + domain)
  }

  lemma QuadReturns(quad: seq<Byte>)
    requires |quad| == 4
    ensures QuadBytes(Join(Octets(quad), ".")) == quad
  {
    hide Split, Join, ToNumber, Digits;
    QuadSplits(quad);
    forall i | 0 <= i < 4 ensures ToNumber(Octets(quad)[i]) == quad[i] { OctetRead(quad[i]); }
  }

  lemma HexGroupsSpell(bytes: seq<Byte>)
    requires |bytes| == 16
    ensures AreGroups(HexGroups(bytes, 8))
    ensures forall i :: 0 <= i < 8 ==> Value(HexGroups(bytes, 8)[i], 16) == Group(bytes, i)
  {
    hide Value;
    assert Power(16, 4) == 65536;
    forall i | 0 <= i < 8
      ensures IsGroup(HexGroups(bytes, 8)[i]) && Value(HexGroups(bytes, 8)[i], 16) == Group(bytes, i)
    {
      DigitsRead(Group(bytes, i), 16);
      DigitsShort(Group(bytes, i), 16, 4);
    }
  }

  lemma GroupsReturn(bytes: seq<Byte>)
    requires |bytes| == 16
    ensures var s := Full(HexGroups(bytes, 8), None);
            WellFormed(s) && Writable(Denoted(s)) && GroupBytes(Denoted(s)) == bytes
  {
    hide Value, AreGroups;
    HexGroupsSpell(bytes);
    var s := Full(HexGroups(bytes, 8), None);
    DenotedFits(s);
    forall i | 0 <= i < 8 ensures bytes[2 * i] == Denoted(s)[i] / 256 && bytes[2 * i + 1] == Denoted(s)[i] % 256 {
      assert Denoted(s)[i] == Group(bytes, i);
    }
    BytesUnique(bytes, Denoted(s));
  }

  lemma NumericReturns(isIP: string -> int, utf8: string -> seq<Byte>, addressType: int, bytes: seq<Byte>)
    requires Classifies(isIP)
    requires addressType in {IPV4, IPV6} && |bytes| == AddressLength(addressType)
    ensures SocksAddress(isIP, utf8, TargetText(addressType, bytes)) == Ok([addressType] + bytes)
  {
    hide AddressBytes, QuadBytes;
    if addressType == IPV4 {
      QuadReturns(bytes);
    } else {
      GroupsReturn(bytes);
      var s := Full(HexGroups(bytes, 8), None);
      SpellingSent(s);
      assert TargetText(addressType, bytes) == Text(s);
    }
  }

  /** A host name that is not the text of a numeric address and survives decoding. */
  ghost predicate PlainName(
    isIP: string -> int, utf8: string -> seq<Byte>, decode: seq<Byte> -> string, name: seq<Byte>) {
    isIP(decode(name)) !in {4, 6} && utf8(decode(name)) == name
  }

  lemma NameReturns(
    isIP: string -> int, utf8: string -> seq<Byte>, decode: seq<Byte> -> string, name: seq<Byte>)
    requires 0 < |name| < 256
    ensures SocksAddress(isIP, utf8, decode(name)) == Ok([DOMAIN, |name|] + name)
      <==> PlainName(isIP, utf8, decode, name)
  {
    hide AddressBytes, QuadBytes;
    var host := decode(name);
    var sent, wanted := SocksAddress(isIP, utf8, host), [DOMAIN, |name|] + name;
    assert wanted[0] == DOMAIN && wanted[2..] == name;
    if isIP(host) !in {4, 6} && sent.Ok? { assert sent.value[2..] == utf8(host); }
  }

  /** A host name that spells a dotted quad or an RFC 4291 text is sent as that address. */
  lemma NumericNameIsAddress(isIP: string -> int, utf8: string -> seq<Byte>, quad: seq<Byte>, s: Spelling)
    requires Classifies(isIP) && |quad| == 4 && WellFormed(s)
    ensures SocksAddress(isIP, utf8, Join(Octets(quad), ".")) == Ok([IPV4] + quad)
    ensures Writable(Denoted(s)) && SocksAddress(isIP, utf8, Text(s)) == Ok([IPV6] + GroupBytes(Denoted(s)))
  {
    hide AddressBytes, QuadBytes, Denoted, Text;
    QuadReturns(quad);
    SpellingSent(s);
  }

  /** Every address that is read is sent upstream as the very bytes it was read from,
      behind the same address type; for host names if and only if they are plain. */
  lemma AddressReturns(
    isIP: string -> int, utf8: string -> seq<Byte>, decode: seq<Byte> -> string, addressType: int, input: seq<Byte>,
    limit: int)
    requires Classifies(isIP)
    requires TargetOf(addressType, input, limit, decode).Ok?
    ensures var target := TargetOf(addressType, input, limit, decode).value;
            SocksAddress(isIP, utf8, target.0) == Ok([addressType] + input[..target.1])
            <==> (addressType == DOMAIN ==> PlainName(isIP, utf8, decode, input[1..target.1]))
  {
    hide TargetText, SocksAddress, PlainName;
    if addressType == DOMAIN {
      var size := TargetOf(addressType, input, limit, decode).value.1;
      assert input[1..][..size - 1] == input[1..size];
      assert [DOMAIN, size - 1] + input[1..size] == [DOMAIN] + input[..size];
      NameReturns(isIP, utf8, decode, input[1..size]);
    } else {
      NumericReturns(isIP, utf8, addressType, input[..AddressLength(addressType)]);
    }
  }

  /** Two received addresses of one type with the same text are the same. */
  lemma TextsDiffer(isIP: string -> int, utf8: string -> seq<Byte>, addressType: int, a: seq<Byte>, b: seq<Byte>)
    requires Classifies(isIP)
    requires addressType in {IPV4, IPV6} && |a| == |b| == AddressLength(addressType)
    ensures TargetText(addressType, a) == TargetText(addressType, b) ==> a == b
  {
    NumericReturns(isIP, utf8, addressType, a);
    NumericReturns(isIP, utf8, addressType, b);
    assert ([addressType] + a)[1..] == a && ([addressType] + b)[1..] == b;
  }

  /** Groups are printed in network order, octets one by one, and each address goes out
      behind its type. */
  lemma TextMeans(isIP: string -> int, utf8: string -> seq<Byte>, six: seq<Byte>, four: seq<Byte>)
    requires Classifies(isIP) && |six| == 16 && |four| == 4
    ensures forall i :: 0 <= i < 8 ==>
      Value(HexGroups(six, 8)[i], 16) == 256 * six[2 * i] as int + six[2 * i + 1] as int
    ensures forall i :: 0 <= i < 4 ==> Value(Octets(four)[i], 10) == four[i]
    ensures SocksAddress(isIP, utf8, Join(HexGroups(six, 8), ":")) == Ok([4] + six)
    ensures SocksAddress(isIP, utf8, Join(Octets(four), ".")) == Ok([1] + four)
  {
    hide Value, SocksAddress;
    HexGroupsSpell(six);
    NumericReturns(isIP, utf8, 4, six);
    NumericReturns(isIP, utf8, 1, four);
    forall i | 0 <= i < 4 ensures Value(Octets(four)[i], 10) == four[i] { DigitsRead(four[i], 10); }
  }

  /** The digits of some numbers. */
  lemma KnownDigits()
    ensures Digits(0xdb8, 16) == "db8" && Digits(0, 16) == "0" && Digits(127, 10) == "127"
  {
    assert Digits(0xd, 16) == "d" && Digits(0xdb, 16) == "db" && Digits(12, 10) == "12";
  }
}
