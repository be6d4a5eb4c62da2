/** Monero portable storage (EPEE): skipping a value of unknown shape within a nesting limit and a work
    budget, against the encoding it is meant to skip. */
module Epee {
  import opened Chain

  type Byte = x: nat | x < 256

  const MAX_NESTING: nat := 64
  const MAX_SKIP_VALUES: nat := 1_000_000

  // ---------------------------------------------------------------------------------------------
  // Variable-length integers
  // ---------------------------------------------------------------------------------------------

  function Pow256(k: nat): (r: nat)
    ensures r > 0
  {
    if k == 0 then 1 else 256 * Pow256(k - 1)
  }

  /** Little endian. */
  function Value256(bytes: seq<Byte>): nat {
    if bytes == [] then 0 else bytes[0] + 256 * Value256(bytes[1..])
  }

  function Bytes256(n: nat, k: nat): (r: seq<Byte>)
    ensures |r| == k
  {
    if k == 0 then [] else [n % 256] + Bytes256(n / 256, k - 1)
  }

  lemma {:induction false} ValueOfBytes(n: nat, k: nat)
    requires n < Pow256(k)
    ensures Value256(Bytes256(n, k)) == n
  {
    if k > 0 {
      ValueOfBytes(n / 256, k - 1);
      assert Bytes256(n, k)[1..] == Bytes256(n / 256, k - 1);
    }
  }

  lemma Split256(low: Byte, high: nat)
    ensures (low + 256 * high) % 256 == low && (low + 256 * high) / 256 == high
  {}

  lemma {:induction false} BytesOfValue(bytes: seq<Byte>)
    ensures Value256(bytes) < Pow256(|bytes|) && Bytes256(Value256(bytes), |bytes|) == bytes
  {
    if bytes != [] {
      var tail := bytes[1..];
      BytesOfValue(tail);
      Split256(bytes[0], Value256(tail));
      assert Bytes256(Value256(bytes), |bytes|) == [bytes[0]] + Bytes256(Value256(tail), |tail|);
      assert bytes == [bytes[0]] + tail;
    }
  }

  /** The low two bits of the first byte give the width. */
  function VarintWidth(first: Byte): (w: nat)
    ensures 1 <= w <= 8
  {
    if first % 4 == 0 then 1 else if first % 4 == 1 then 2 else if first % 4 == 2 then 4 else 8
  }

  datatype Varint = Varint(value: nat, width: nat)

  /** `peek_epee_varint_u64`. */
  function PeekVarint(bytes: seq<Byte>): (r: Option<Varint>)
    ensures r.Some? ==> 1 <= r.value.width <= |bytes|
  {
    if bytes == [] then None
    else
      var w := VarintWidth(bytes[0]);
      if |bytes| < w then None else Some(Varint(Value256(bytes[..w]) / 4, w))
  }

  /** `size` 0 to 3, kept in the low two bits, chooses one, two, four or eight bytes; any that fits is an encoding. */
  predicate VarintFits(n: nat, size: nat) {
    match size
    case 0 => n < 0x40
    case 1 => n < 0x4000
    case 2 => n < 0x4000_0000
    case 3 => n < 0x4000_0000_0000_0000
    case _ => false
  }

  function EncodeVarint(n: nat, size: nat): seq<Byte>
    requires VarintFits(n, size)
  {
    match size
    case 0 => Bytes256(4 * n, 1)
    case 1 => Bytes256(4 * n + 1, 2)
    case 2 => Bytes256(4 * n + 2, 4)
    case 3 => Bytes256(4 * n + 3, 8)
  }

  lemma Powers()
    ensures Pow256(1) == 0x100 && Pow256(2) == 0x1_0000 && Pow256(4) == 0x1_0000_0000 && Pow256(8) == 0x1_0000_0000_0000_0000
  {
    assert Pow256(3) == 0x100_0000 && Pow256(5) == 0x100_0000_0000;
    assert Pow256(6) == 0x1_0000_0000_0000 && Pow256(7) == 0x100_0000_0000_0000;
  }

  /** The width read off the low bits is the width written. */
  lemma EncodedAs(n: nat, size: nat)
    ensures VarintFits(n, size) <==> size < 4 && 4 * n + size < Pow256(VarintWidth(size))
    ensures VarintFits(n, size) ==> EncodeVarint(n, size) == Bytes256(4 * n + size, VarintWidth(size))
  {
    Powers();
  }

  /** What was encoded is read back, whatever follows. */
  lemma VarintRoundTrip(n: nat, size: nat, suffix: seq<Byte>)
    requires VarintFits(n, size)
    ensures PeekVarint(EncodeVarint(n, size) + suffix) == Some(Varint(n, |EncodeVarint(n, size)|))
    ensures |EncodeVarint(n, size)| == VarintWidth(size)
  {
    EncodedAs(n, size);
    var code, x := EncodeVarint(n, size), 4 * n + size;
    ValueOfBytes(x, VarintWidth(size));
    SizeBits(n, size, x);
    assert code[0] == x % 256;
    PeekPrefix(code, suffix);
  }

  lemma SizeBits(n: nat, size: nat, x: nat)
    requires size < 4 && x == 4 * n + size
    ensures (x % 256) % 4 == size && x / 4 == n
  {
    var q := x / 256;
    assert x == 256 * q + x % 256;
    assert x % 256 == 4 * (n - 64 * q) + size;
  }

  lemma PeekPrefix(code: seq<Byte>, suffix: seq<Byte>)
    requires code != [] && |code| == VarintWidth(code[0])
    ensures PeekVarint(code + suffix) == Some(Varint(Value256(code) / 4, |code|))
  {
    assert (code + suffix)[..|code|] == code;
  }

  lemma LowBits(first: nat, higher: nat)
    ensures (first + 256 * higher) % 4 == first % 4
  {
    assert first + 256 * higher == first + 4 * (64 * higher);
  }

  lemma LowBitsOf(code: seq<Byte>, n: nat)
    requires code != [] && n == Value256(code)
    ensures n == 4 * (n / 4) + code[0] % 4
  {
    LowBits(code[0], Value256(code[1..]));
  }

  lemma WidthOfSize(first: Byte)
    ensures first % 4 < 4 && VarintWidth(first % 4) == VarintWidth(first)
  {}

  /** What is read was encoded. */
  lemma VarintWasEncoded(bytes: seq<Byte>)
    requires PeekVarint(bytes).Some?
    ensures var v, size := PeekVarint(bytes).value, bytes[0] % 4;
      && VarintFits(v.value, size) && VarintWidth(size) == v.width
      && EncodeVarint(v.value, size) == bytes[..v.width]
  {
    var w := VarintWidth(bytes[0]);
    var code := bytes[..w];
    BytesOfValue(code);
    LowBitsOf(code, Value256(code));
    WidthOfSize(bytes[0]);
    assert code[0] == bytes[0];
    EncodedAs(PeekVarint(bytes).value.value, bytes[0] % 4);
  }

  // ---------------------------------------------------------------------------------------------
  // Encoded values
  // ---------------------------------------------------------------------------------------------

  /** A number by its kind and its bits. */
  datatype Scalar =
    | I64(bits: nat) | I32(bits: nat) | I16(bits: nat) | I8(bits: nat)
    | U64(bits: nat) | U32(bits: nat) | U16(bits: nat) | U8(bits: nat)
    | F64(bits: nat) | Bool(bits: nat)

  predicate ScalarFits(s: Scalar) {
    match s
    case I64(n) => n < 0x1_0000_0000_0000_0000
    case U64(n) => n < 0x1_0000_0000_0000_0000
    case F64(n) => n < 0x1_0000_0000_0000_0000
    case I32(n) => n < 0x1_0000_0000
    case U32(n) => n < 0x1_0000_0000
    case I16(n) => n < 0x1_0000
    case U16(n) => n < 0x1_0000
    case I8(n) => n < 0x100
    case U8(n) => n < 0x100
    case Bool(n) => n < 0x100
  }

  function ScalarMarker(s: Scalar): Byte {
    match s
    case I64(_) => 0x01
    case I32(_) => 0x02
    case I16(_) => 0x03
    case I8(_) => 0x04
    case U64(_) => 0x05
    case U32(_) => 0x06
    case U16(_) => 0x07
    case U8(_) => 0x08
    case F64(_) => 0x09
    case Bool(_) => 0x0b
  }

  /** Little endian, in the width of the kind. */
  function ScalarBytes(s: Scalar): seq<Byte> {
    match s
    case I64(n) => Bytes256(n, 8)
    case U64(n) => Bytes256(n, 8)
    case F64(n) => Bytes256(n, 8)
    case I32(n) => Bytes256(n, 4)
    case U32(n) => Bytes256(n, 4)
    case I16(n) => Bytes256(n, 2)
    case U16(n) => Bytes256(n, 2)
    case I8(n) => Bytes256(n, 1)
    case U8(n) => Bytes256(n, 1)
    case Bool(n) => Bytes256(n, 1)
  }

  /** `size` fields are the widths chosen for the length prefixes. */
  datatype Value =
    | Number(scalar: Scalar)
    | Blob(size: nat, bytes: seq<Byte>)
    | Array(element: Byte, size: nat, elements: seq<Value>)
    | Object(size: nat, fields: seq<Field>)

  datatype Field = Field(name: seq<Byte>, value: Value)

  function Marker(v: Value): Byte {
    match v
    case Number(n) => ScalarMarker(n)
    case Blob(_, _) => 0x0a
    case Array(m, _, _) => if m < 0x80 then m + 0x80 else m
    case Object(_, _) => 0x0c
  }

  /** Elements carry no marker of their own: they all have the array's, and so are never arrays. */
  predicate Encodable(v: Value) {
    match v
    case Number(n) => ScalarFits(n)
    case Blob(size, bytes) => VarintFits(|bytes|, size)
    case Array(m, size, elements) => m < 0x80 && VarintFits(|elements|, size) && AllEncodable(elements, m)
    case Object(size, fields) => VarintFits(|fields|, size) && FieldsEncodable(fields)
  }

  predicate AllEncodable(vs: seq<Value>, marker: Byte) {
    vs != [] ==> Encodable(vs[0]) && Marker(vs[0]) == marker && AllEncodable(vs[1..], marker)
  }

  predicate FieldsEncodable(fs: seq<Field>) {
    fs != [] ==> |fs[0].name| < 256 && Encodable(fs[0].value) && FieldsEncodable(fs[1..])
  }

  /** The bytes after the marker. */
  function Body(v: Value): seq<Byte>
    requires Encodable(v)
    decreases v, 0
  {
    match v
    case Number(n) => ScalarBytes(n)
    case Blob(size, bytes) => EncodeVarint(|bytes|, size) + bytes
    case Array(m, size, elements) => EncodeVarint(|elements|, size) + Bodies(elements, m)
    case Object(size, fields) => EncodeVarint(|fields|, size) + FieldBytes(fields)
  }

  function Bodies(vs: seq<Value>, marker: Byte): seq<Byte>
    requires AllEncodable(vs, marker)
    decreases vs, 0
  {
    if vs == [] then [] else Body(vs[0]) + Bodies(vs[1..], marker)
  }

  function FieldBytes(fs: seq<Field>): seq<Byte>
    requires FieldsEncodable(fs)
    decreases fs, 0
  {
    if fs == [] then [] else [|fs[0].name|] + fs[0].name + Encode(fs[0].value) + FieldBytes(fs[1..])
  }

  function Encode(v: Value): seq<Byte>
    requires Encodable(v)
    decreases v, 1
  {
    [Marker(v)] + Body(v)
  }

  function Nodes(v: Value): (n: nat)
    ensures n >= 1
  {
    match v
    case Array(_, _, elements) => 1 + NodesOf(elements)
    case Object(_, fields) => 1 + FieldNodes(fields)
    case _ => 1
  }

  function NodesOf(vs: seq<Value>): (n: nat)
    ensures n >= |vs|
  {
    if vs == [] then 0 else Nodes(vs[0]) + NodesOf(vs[1..])
  }

  function FieldNodes(fs: seq<Field>): (n: nat)
    ensures n >= |fs|
  {
    if fs == [] then 0 else Nodes(fs[0].value) + FieldNodes(fs[1..])
  }

  function Max(a: nat, b: nat): nat { if a > b then a else b }

  /** A value without children has height 1. */
  function Height(v: Value): (h: nat)
    ensures h >= 1
  {
    match v
    case Array(_, _, elements) => 1 + HeightOf(elements)
    case Object(_, fields) => 1 + FieldHeight(fields)
    case _ => 1
  }

  function HeightOf(vs: seq<Value>): nat {
    if vs == [] then 0 else Max(Height(vs[0]), HeightOf(vs[1..]))
  }

  function FieldHeight(fs: seq<Field>): nat {
    if fs == [] then 0 else Max(Height(fs[0].value), FieldHeight(fs[1..]))
  }

  // ---------------------------------------------------------------------------------------------
  // Skipping
  // ---------------------------------------------------------------------------------------------

  /** What is left to read and how much work is left, or an error. */
  datatype Skipped = Done(rest: seq<Byte>, budget: nat) | Error

  function Left(depth: nat): nat { if depth < MAX_NESTING then MAX_NESTING - depth else 0 }

  /** The widths as the skipper knows them. */
  function FixedWidth(marker: Byte): Option<nat> {
    if marker in {0x01, 0x05, 0x09} then Some(8)
    else if marker in {0x02, 0x06} then Some(4)
    else if marker in {0x03, 0x07} then Some(2)
    else if marker in {0x04, 0x08, 0x0b} then Some(1)
    else None
  }

  /** A value whose marker was read already. */
  function Skip(bytes: seq<Byte>, marker: Byte, depth: nat, budget: nat): Skipped
    decreases Left(depth), 0
  {
    if depth >= MAX_NESTING || budget == 0 then Error
    else if marker >= 0x80 then
      (match PeekVarint(bytes)
       case None => Error
       case Some(n) => if n.value > budget - 1 then Error else SkipElements(bytes[n.width..], marker - 0x80, n.value, depth + 1, budget - 1))
    else if FixedWidth(marker).Some? then
      (if |bytes| < FixedWidth(marker).value then Error else Done(bytes[FixedWidth(marker).value..], budget - 1))
    else if marker == 0x0a then
      (match PeekVarint(bytes)
       case None => Error
       case Some(n) => if |bytes| - n.width < n.value then Error else Done(bytes[n.width + n.value..], budget - 1))
    else if marker == 0x0c then
      (match PeekVarint(bytes)
       case None => Error
       case Some(n) => if n.value > budget - 1 then Error else SkipFields(bytes[n.width..], n.value, depth + 1, budget - 1))
    else Error
  }

  function SkipElements(bytes: seq<Byte>, marker: Byte, count: nat, depth: nat, budget: nat): Skipped
    decreases Left(depth), count
  {
    if count == 0 then Done(bytes, budget)
    else
      match Skip(bytes, marker, depth, budget)
      case Error => Error
      case Done(rest, left) => SkipElements(rest, marker, count - 1, depth, left)
  }

  /** The value behind a field name, or nothing when the name is cut short. */
  function AfterName(bytes: seq<Byte>): Option<seq<Byte>> {
    if bytes == [] || |bytes| - 1 < bytes[0] then None else Some(bytes[1 + bytes[0]..])
  }

  /** A value with its marker in front. */
  function SkipMarked(bytes: seq<Byte>, depth: nat, budget: nat): Skipped
    decreases Left(depth), 1
  {
    if bytes == [] then Error else Skip(bytes[1..], bytes[0], depth, budget)
  }

  function SkipFields(bytes: seq<Byte>, count: nat, depth: nat, budget: nat): Skipped
    decreases Left(depth), count + 2
  {
    if count == 0 then Done(bytes, budget)
    else
      match AfterName(bytes)
      case None => Error
      case Some(value) =>
        match SkipMarked(value, depth, budget)
        case Error => Error
        case Done(rest, left) => SkipFields(rest, count - 1, depth, left)
  }

  // ---------------------------------------------------------------------------------------------
  // Encoded values are skipped exactly
  // ---------------------------------------------------------------------------------------------

  /** What skipping should give, for a subtree of this size. */
  function Outcome(height: nat, nodes: nat, depth: nat, budget: nat, suffix: seq<Byte>): Skipped {
    if depth + height <= MAX_NESTING && nodes <= budget then Done(suffix, budget - nodes) else Error
  }

  /** An encoded value is skipped to its very end, with its node count taken from the budget, exactly when
      it is not nested too deep and has no more nodes than the budget. */
  lemma {:induction false} SkipsExactly(v: Value, suffix: seq<Byte>, depth: nat, budget: nat)
    requires Encodable(v)
    ensures Skip(Body(v) + suffix, Marker(v), depth, budget) == Outcome(Height(v), Nodes(v), depth, budget, suffix)
    decreases v, 1
  {
    if depth < MAX_NESTING && budget > 0 {
      match v
      case Number(n) => SkipsNumber(n, suffix);
      case Blob(size, bytes) => SkipsBlob(size, bytes, suffix, depth, budget);
      case Array(m, size, elements) =>
        SkipsElements(elements, m, suffix, depth + 1, budget - 1);
        SkipsArray(v, suffix, depth, budget);
      case Object(size, fields) =>
        SkipsFields(fields, suffix, depth + 1, budget - 1);
        SkipsObject(v, suffix, depth, budget);
    }
  }

  lemma SkipsNumber(n: Scalar, suffix: seq<Byte>)
    ensures FixedWidth(ScalarMarker(n)) == Some(|ScalarBytes(n)|) && (ScalarBytes(n) + suffix)[|ScalarBytes(n)|..] == suffix
  {}

  lemma SkipsArray(v: Value, suffix: seq<Byte>, depth: nat, budget: nat)
    requires v.Array? && Encodable(v) && depth < MAX_NESTING && budget > 0
    requires SkipElements(Bodies(v.elements, v.element) + suffix, v.element, |v.elements|, depth + 1, budget - 1)
          == Outcome(HeightOf(v.elements), NodesOf(v.elements), depth + 1, budget - 1, suffix)
    ensures Skip(Body(v) + suffix, Marker(v), depth, budget) == Outcome(Height(v), Nodes(v), depth, budget, suffix)
  {
    AfterVarint(|v.elements|, v.size, Bodies(v.elements, v.element), suffix);
  }

  lemma SkipsObject(v: Value, suffix: seq<Byte>, depth: nat, budget: nat)
    requires v.Object? && Encodable(v) && depth < MAX_NESTING && budget > 0
    requires SkipFields(FieldBytes(v.fields) + suffix, |v.fields|, depth + 1, budget - 1)
          == Outcome(FieldHeight(v.fields), FieldNodes(v.fields), depth + 1, budget - 1, suffix)
    ensures Skip(Body(v) + suffix, Marker(v), depth, budget) == Outcome(Height(v), Nodes(v), depth, budget, suffix)
  {
    AfterVarint(|v.fields|, v.size, FieldBytes(v.fields), suffix);
  }

  lemma AfterVarint(n: nat, size: nat, body: seq<Byte>, suffix: seq<Byte>)
    requires VarintFits(n, size)
    ensures var all := EncodeVarint(n, size) + body + suffix;
      PeekVarint(all) == Some(Varint(n, VarintWidth(size))) && all[VarintWidth(size)..] == body + suffix
  {
    var code := EncodeVarint(n, size);
    VarintRoundTrip(n, size, body + suffix);
    assert code + body + suffix == code + (body + suffix);
  }

  lemma SkipsBlob(size: nat, bytes: seq<Byte>, suffix: seq<Byte>, depth: nat, budget: nat)
    requires VarintFits(|bytes|, size) && depth < MAX_NESTING && budget > 0
    ensures Skip(EncodeVarint(|bytes|, size) + bytes + suffix, 0x0a, depth, budget) == Done(suffix, budget - 1)
  {
    AfterVarint(|bytes|, size, bytes, suffix);
    var all, w := EncodeVarint(|bytes|, size) + bytes + suffix, VarintWidth(size);
    assert all[w + |bytes|..] == all[w..][|bytes|..] == suffix;
  }

  lemma {:induction false} SkipsElements(vs: seq<Value>, marker: Byte, suffix: seq<Byte>, depth: nat, budget: nat)
    requires AllEncodable(vs, marker) && depth <= MAX_NESTING
    ensures SkipElements(Bodies(vs, marker) + suffix, marker, |vs|, depth, budget) == Outcome(HeightOf(vs), NodesOf(vs), depth, budget, suffix)
    decreases vs, 0
  {
    if vs == [] {
      assert Bodies(vs, marker) + suffix == suffix;
    } else {
      var tail := Bodies(vs[1..], marker) + suffix;
      assert Bodies(vs, marker) + suffix == Body(vs[0]) + tail;
      SkipsExactly(vs[0], tail, depth, budget);
      var first := Outcome(Height(vs[0]), Nodes(vs[0]), depth, budget, tail);
      if first.Done? {
        SkipsElements(vs[1..], marker, suffix, depth, first.budget);
      }
    }
  }

  lemma SkipsMarked(v: Value, tail: seq<Byte>, depth: nat, budget: nat)
    requires Encodable(v) && depth <= MAX_NESTING
    requires Skip(Body(v) + tail, Marker(v), depth, budget) == Outcome(Height(v), Nodes(v), depth, budget, tail)
    ensures SkipMarked(Encode(v) + tail, depth, budget) == Outcome(Height(v), Nodes(v), depth, budget, tail)
  {
    HeadTail(Marker(v), Body(v), tail);
  }

  lemma HeadTail(m: Byte, body: seq<Byte>, tail: seq<Byte>)
    ensures var all := [m] + body + tail; all != [] && all[0] == m && all[1..] == body + tail
  {}

  lemma FieldFirst(fs: seq<Field>, suffix: seq<Byte>)
    requires FieldsEncodable(fs) && fs != []
    ensures AfterName(FieldBytes(fs) + suffix) == Some(Encode(fs[0].value) + (FieldBytes(fs[1..]) + suffix))
  {
    var name, code, more := fs[0].name, Encode(fs[0].value), FieldBytes(fs[1..]);
    NameSkipped(name, code + (more + suffix));
    Regroup([|name|] + name, code, more, suffix);
  }

  lemma Regroup(a: seq<Byte>, b: seq<Byte>, c: seq<Byte>, d: seq<Byte>)
    ensures a + b + c + d == a + (b + (c + d))
  {}

  lemma {:induction false} SkipsFields(fs: seq<Field>, suffix: seq<Byte>, depth: nat, budget: nat)
    requires FieldsEncodable(fs) && depth <= MAX_NESTING
    ensures SkipFields(FieldBytes(fs) + suffix, |fs|, depth, budget) == Outcome(FieldHeight(fs), FieldNodes(fs), depth, budget, suffix)
    decreases fs, 0
  {
    if fs == [] {
      assert FieldBytes(fs) + suffix == suffix;
    } else {
      var v, tail := fs[0].value, FieldBytes(fs[1..]) + suffix;
      FieldFirst(fs, suffix);
      SkipsExactly(v, tail, depth, budget);
      SkipsMarked(v, tail, depth, budget);
      var first := Outcome(Height(v), Nodes(v), depth, budget, tail);
      if first.Done? {
        SkipsFields(fs[1..], suffix, depth, first.budget);
      }
    }
  }

  lemma NameSkipped(name: seq<Byte>, rest: seq<Byte>)
    requires |name| < 256
    ensures AfterName([|name|] + name + rest) == Some(rest)
  {
    var all := [|name|] + name + rest;
    assert all[1 + |name|..] == rest;
  }

  // ---------------------------------------------------------------------------------------------
  // Only encoded values are skipped
  // ---------------------------------------------------------------------------------------------

  /** The skipped bytes are the body of a value of this marker and size. */
  ghost predicate Explained(v: Value, bytes: seq<Byte>, marker: Byte, depth: nat, budget: nat, r: Skipped) {
    && r.Done? && Encodable(v) && Marker(v) == marker && bytes == Body(v) + r.rest
    && depth + Height(v) <= MAX_NESTING && budget == r.budget + Nodes(v)
  }

  lemma {:induction false} SkippedWasEncoded(bytes: seq<Byte>, marker: Byte, depth: nat, budget: nat) returns (v: Value)
    requires Skip(bytes, marker, depth, budget).Done?
    ensures Explained(v, bytes, marker, depth, budget, Skip(bytes, marker, depth, budget))
    decreases Left(depth), 0
  {
    if FixedWidth(marker).Some? {
      v := SkippedNumber(bytes, marker, depth, budget);
    } else {
      var n, size := PeekVarint(bytes).value, bytes[0] % 4;
      if marker >= 0x80 {
        var vs := ElementsWereEncoded(bytes[n.width..], marker - 0x80, n.value, depth + 1, budget - 1);
        v := Array(marker - 0x80, size, vs);
        ArrayExplained(bytes, marker, depth, budget, vs, v, n, size);
      } else if marker == 0x0a {
        v := SkippedBlob(bytes, depth, budget);
      } else {
        var fs := FieldsWereEncoded(bytes[n.width..], n.value, depth + 1, budget - 1);
        v := Object(size, fs);
        ObjectExplained(bytes, depth, budget, fs, v, n, size);
      }
    }
  }

  /** Any bytes of the right width are a number of that marker. */
  lemma NumberOf(marker: Byte, bytes: seq<Byte>) returns (n: Scalar)
    requires FixedWidth(marker) == Some(|bytes|)
    ensures ScalarFits(n) && ScalarMarker(n) == marker && ScalarBytes(n) == bytes
  {
    Powers();
    BytesOfValue(bytes);
    var x := Value256(bytes);
    n := match marker
      case 0x01 => I64(x) case 0x02 => I32(x) case 0x03 => I16(x) case 0x04 => I8(x)
      case 0x05 => U64(x) case 0x06 => U32(x) case 0x07 => U16(x) case 0x08 => U8(x)
      case 0x09 => F64(x) case _ => Bool(x);
  }

  lemma SkippedNumber(bytes: seq<Byte>, marker: Byte, depth: nat, budget: nat) returns (v: Value)
    requires FixedWidth(marker).Some? && Skip(bytes, marker, depth, budget).Done?
    ensures Explained(v, bytes, marker, depth, budget, Skip(bytes, marker, depth, budget))
  {
    var w := FixedWidth(marker).value;
    var n := NumberOf(marker, bytes[..w]);
    v := Number(n);
    assert bytes == bytes[..w] + bytes[w..];
  }

  lemma Prefixed(bytes: seq<Byte>, w: nat, body: seq<Byte>, rest: seq<Byte>)
    requires w <= |bytes| && bytes[w..] == body + rest
    ensures bytes == (bytes[..w] + body) + rest
  {
    assert bytes == bytes[..w] + bytes[w..];
  }

  lemma ArrayExplained(bytes: seq<Byte>, marker: Byte, depth: nat, budget: nat, vs: seq<Value>, v: Value, n: Varint, size: nat)
    requires marker >= 0x80 && Skip(bytes, marker, depth, budget).Done?
    requires PeekVarint(bytes) == Some(n) && size == bytes[0] % 4 && v == Array(marker - 0x80, size, vs)
    requires ElementsExplained(vs, bytes[n.width..], marker - 0x80, n.value, depth + 1, budget - 1, Skip(bytes, marker, depth, budget))
    ensures Explained(v, bytes, marker, depth, budget, Skip(bytes, marker, depth, budget))
  {
    VarintWasEncoded(bytes);
    Prefixed(bytes, n.width, Bodies(vs, marker - 0x80), Skip(bytes, marker, depth, budget).rest);
  }

  lemma ObjectExplained(bytes: seq<Byte>, depth: nat, budget: nat, fs: seq<Field>, v: Value, n: Varint, size: nat)
    requires Skip(bytes, 0x0c, depth, budget).Done?
    requires PeekVarint(bytes) == Some(n) && size == bytes[0] % 4 && v == Object(size, fs)
    requires FieldsExplained(fs, bytes[n.width..], n.value, depth + 1, budget - 1, Skip(bytes, 0x0c, depth, budget))
    ensures Explained(v, bytes, 0x0c, depth, budget, Skip(bytes, 0x0c, depth, budget))
  {
    VarintWasEncoded(bytes);
    Prefixed(bytes, n.width, FieldBytes(fs), Skip(bytes, 0x0c, depth, budget).rest);
  }

  lemma SkippedBlob(bytes: seq<Byte>, depth: nat, budget: nat) returns (v: Value)
    requires Skip(bytes, 0x0a, depth, budget).Done?
    ensures Explained(v, bytes, 0x0a, depth, budget, Skip(bytes, 0x0a, depth, budget))
  {
    VarintWasEncoded(bytes);
    var n, size := PeekVarint(bytes).value, bytes[0] % 4;
    var end := n.width + n.value;
    v := Blob(size, bytes[n.width..end]);
    assert bytes[n.width..] == bytes[n.width..end] + bytes[end..];
    Prefixed(bytes, n.width, bytes[n.width..end], bytes[end..]);
  }

  ghost predicate ElementsExplained(vs: seq<Value>, bytes: seq<Byte>, marker: Byte, count: nat, depth: nat, budget: nat, r: Skipped) {
    && r.Done? && |vs| == count && AllEncodable(vs, marker) && bytes == Bodies(vs, marker) + r.rest
    && budget == r.budget + NodesOf(vs) && (vs != [] ==> depth + HeightOf(vs) <= MAX_NESTING)
  }

  lemma {:induction false} ElementsWereEncoded(bytes: seq<Byte>, marker: Byte, count: nat, depth: nat, budget: nat) returns (vs: seq<Value>)
    requires SkipElements(bytes, marker, count, depth, budget).Done?
    ensures ElementsExplained(vs, bytes, marker, count, depth, budget, SkipElements(bytes, marker, count, depth, budget))
    decreases Left(depth), count
  {
    vs := [];
    if count > 0 {
      var first := Skip(bytes, marker, depth, budget);
      var v := SkippedWasEncoded(bytes, marker, depth, budget);
      var more := ElementsWereEncoded(first.rest, marker, count - 1, depth, first.budget);
      vs := [v] + more;
      ElementAdded(v, more, vs, bytes, marker, count, depth, budget, first, SkipElements(bytes, marker, count, depth, budget));
    }
  }

  lemma ElementAdded(v: Value, more: seq<Value>, vs: seq<Value>, bytes: seq<Byte>, marker: Byte, count: nat, depth: nat, budget: nat,
                     first: Skipped, r: Skipped)
    requires count > 0 && vs == [v] + more && Explained(v, bytes, marker, depth, budget, first)
    requires ElementsExplained(more, first.rest, marker, count - 1, depth, first.budget, r)
    ensures ElementsExplained(vs, bytes, marker, count, depth, budget, r)
  {
    assert vs[0] == v && vs[1..] == more;
    assert (Body(v) + Bodies(more, marker)) + r.rest == Body(v) + (Bodies(more, marker) + r.rest);
  }

  ghost predicate FieldsExplained(fs: seq<Field>, bytes: seq<Byte>, count: nat, depth: nat, budget: nat, r: Skipped) {
    && r.Done? && |fs| == count && FieldsEncodable(fs) && bytes == FieldBytes(fs) + r.rest
    && budget == r.budget + FieldNodes(fs) && (fs != [] ==> depth + FieldHeight(fs) <= MAX_NESTING)
  }

  lemma {:induction false} FieldsWereEncoded(bytes: seq<Byte>, count: nat, depth: nat, budget: nat) returns (fs: seq<Field>)
    requires SkipFields(bytes, count, depth, budget).Done?
    ensures FieldsExplained(fs, bytes, count, depth, budget, SkipFields(bytes, count, depth, budget))
    decreases Left(depth), count + 2
  {
    fs := [];
    if count > 0 {
      var value := AfterName(bytes).value;
      var first := SkipMarked(value, depth, budget);
      var v := SkippedWasEncoded(value[1..], value[0], depth, budget);
      var more := FieldsWereEncoded(first.rest, count - 1, depth, first.budget);
      var f := Field(bytes[1..1 + bytes[0]], v);
      fs := [f] + more;
      MarkedWasEncoded(v, value, depth, budget, first);
      FieldAdded(f, more, fs, bytes, value, count, depth, budget, first, SkipFields(bytes, count, depth, budget));
    }
  }

  lemma MarkedWasEncoded(v: Value, value: seq<Byte>, depth: nat, budget: nat, r: Skipped)
    requires value != [] && r.Done? && Explained(v, value[1..], value[0], depth, budget, r)
    ensures value == Encode(v) + r.rest
  {
    assert value == [value[0]] + value[1..];
    HeadTail(value[0], Body(v), r.rest);
  }

  lemma FieldAdded(f: Field, more: seq<Field>, fs: seq<Field>, bytes: seq<Byte>, value: seq<Byte>, count: nat, depth: nat, budget: nat,
                   first: Skipped, r: Skipped)
    requires count > 0 && fs == [f] + more && AfterName(bytes) == Some(value) && f.name == bytes[1..1 + bytes[0]]
    requires first.Done? && Encodable(f.value) && value == Encode(f.value) + first.rest
    requires depth + Height(f.value) <= MAX_NESTING && budget == first.budget + Nodes(f.value)
    requires FieldsExplained(more, first.rest, count - 1, depth, first.budget, r)
    ensures FieldsExplained(fs, bytes, count, depth, budget, r)
  {
    assert fs[0] == f && fs[1..] == more;
    NameIs(bytes, value, f.name);
    Regroup([|f.name|] + f.name, Encode(f.value), FieldBytes(more), r.rest);
  }

  lemma NameIs(bytes: seq<Byte>, value: seq<Byte>, name: seq<Byte>)
    requires AfterName(bytes) == Some(value) && name == bytes[1..1 + bytes[0]]
    ensures |name| == bytes[0] && bytes == ([|name|] + name) + value
  {}

  /** `bytes` starts with a value within the limits, and `rest` follows it. */
  ghost predicate Starts(v: Value, bytes: seq<Byte>, rest: seq<Byte>) {
    Encodable(v) && bytes == Encode(v) + rest && Height(v) <= 64 && Nodes(v) <= 1_000_000
  }

  /** The entry point: success exactly on a prefix that encodes a value of height at most 64 and at most
      a million nodes, and then the reader stands right behind it. */
  lemma SkipValueIff(bytes: seq<Byte>, rest: seq<Byte>)
    ensures var r := SkipMarked(bytes, 0, MAX_SKIP_VALUES);
      (r.Done? && r.rest == rest) <==> exists v :: Starts(v, bytes, rest)
  {
    if v :| Starts(v, bytes, rest) {
      StartsIsSkipped(v, bytes, rest);
    }
    if SkipMarked(bytes, 0, MAX_SKIP_VALUES).Done? {
      var v := SkippedStarts(bytes);
    }
  }

  lemma StartsIsSkipped(v: Value, bytes: seq<Byte>, rest: seq<Byte>)
    requires Starts(v, bytes, rest)
    ensures SkipMarked(bytes, 0, MAX_SKIP_VALUES) == Done(rest, MAX_SKIP_VALUES - Nodes(v))
  {
    SkipsExactly(v, rest, 0, MAX_SKIP_VALUES);
    SkipsMarked(v, rest, 0, MAX_SKIP_VALUES);
  }

  lemma SkippedStarts(bytes: seq<Byte>) returns (v: Value)
    requires SkipMarked(bytes, 0, MAX_SKIP_VALUES).Done?
    ensures Starts(v, bytes, SkipMarked(bytes, 0, MAX_SKIP_VALUES).rest)
  {
    v := SkippedWasEncoded(bytes[1..], bytes[0], 0, MAX_SKIP_VALUES);
    Rejoined(bytes, Body(v), SkipMarked(bytes, 0, MAX_SKIP_VALUES).rest);
  }

  lemma Rejoined(bytes: seq<Byte>, body: seq<Byte>, rest: seq<Byte>)
    requires bytes != [] && bytes[1..] == body + rest
    ensures bytes == [bytes[0]] + body + rest
  {
    assert bytes == [bytes[0]] + bytes[1..];
  }

  // ---------------------------------------------------------------------------------------------
  // The reader
  // ---------------------------------------------------------------------------------------------

  /** A buffer advanced in place and the work left, shared by all levels of the recursion. On an error
      the caller drops both. */
  class Reader {
    var rest: seq<Byte>
    var budget: nat

    constructor (bytes: seq<Byte>, budget: nat)
      ensures rest == bytes && this.budget == budget
    {
      rest, this.budget := bytes, budget;
    }

    method SkipVarint() returns (n: Option<nat>)
      modifies this`rest
      ensures match PeekVarint(old(rest))
        case None => n == None && rest == old(rest)
        case Some(v) => n == Some(v.value) && rest == old(rest)[v.width..]
    {
      var v := PeekVarint(rest);
      if v == None {
        return None;
      }
      rest := rest[v.value.width..];
      n := Some(v.value.value);
    }

    method SkipWithBudget(marker: Byte, depth: nat) returns (ok: bool)
      modifies this
      ensures Reports(Skip(old(rest), marker, depth, old(budget)), ok, rest, budget)
      decreases Left(depth), 0
    {
      if depth >= MAX_NESTING || budget == 0 {
        return false;
      }
      budget := budget - 1;
      if marker >= 0x80 {
        var n := SkipVarint();
        if n == None || n.value > budget {
          return false;
        }
        ok := SkipAll(marker - 0x80, n.value, depth + 1);
        return;
      }
      var width := FixedWidth(marker);
      if width.Some? {
        if |rest| < width.value {
          return false;
        }
        rest := rest[width.value..];
        return true;
      }
      if marker == 0x0a {
        var n := SkipVarint();
        if n == None || |rest| < n.value {
          return false;
        }
        rest := rest[n.value..];
        return true;
      }
      if marker == 0x0c {
        var n := SkipVarint();
        if n == None || n.value > budget {
          return false;
        }
        ok := SkipAllFields(n.value, depth + 1);
        return;
      }
      ok := false;
    }

    method SkipAll(marker: Byte, count: nat, depth: nat) returns (ok: bool)
      modifies this
      ensures Reports(SkipElements(old(rest), marker, count, depth, old(budget)), ok, rest, budget)
      decreases Left(depth), count + 1
    {
      ghost var all := SkipElements(rest, marker, count, depth, budget);
      for i := 0 to count
        invariant all == SkipElements(rest, marker, count - i, depth, budget)
      {
        ok := SkipWithBudget(marker, depth);
        if !ok {
          return;
        }
      }
      ok := true;
    }

    method SkipBounded(depth: nat) returns (ok: bool)
      modifies this
      ensures Reports(SkipMarked(old(rest), depth, old(budget)), ok, rest, budget)
      decreases Left(depth), 1
    {
      if rest == [] {
        return false;
      }
      var marker := rest[0];
      rest := rest[1..];
      ok := SkipWithBudget(marker, depth);
    }

    method SkipAllFields(count: nat, depth: nat) returns (ok: bool)
      modifies this
      ensures Reports(SkipFields(old(rest), count, depth, old(budget)), ok, rest, budget)
      decreases Left(depth), count + 2
    {
      ghost var all := SkipFields(rest, count, depth, budget);
      for i := 0 to count
        invariant all == SkipFields(rest, count - i, depth, budget)
      {
        if |rest| < 1 {
          return false;
        }
        var length := rest[0];
        rest := rest[1..];
        if |rest| < length {
          return false;
        }
        rest := rest[length..];
        ok := SkipBounded(depth);
        if !ok {
          return;
        }
      }
      ok := true;
    }
  }

  ghost predicate Reports(r: Skipped, ok: bool, rest: seq<Byte>, budget: nat) {
    (ok <==> r.Done?) && (ok ==> r == Done(rest, budget))
  }

  /** `skip_epee_value`: terminates on any bytes, reads nothing past the end, and succeeds exactly when the
      bytes start with an encoded value within the limits, leaving what follows it. */
  method SkipEpeeValue(bytes: seq<Byte>) returns (ok: bool, rest: seq<Byte>)
    ensures ok ==> exists v :: Starts(v, bytes, rest)
    ensures !ok ==> forall v, tail :: !Starts(v, bytes, tail)
  {
    var reader := new Reader(bytes, MAX_SKIP_VALUES);
    ok := reader.SkipBounded(0);
    rest := reader.rest;
    SkipValueIff(bytes, rest);
    if !ok {
      forall v, tail ensures !Starts(v, bytes, tail) {
        SkipValueIff(bytes, tail);
      }
    }
  }
}
