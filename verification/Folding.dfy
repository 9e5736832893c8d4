/** Composite keys as byte strings: the codes of the fields one after the other, compared byte by byte. */
module Folding {
  import opened Keys
  import opened Nodes

  /** The field types of the schema. A text of type `Text(max)` has at most `max` bytes. */
  datatype Kind = Integer | Timestamp | Unsigned | Text(max: nat)

  datatype Value = Number(n: int) | Chars(b: Bytes)

  const TWO_31 := 0x8000_0000
  const TWO_63 := 0x8000_0000_0000_0000

  predicate Fits(v: Value, k: Kind) {
    match k
    case Integer => v.Number? && -TWO_31 <= v.n < TWO_31
    case Timestamp => v.Number? && -TWO_63 <= v.n < TWO_63
    case Unsigned => v.Number? && 0 <= v.n < 2 * TWO_63
    case Text(max) => v.Chars? && |v.b| <= max
  }

  /** A text can be told from its code when it holds no zero byte. */
  predicate Clean(v: Value) {
    v.Chars? ==> 0 !in v.b
  }

  // ----- big-endian numbers -----

  function BigEndian(u: int, width: nat): (b: Bytes)
    requires 0 <= u
    ensures |b| == width
  {
    if width == 0 then [] else BigEndian(u / 256, width - 1) + [u % 256]
  }

  function FromBigEndian(b: Bytes): (u: int)
    ensures 0 <= u
  {
    if |b| == 0 then 0 else 256 * FromBigEndian(b[..|b| - 1]) + b[|b| - 1]
  }

  lemma {:induction false} BigEndianRoundTrip(u: int, width: nat)
    requires 0 <= u < Power256(width)
    ensures FromBigEndian(BigEndian(u, width)) == u
  {
    if width > 0 {
      BigEndianRoundTrip(u / 256, width - 1);
      assert BigEndian(u, width)[..width - 1] == BigEndian(u / 256, width - 1);
    }
  }

  lemma LessSnoc(p: Bytes, q: Bytes, x: Byte, y: Byte)
    requires |p| == |q|
    ensures Less(p + [x], q + [y]) <==> if p == q then x < y else Less(p, q)
  {
    var c := Common(p, q);
    LessByCommon(p, q);
    if p == q {
      CommonUnique(p, q, |p|);
      LessAt(p + [x], q + [y], if x == y then |p| + 1 else |p|);
    } else {
      assert c == |p| ==> p == q;
      LessAt(p + [x], q + [y], c);
    }
  }

  /** Numbers of one width are ordered like their big-endian bytes. */
  lemma {:induction false} BigEndianOrder(u: int, v: int, width: nat)
    requires 0 <= u < Power256(width) && 0 <= v < Power256(width)
    ensures Less(BigEndian(u, width), BigEndian(v, width)) <==> u < v
  {
    if width == 0 {
      NothingBelowEmpty([]);
    } else {
      BigEndianOrder(u / 256, v / 256, width - 1);
      BigEndianRoundTrip(u / 256, width - 1);
      BigEndianRoundTrip(v / 256, width - 1);
      LessSnoc(BigEndian(u / 256, width - 1), BigEndian(v / 256, width - 1), u % 256, v % 256);
    }
  }

  // ----- codes of single fields -----

  /** The bits of a signed number with the top one flipped. */
  function FlipSign(n: int, half: int): (u: int)
    requires half > 0 && -half <= n < half
    ensures 0 <= u < 2 * half && u == n + half
  {
    var bits := if n < 0 then n + 2 * half else n;
    if bits >= half then bits - half else bits + half
  }

  function Code(v: Value, k: Kind): Bytes
    requires Fits(v, k)
  {
    match k
    case Integer => BigEndian(FlipSign(v.n, TWO_31), 4)
    case Timestamp => BigEndian(FlipSign(v.n, TWO_63), 8)
    case Unsigned => BigEndian(v.n, 8)
    case Text(_) => v.b + [0]
  }

  /** Codes written out: signed numbers have their top bit flipped, the highest byte comes first, and a zero byte ends a
      text. */
  lemma CodeSamples()
    ensures Code(Number(-1), Integer) == [0x7F, 0xFF, 0xFF, 0xFF] && Code(Number(258), Integer) == [0x80, 0, 1, 2]
    ensures Code(Number(-1), Timestamp) == [0x7F, 0xFF, 0xFF, 0xFF, 0xFF, 0xFF, 0xFF, 0xFF]
    ensures Code(Number(258), Unsigned) == [0, 0, 0, 0, 0, 0, 1, 2]
    ensures Code(Chars([66, 65, 82]), Text(16)) == [66, 65, 82, 0]
  {
    BigEndianFour(0x7F, 0xFF, 0xFF, 0xFF);
    BigEndianFour(0x80, 0, 1, 2);
    BigEndianEight(0x7FFF_FFFF, 0xFF, 0xFF, 0xFF, 0xFF);
    BigEndianFour(0, 0, 0, 0);
    BigEndianEight(0, 0, 0, 1, 2);
  }

  lemma BigEndianFour(a: Byte, b: Byte, c: Byte, d: Byte)
    ensures BigEndian(((a * 256 + b) * 256 + c) * 256 + d, 4) == [a, b, c, d]
  {
    var three := (a * 256 + b) * 256 + c;
    assert (three * 256 + d) / 256 == three && (three * 256 + d) % 256 == d;
    assert three / 256 == a * 256 + b && three % 256 == c;
    assert (a * 256 + b) / 256 == a && (a * 256 + b) % 256 == b;
    assert BigEndian(a, 1) == [a];
    assert BigEndian(a * 256 + b, 2) == [a, b];
    assert BigEndian(three, 3) == [a, b, c];
  }

  lemma BigEndianEight(high: int, a: Byte, b: Byte, c: Byte, d: Byte)
    requires high >= 0
    ensures BigEndian((((high * 256 + a) * 256 + b) * 256 + c) * 256 + d, 8) == BigEndian(high, 4) + [a, b, c, d]
  {
    var five := high * 256 + a;
    var six := five * 256 + b;
    var seven := six * 256 + c;
    assert (seven * 256 + d) / 256 == seven && (seven * 256 + d) % 256 == d;
    assert seven / 256 == six && seven % 256 == c && six / 256 == five && six % 256 == b;
    assert five / 256 == high && five % 256 == a;
    assert BigEndian(five, 5) == BigEndian(high, 4) + [a];
    assert BigEndian(six, 6) == BigEndian(high, 4) + [a, b];
    assert BigEndian(seven, 7) == BigEndian(high, 4) + [a, b, c];
  }

  /** The unsigned number a numeric field is coded as, and its bytes. */
  function Plain(v: Value, k: Kind): (u: int)
    requires Fits(v, k) && !k.Text?
    ensures 0 <= u < if k.Integer? then 2 * TWO_31 else 2 * TWO_63
    ensures Code(v, k) == BigEndian(u, Width(k))
  {
    match k
    case Integer => FlipSign(v.n, TWO_31)
    case Timestamp => FlipSign(v.n, TWO_63)
    case Unsigned => v.n
  }

  function Width(k: Kind): nat {
    if k.Integer? then 4 else 8
  }

  predicate ValueLess(u: Value, v: Value, k: Kind)
    requires Fits(u, k) && Fits(v, k)
  {
    match k
    case Text(_) => Less(u.b, v.b)
    case _ => u.n < v.n
  }

  lemma Powers()
    ensures Power256(4) == 2 * TWO_31 && Power256(8) == 2 * TWO_63
  {
    assert Power256(2) == 0x1_0000 && Power256(4) == 0x1_0000_0000;
    assert Power256(6) == 0x1_0000_0000_0000 && Power256(8) == 0x1_0000_0000_0000_0000;
  }

  /** Codes of different values differ within both: no code is a prefix of another. */
  predicate Split(a: Bytes, b: Bytes) {
    Common(a, b) < |a| && Common(a, b) < |b|
  }

  lemma SameWidthSplit(a: Bytes, b: Bytes)
    requires |a| == |b| && a != b
    ensures Split(a, b)
  {
    assert Common(a, b) == |a| ==> a == b;
  }

  lemma TextCode(a: Bytes, b: Bytes)
    requires 0 !in a && 0 !in b
    ensures a != b ==> Split(a + [0], b + [0])
    ensures Less(a + [0], b + [0]) <==> Less(a, b)
  {
    var c := Common(a, b);
    LessByCommon(a, b);
    if c == |a| == |b| {
      assert a == b;
      Trichotomy(a, a);
      Trichotomy(a + [0], a + [0]);
    } else {
      assert c < |a| ==> a[c] != 0;
      assert c < |b| ==> b[c] != 0;
      CommonUnique(a + [0], b + [0], c);
      LessByCommon(a + [0], b + [0]);
    }
  }

  /** Every field code is prefix-free and keeps the order of the values. */
  lemma CodeOrder(u: Value, v: Value, k: Kind)
    requires Fits(u, k) && Fits(v, k) && Clean(u) && Clean(v)
    ensures u != v ==> Split(Code(u, k), Code(v, k))
    ensures Less(Code(u, k), Code(v, k)) <==> ValueLess(u, v, k)
  {
    hide Common, BigEndian, Power256;
    Powers();
    if k.Text? {
      TextCode(u.b, v.b);
    } else {
      var x, y, width := Plain(u, k), Plain(v, k), Width(k);
      BigEndianOrder(x, y, width);
      BigEndianRoundTrip(x, width);
      BigEndianRoundTrip(y, width);
      if u != v { SameWidthSplit(BigEndian(x, width), BigEndian(y, width)); }
    }
  }

  // ----- whole keys -----

  predicate Conforms(key: seq<Value>, kinds: seq<Kind>) {
    |key| == |kinds| && forall i | 0 <= i < |key| :: Fits(key[i], kinds[i])
  }

  predicate AllClean(key: seq<Value>) {
    forall i | 0 <= i < |key| :: Clean(key[i])
  }

  function Folded(key: seq<Value>, kinds: seq<Kind>): Bytes
    requires Conforms(key, kinds)
  {
    if |key| == 0 then [] else Code(key[0], kinds[0]) + Folded(key[1..], kinds[1..])
  }

  /** Field by field. */
  predicate KeyLess(a: seq<Value>, b: seq<Value>, kinds: seq<Kind>)
    requires Conforms(a, kinds) && Conforms(b, kinds)
  {
    |a| > 0 && (ValueLess(a[0], b[0], kinds[0]) || (a[0] == b[0] && KeyLess(a[1..], b[1..], kinds[1..])))
  }

  lemma SplitDecides(a: Bytes, b: Bytes, x: Bytes, y: Bytes)
    requires Split(a, b)
    ensures Less(a + x, b + y) <==> Less(a, b)
    ensures a + x != b + y
  {
    var c := Common(a, b);
    LessByCommon(a, b);
    LessAt(a + x, b + y, c);
    assert (a + x)[c] == a[c] && (b + y)[c] == b[c];
  }

  /** Behind field `i` there are only texts without room for a byte. */
  predicate Last(kinds: seq<Kind>, i: int) {
    forall j | i < j < |kinds| && 0 <= j :: kinds[j] == Text(0)
  }

  /** Texts with zero bytes are harmless at the end of a key. */
  predicate Safe(key: seq<Value>, kinds: seq<Kind>) {
    forall i | 0 <= i < |key| :: Clean(key[i]) || Last(kinds, i)
  }

  lemma SafeTail(key: seq<Value>, kinds: seq<Kind>)
    requires Conforms(key, kinds) && Safe(key, kinds) && |key| > 0
    ensures Safe(key[1..], kinds[1..])
  {
    forall i | 0 <= i < |key| - 1 ensures Clean(key[1..][i]) || Last(kinds[1..], i) {
      assert Clean(key[i + 1]) || Last(kinds, i + 1);
    }
  }

  function Zeros(n: nat): (b: Bytes)
    ensures |b| == n && forall i | 0 <= i < n :: b[i] == 0
  {
    seq(n, _ => 0)
  }

  lemma {:induction false} EmptyTexts(a: seq<Value>, b: seq<Value>, kinds: seq<Kind>)
    requires Conforms(a, kinds) && Conforms(b, kinds) && Last(kinds, -1)
    ensures a == b && Folded(a, kinds) == Zeros(|kinds|)
  {
    if |kinds| > 0 {
      assert Fits(a[0], kinds[0]) && Fits(b[0], kinds[0]) && kinds[0] == Text(0);
      assert Last(kinds[1..], -1);
      EmptyTexts(a[1..], b[1..], kinds[1..]);
      assert a[0].b == b[0].b == [];
      assert a == [a[0]] + a[1..] && b == [b[0]] + b[1..];
    }
  }

  lemma ZeroTail(a: Bytes, b: Bytes, n: nat)
    ensures Less(a + Zeros(n), b + Zeros(n)) <==> Less(a, b)
  {
    var x, y := a + Zeros(n), b + Zeros(n);
    var c := Common(a, b);
    LessByCommon(a, b);
    LessByCommon(x, y);
    if c < |a| && c < |b| {
      CommonUnique(x, y, c);
    } else if c == |a| == |b| {
      assert a == b;
      Trichotomy(x, x);
    } else {
      CommonSym(x, y);
      LessByCommon(y, x);
      var d := Common(x, y);
      assert forall i | 0 <= i < c :: x[i] == a[i] == b[i] == y[i];
    }
  }

  /** The last field that can vary is a text. */
  lemma LastText(a: seq<Value>, b: seq<Value>, kinds: seq<Kind>)
    requires Conforms(a, kinds) && Conforms(b, kinds) && |a| > 0 && kinds[0].Text? && Last(kinds, 0)
    ensures Less(Folded(a, kinds), Folded(b, kinds)) <==> KeyLess(a, b, kinds)
  {
    hide Less, Common;
    assert Fits(a[0], kinds[0]) && Fits(b[0], kinds[0]);
    assert Last(kinds[1..], -1);
    EmptyTexts(a[1..], b[1..], kinds[1..]);
    EmptyTexts(b[1..], a[1..], kinds[1..]);
    var n := |kinds|;
    assert Folded(a, kinds) == a[0].b + Zeros(n) && Folded(b, kinds) == b[0].b + Zeros(n);
    ZeroTail(a[0].b, b[0].b, n);
    NeverLessItself(a[1..], kinds[1..]);
  }

  lemma {:induction false} NeverLessItself(a: seq<Value>, kinds: seq<Kind>)
    requires Conforms(a, kinds)
    ensures !KeyLess(a, a, kinds)
  {
    if |a| > 0 {
      SameNotLess(a[0], kinds[0]);
      NeverLessItself(a[1..], kinds[1..]);
    }
  }

  /** Folding is an order embedding: byte order of the folded keys is the order of the keys. */
  lemma {:induction false} FoldOrder(a: seq<Value>, b: seq<Value>, kinds: seq<Kind>)
    requires Conforms(a, kinds) && Conforms(b, kinds) && Safe(a, kinds) && Safe(b, kinds)
    ensures Less(Folded(a, kinds), Folded(b, kinds)) <==> KeyLess(a, b, kinds)
  {
    hide Less, Common, Code, ValueLess, Split, Last;
    if |a| == 0 {
      NothingBelowEmpty([]);
    } else if !Clean(a[0]) || !Clean(b[0]) {
      LastText(a, b, kinds);
    } else {
      assert Fits(a[0], kinds[0]) && Fits(b[0], kinds[0]);
      var x, y := Folded(a[1..], kinds[1..]), Folded(b[1..], kinds[1..]);
      CodeOrder(a[0], b[0], kinds[0]);
      SafeTail(a, kinds);
      SafeTail(b, kinds);
      FoldOrder(a[1..], b[1..], kinds[1..]);
      if a[0] == b[0] {
        CutPrefix(Code(a[0], kinds[0]), x, y);
        SameNotLess(a[0], kinds[0]);
      } else {
        SplitDecides(Code(a[0], kinds[0]), Code(b[0], kinds[0]), x, y);
      }
    }
  }

  lemma SameNotLess(u: Value, k: Kind)
    requires Fits(u, k)
    ensures !ValueLess(u, u, k)
  {
    if k.Text? { Trichotomy(u.b, u.b); }
  }

  function MaxCode(k: Kind): nat {
    match k
    case Integer => 4
    case Text(max) => max + 2
    case _ => 8
  }

  /** The sizes of the fields in memory, two bytes of length included. */
  function MaxFoldLength(kinds: seq<Kind>): nat {
    if |kinds| == 0 then 0 else MaxCode(kinds[0]) + MaxFoldLength(kinds[1..])
  }

  lemma {:induction false} FoldLength(key: seq<Value>, kinds: seq<Kind>)
    requires Conforms(key, kinds)
    ensures |Folded(key, kinds)| <= MaxFoldLength(kinds)
  {
    if |key| > 0 {
      assert Fits(key[0], kinds[0]);
      FoldLength(key[1..], kinds[1..]);
    }
  }

  // ----- reading back -----

  /** Bytes before the first zero byte. */
  function StrLen(b: Bytes): (l: nat)
    ensures l <= |b| && 0 !in b[..l] && (l < |b| ==> b[l] == 0)
  {
    if |b| == 0 || b[0] == 0 then 0 else
      var l := StrLen(b[1..]);
      assert b[..1 + l] == [b[0]] + b[1..][..l];
      1 + l
  }

  /** The value at the start of `b` and the bytes it takes; none if `b` ends too early. */
  function Decode(b: Bytes, k: Kind): Option<(Value, nat)> {
    match k
    case Integer => if |b| < 4 then None else Some((Number(FromBigEndian(b[..4]) - TWO_31), 4))
    case Timestamp => if |b| < 8 then None else Some((Number(FromBigEndian(b[..8]) - TWO_63), 8))
    case Unsigned => if |b| < 8 then None else Some((Number(FromBigEndian(b[..8])), 8))
    case Text(_) => var l := StrLen(b); if l == |b| then None else Some((Chars(b[..l]), l + 1))
  }

  lemma {:induction false} StrLenOf(a: Bytes, rest: Bytes)
    requires 0 !in a
    ensures StrLen(a + [0] + rest) == |a|
  {
    if |a| > 0 {
      StrLenOf(a[1..], rest);
      assert (a + [0] + rest)[1..] == a[1..] + [0] + rest;
    }
  }

  lemma {:induction false} StrLenStops(b: Bytes, i: nat)
    requires i < |b| && b[i] == 0
    ensures StrLen(b) <= i
  {
    if i > 0 && b[0] != 0 { StrLenStops(b[1..], i - 1); }
  }

  /** Decoding undoes coding, whatever follows. */
  lemma CodeRoundTrip(v: Value, k: Kind, rest: Bytes)
    requires Fits(v, k) && Clean(v)
    ensures Decode(Code(v, k) + rest, k) == Some((v, |Code(v, k)|))
  {
    hide BigEndian, FromBigEndian, StrLen, Power256;
    Powers();
    var b := Code(v, k) + rest;
    assert b[..|Code(v, k)|] == Code(v, k);
    if k.Text? {
      StrLenOf(v.b, rest);
      assert b[..|v.b|] == v.b;
    } else {
      BigEndianRoundTrip(Plain(v, k), Width(k));
    }
  }

  /** A text survives coding and decoding if and only if it holds no zero byte. */
  lemma TextSurvives(b: Bytes, rest: Bytes)
    ensures Decode(b + [0] + rest, Text(|b|)) == Some((Chars(b), |b| + 1)) <==> 0 !in b
  {
    if 0 !in b {
      StrLenOf(b, rest);
      assert (b + [0] + rest)[..|b|] == b;
    } else {
      var i :| 0 <= i < |b| && b[i] == 0;
      StrLenStops(b + [0] + rest, i);
    }
  }

  function Unfolded(b: Bytes, kinds: seq<Kind>): Option<(seq<Value>, nat)> {
    if |kinds| == 0 then Some(([], 0))
    else
      match Decode(b, kinds[0])
      case None => None
      case Some(head) =>
        if head.1 > |b| then None
        else
          match Unfolded(b[head.1..], kinds[1..])
          case None => None
          case Some(tail) => Some(([head.0] + tail.0, head.1 + tail.1))
  }

  /** Decoding undoes coding if and only if the value is clean. */
  lemma CodeSurvives(v: Value, k: Kind, rest: Bytes)
    requires Fits(v, k)
    ensures var d := Decode(Code(v, k) + rest, k);
      if Clean(v) then d == Some((v, |Code(v, k)|)) else d.Some? && d.value.0 != v
  {
    hide BigEndian, FromBigEndian;
    if Clean(v) {
      CodeRoundTrip(v, k, rest);
    } else {
      var i :| 0 <= i < |v.b| && v.b[i] == 0;
      StrLenStops(v.b + [0] + rest, i);
    }
  }

  /** Unfolding a folded key gives the key back if and only if no text of the key holds a zero byte. */
  lemma {:induction false} FoldRoundTrip(key: seq<Value>, kinds: seq<Kind>, rest: Bytes)
    requires Conforms(key, kinds)
    ensures Unfolded(Folded(key, kinds) + rest, kinds) == Some((key, |Folded(key, kinds)|)) <==> AllClean(key)
  {
    hide Code, Decode, Clean;
    if |key| == 0 {
      assert key == [];
    } else {
      assert Fits(key[0], kinds[0]);
      var code, tail := Code(key[0], kinds[0]), Folded(key[1..], kinds[1..]);
      assert Folded(key, kinds) + rest == code + (tail + rest);
      CodeSurvives(key[0], kinds[0], tail + rest);
      FoldRoundTrip(key[1..], kinds[1..], rest);
      assert (code + (tail + rest))[|code|..] == tail + rest;
      assert [key[0]] + key[1..] == key;
      assert AllClean(key) <==> Clean(key[0]) && AllClean(key[1..]) by { CleanTail(key); }
      var u := Unfolded(Folded(key, kinds) + rest, kinds);
      if Clean(key[0]) && u.Some? { assert u.value.0[1..] == Unfolded(tail + rest, kinds[1..]).value.0; }
      if !Clean(key[0]) && u.Some? { assert u.value.0[0] != key[0]; }
    }
  }

  lemma CleanTail(key: seq<Value>)
    requires |key| > 0
    ensures AllClean(key) <==> Clean(key[0]) && AllClean(key[1..])
  {
    hide Clean;
    assert forall i | 0 <= i < |key| - 1 :: key[1..][i] == key[i + 1];
    if Clean(key[0]) && AllClean(key[1..]) {
      forall i | 0 <= i < |key| ensures Clean(key[i]) { if i > 0 { assert Clean(key[1..][i - 1]); } }
    }
  }

  // ----- which schemas keep the order for all keys -----

  predicate OrderHolds(a: seq<Value>, b: seq<Value>, kinds: seq<Kind>) {
    Conforms(a, kinds) && Conforms(b, kinds) ==> (Less(Folded(a, kinds), Folded(b, kinds)) <==> KeyLess(a, b, kinds))
  }

  /** Behind a text that has room for a byte nothing can vary. */
  predicate TextsLast(kinds: seq<Kind>) {
    forall i | 0 <= i < |kinds| && kinds[i].Text? && kinds[i].max > 0 :: Last(kinds, i)
  }

  /** A value whose code has a byte other than zero, if the field has one. */
  function Marked(k: Kind): (v: Value)
    ensures Fits(v, k) && (k == Text(0) || exists i :: 0 <= i < |Code(v, k)| && Code(v, k)[i] != 0)
  {
    match k
    case Text(max) =>
      var v := Chars(if max == 0 then [] else [1]);
      assert max > 0 ==> Code(v, k)[0] == 1;
      v
    case _ =>
      assert Code(Number(1), k)[if k.Integer? then 3 else 7] == 1;
      Number(1)
  }

  function MarkedKey(kinds: seq<Kind>): (key: seq<Value>)
    ensures Conforms(key, kinds)
  {
    if |kinds| == 0 then [] else [Marked(kinds[0])] + MarkedKey(kinds[1..])
  }

  lemma {:induction false} MarkedNonzero(kinds: seq<Kind>)
    requires !Last(kinds, -1)
    ensures exists i :: 0 <= i < |Folded(MarkedKey(kinds), kinds)| && Folded(MarkedKey(kinds), kinds)[i] != 0
  {
    hide Code;
    var j :| 0 <= j < |kinds| && kinds[j] != Text(0);
    var code, tail := Code(Marked(kinds[0]), kinds[0]), Folded(MarkedKey(kinds[1..]), kinds[1..]);
    assert MarkedKey(kinds)[1..] == MarkedKey(kinds[1..]);
    assert Folded(MarkedKey(kinds), kinds) == code + tail;
    if kinds[0] != Text(0) {
      var i :| 0 <= i < |code| && code[i] != 0;
      assert (code + tail)[i] != 0;
    } else {
      assert kinds[1..][j - 1] != Text(0);
      MarkedNonzero(kinds[1..]);
      var i :| 0 <= i < |tail| && tail[i] != 0;
      assert (code + tail)[|code| + i] != 0;
    }
  }

  /** One more zero byte in front makes such bytes smaller. */
  lemma {:induction false} ZeroInFront(b: Bytes)
    requires exists i :: 0 <= i < |b| && b[i] != 0
    ensures Less([0] + b, b)
  {
    var i :| 0 <= i < |b| && b[i] != 0;
    if b[0] == 0 {
      assert b[1..][i - 1] != 0;
      ZeroInFront(b[1..]);
      CutPrefix([0], [0] + b[1..], b[1..]);
      assert [0] + b[1..] == b;
    } else {
      LessAt([0] + b, b, 0);
    }
  }

  lemma BreaksHere(kinds: seq<Kind>, rest: seq<Value>)
    requires |kinds| > 0 && kinds[0].Text? && kinds[0].max > 0 && Conforms(rest, kinds[1..])
    requires var tail := Folded(rest, kinds[1..]); exists i :: 0 <= i < |tail| && tail[i] != 0
    ensures var a, b := [Chars([])] + rest, [Chars([0])] + rest;
      Conforms(a, kinds) && Conforms(b, kinds) && KeyLess(a, b, kinds) && Less(Folded(b, kinds), Folded(a, kinds))
  {
    hide Less, Common;
    var a, b := [Chars([])] + rest, [Chars([0])] + rest;
    var tail := Folded(rest, kinds[1..]);
    ZeroInFront(tail);
    NothingBelowEmpty([0]);
    assert a[1..] == rest && b[1..] == rest;
    assert Folded(a, kinds) == [0] + tail && Folded(b, kinds) == [0] + ([0] + tail);
    CutPrefix([0], [0] + tail, tail);
  }

  lemma BreaksBehind(kinds: seq<Kind>, v: Value, x: seq<Value>, y: seq<Value>)
    requires |kinds| > 0 && Fits(v, kinds[0]) && Conforms(x, kinds[1..]) && Conforms(y, kinds[1..])
    requires KeyLess(x, y, kinds[1..]) && Less(Folded(y, kinds[1..]), Folded(x, kinds[1..]))
    ensures var a, b := [v] + x, [v] + y;
      Conforms(a, kinds) && Conforms(b, kinds) && KeyLess(a, b, kinds) && Less(Folded(b, kinds), Folded(a, kinds))
  {
    hide Less, Common, Code, ValueLess, Fits;
    var a, b := [v] + x, [v] + y;
    assert a[1..] == x && b[1..] == y;
    CutPrefix(Code(v, kinds[0]), Folded(y, kinds[1..]), Folded(x, kinds[1..]));
  }

  /** The empty text is below the text of one zero byte, but what follows can turn that around. */
  lemma {:induction false} OrderBreaks(kinds: seq<Kind>) returns (a: seq<Value>, b: seq<Value>)
    requires !TextsLast(kinds)
    ensures Conforms(a, kinds) && Conforms(b, kinds)
    ensures KeyLess(a, b, kinds) && Less(Folded(b, kinds), Folded(a, kinds))
  {
    hide Less, Common, Folded, KeyLess, Conforms, Fits, Last;
    if kinds[0].Text? && kinds[0].max > 0 && !Last(kinds, 0) {
      var rest := MarkedKey(kinds[1..]);
      NotLastTail(kinds, 0);
      MarkedNonzero(kinds[1..]);
      BreaksHere(kinds, rest);
      a, b := [Chars([])] + rest, [Chars([0])] + rest;
    } else {
      var i :| 0 <= i < |kinds| && kinds[i].Text? && kinds[i].max > 0 && !Last(kinds, i);
      NotLastTail(kinds, i);
      assert kinds[1..][i - 1] == kinds[i];
      var v := Marked(kinds[0]);
      var x, y := OrderBreaks(kinds[1..]);
      BreaksBehind(kinds, v, x, y);
      a, b := [v] + x, [v] + y;
    }
  }

  lemma NotLastTail(kinds: seq<Kind>, i: nat)
    requires i < |kinds| && !Last(kinds, i)
    ensures !Last(kinds[1..], i - 1)
  {
    var j :| i < j < |kinds| && kinds[j] != Text(0);
    assert kinds[1..][j - 1] != Text(0);
  }

  /** All keys of a schema are ordered like their bytes if and only if its texts come last. */
  lemma FoldOrderExact(kinds: seq<Kind>)
    ensures (forall a, b :: OrderHolds(a, b, kinds)) <==> TextsLast(kinds)
  {
    hide Less, Folded, KeyLess;
    if TextsLast(kinds) {
      forall a, b ensures OrderHolds(a, b, kinds) {
        if Conforms(a, kinds) && Conforms(b, kinds) {
          AllSafe(a, kinds);
          AllSafe(b, kinds);
          FoldOrder(a, b, kinds);
        }
      }
    } else {
      var a, b := OrderBreaks(kinds);
      Trichotomy(Folded(a, kinds), Folded(b, kinds));
      assert !OrderHolds(a, b, kinds);
    }
  }

  lemma AllSafe(key: seq<Value>, kinds: seq<Kind>)
    requires Conforms(key, kinds) && TextsLast(kinds)
    ensures Safe(key, kinds)
  {
    forall i | 0 <= i < |key| ensures Clean(key[i]) || Last(kinds, i) {
      assert Fits(key[i], kinds[i]);
    }
  }

  /** Without the condition on zero bytes the order breaks: the empty text is below the text of one zero
      byte, but with the next field behind it, its code is above. */
  lemma ZeroByteBreaksOrder()
    ensures var kinds := [Text(1), Text(1)];
      var a, b := [Chars([]), Chars([1])], [Chars([0]), Chars([])];
      Conforms(a, kinds) && Conforms(b, kinds) && KeyLess(a, b, kinds) && Less(Folded(b, kinds), Folded(a, kinds))
  {
    var kinds := [Text(1), Text(1)];
    var a, b := [Chars([]), Chars([1])], [Chars([0]), Chars([])];
    NothingBelowEmpty([0]);
    assert Folded(a, kinds) == [0, 1, 0] by { assert Folded(a[1..], kinds[1..]) == [1, 0]; }
    assert Folded(b, kinds) == [0, 0, 0] by { assert Folded(b[1..], kinds[1..]) == [0]; }
    LessAt([0, 0, 0], [0, 1, 0], 1);
  }

  // ----- the code's buffers -----

  /** Writes the codes one after the other; `pos` is the length. */
  method FoldKey(out: array<Byte>, key: seq<Value>, kinds: seq<Kind>) returns (pos: nat)
    requires Conforms(key, kinds) && MaxFoldLength(kinds) <= out.Length
    modifies out
    ensures pos == |Folded(key, kinds)| <= out.Length && out[..pos] == Folded(key, kinds)
  {
    hide Code, MaxFoldLength;
    pos := 0;
    var i := 0;
    assert key[0..] == key && kinds[0..] == kinds;
    FoldLength(key, kinds);
    assert out[..pos] + Folded(key[i..], kinds[i..]) == Folded(key, kinds);
    while i < |key|
      invariant 0 <= i <= |key| && pos <= |Folded(key, kinds)| <= out.Length
      invariant Conforms(key[i..], kinds[i..]) && out[..pos] + Folded(key[i..], kinds[i..]) == Folded(key, kinds)
    {
      assert key[i..][0] == key[i] && kinds[i..][0] == kinds[i] && key[i..][1..] == key[i + 1..];
      assert kinds[i..][1..] == kinds[i + 1..];
      ghost var tail := Folded(key[i + 1..], kinds[i + 1..]);
      var code := Code(key[i], kinds[i]);
      ghost var done := out[..pos];
      assert |done + (code + tail)| == |Folded(key, kinds)|;
      forall k | 0 <= k < |code| { out[pos + k] := code[k]; }
      pos := pos + |code|;
      assert out[..pos] == done + code;
      assert done + (code + tail) == (done + code) + tail;
      i := i + 1;
    }
  }

  /** Reads the fields back. */
  method UnfoldKey(input: Bytes, kinds: seq<Kind>) returns (key: seq<Value>, pos: nat, ok: bool)
    ensures ok <==> Unfolded(input, kinds).Some?
    ensures ok ==> (key, pos) == Unfolded(input, kinds).value
  {
    hide Decode;
    key, pos, ok := [], 0, true;
    var i := 0;
    assert input[0..] == input && kinds[0..] == kinds;
    assert Unfolded(input, kinds).Some? ==> [] + Unfolded(input, kinds).value.0 == Unfolded(input, kinds).value.0;
    while i < |kinds|
      invariant 0 <= i <= |kinds| && pos <= |input|
      invariant Unfolded(input, kinds) == match Unfolded(input[pos..], kinds[i..])
        case None => None
        case Some(tail) => Some((key + tail.0, pos + tail.1))
    {
      assert kinds[i..][0] == kinds[i] && kinds[i..][1..] == kinds[i + 1..];
      var head := Decode(input[pos..], kinds[i]);
      if head.None? || head.value.1 > |input| - pos { return key, pos, false; }
      assert input[pos..][head.value.1..] == input[pos + head.value.1..];
      ghost var tail := Unfolded(input[pos + head.value.1..], kinds[i + 1..]);
      if tail.Some? { assert key + ([head.value.0] + tail.value.0) == (key + [head.value.0]) + tail.value.0; }
      key, pos := key + [head.value.0], pos + head.value.1;
      i := i + 1;
    }
    assert key + [] == key;
  }

  // ----- the schema -----

  /** warehouse, district, customer, customer by name, history, new order, order, order by customer, order
      line, item, stock. */
  function Schema(): seq<seq<Kind>> {
    [[Integer], [Integer, Integer], [Integer, Integer, Integer], [Integer, Integer, Text(16), Text(16)],
     [Integer, Integer], [Integer, Integer, Integer], [Integer, Integer, Integer],
     [Integer, Integer, Integer, Integer], [Integer, Integer, Integer, Integer], [Integer], [Integer, Integer]]
  }

  /** Of the tables of the schema, only the customers by name need clean texts for their order. */
  lemma SchemaOrder(table: nat)
    requires table < |Schema()|
    ensures (forall a, b :: OrderHolds(a, b, Schema()[table])) <==> table != 3
  {
    hide OrderHolds;
    var kinds := Schema()[table];
    FoldOrderExact(kinds);
    if table == 3 {
      assert kinds[2] == Text(16) && kinds[3] == Text(16);
      assert !Last(kinds, 2);
    } else {
      assert forall i | 0 <= i < |kinds| :: kinds[i] == Integer;
    }
  }

  /** Folded keys of the schema are never empty and never longer than 44 bytes, so that the tree can hold
      and find them. */
  lemma SchemaKeys(table: nat, key: seq<Value>)
    requires table < |Schema()| && Conforms(key, Schema()[table])
    ensures 4 <= |Folded(key, Schema()[table])| <= MaxFoldLength(Schema()[table]) <= 44
  {
    var kinds := Schema()[table];
    FoldLength(key, kinds);
    assert kinds[0] == Integer && Fits(key[0], kinds[0]);
    hide Code;
    SchemaLengths(table);
    FirstCode(key, kinds);
  }

  lemma FirstCode(key: seq<Value>, kinds: seq<Kind>)
    requires Conforms(key, kinds) && |key| > 0 && kinds[0].Integer?
    ensures |Folded(key, kinds)| >= 4
  {
    assert Fits(key[0], kinds[0]);
  }

  lemma SchemaLengths(table: nat)
    requires table < |Schema()|
    ensures MaxFoldLength(Schema()[table]) <= 44
  {
    var kinds := Schema()[table];
    assert MaxFoldLength(kinds[|kinds|..]) == 0;
    if |kinds| > 3 { assert MaxFoldLength(kinds[3..]) == MaxCode(kinds[3]); assert kinds[2..][1..] == kinds[3..]; assert kinds[1..][1..] == kinds[2..]; }
    if |kinds| == 3 { assert MaxFoldLength(kinds[2..]) == MaxCode(kinds[2]); assert kinds[1..][1..] == kinds[2..]; }
    if |kinds| == 2 { assert MaxFoldLength(kinds[1..]) == MaxCode(kinds[1]); }
  }
}
