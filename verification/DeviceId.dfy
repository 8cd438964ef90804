/**
  Device IDs: 32 bytes shown as 52 Base32 characters (the alphabet of section 6 of RFC 4648), with a
  Luhn check character after every 13, in hyphenated groups of 7.  Text is a sequence of byte codes.
 */
module DeviceId {
  import opened Prelude
  import opened Numerals

  type Text = seq<nat>

  const HYPHEN: nat := 45

  datatype Error = InvalidLength(n: nat) | InvalidCharacter(c: nat) | InvalidCheckDigit

  datatype Result = Ok(value: seq<nat>) | Err(error: Error)

  datatype CheckResult = Check(value: nat) | BadChar(error: Error)

  /** `ABCDEFGHIJKLMNOPQRSTUVWXYZ234567` at index `v`. */
  function Alphabet(v: nat): nat
    requires v < 32
  {
    if v < 26 then 65 + v else 24 + v
  }

  function DecodeChar(c: nat): Option<nat> {
    if 65 <= c <= 90 then Some(c - 65)
    else if 97 <= c <= 122 then Some(c - 97)
    else if 50 <= c <= 55 then Some(c - 50 + 26)
    else None
  }

  function Upper(c: nat): nat { if 97 <= c <= 122 then c - 32 else c }

  // ---------------------------------------------------------------- the bit accumulators

  const U64: nat := 0x1_0000_0000_0000_0000

  function P2(n: nat): (p: nat)
    ensures p > 0
  {
    if n == 0 then 1 else 2 * P2(n - 1)
  }

  lemma {:induction false} P2Sum(m: nat, n: nat)
    ensures P2(m + n) == P2(m) * P2(n)
  {
    if n > 0 {
      P2Sum(m, n - 1);
      assert P2(m) * (2 * P2(n - 1)) == 2 * (P2(m) * P2(n - 1));
    }
  }

  lemma RegroupPush(v: nat, a: nat, b: nat, r: nat, x: nat)
    ensures (v * a + r) * b + x == v * (a * b) + (r * b + x)
  {
    assert v * a * b == v * (a * b);
  }

  lemma RegroupEmit(v: nat, a: nat, b: nat, d: nat, r: nat)
    ensures v * (a * b) + (d * a + r) == (v * b + d) * a + r
  {
    assert v * (a * b) == v * b * a;
  }

  lemma SmallPowers()
    ensures P2(0) == 1 && P2(1) == 2 && P2(2) == 4 && P2(3) == 8 && P2(4) == 16 && P2(5) == 32
    ensures P2(6) == 64 && P2(7) == 128 && P2(8) == 256 && P2(9) == 512 && P2(10) == 1024
    ensures P2(11) == 2048 && P2(12) == 4096
  {
    assert P2(4) == 16;
    assert P2(8) == 256;
  }

  /** Peeling the top digit off the low part of `v`. */
  lemma ModSplit(v: nat, a: nat, b: nat)
    requires a > 0 && b > 0
    ensures a * b > 0 && v % (a * b) == ((v / a) % b) * a + v % a
  {
    var q, r := v / a, v % a;
    var hi, lo := q / b, q % b;
    DivModSum(v, a);
    DivModSum(q, b);
    assert v == (hi * b + lo) * a + r == hi * (a * b) + (lo * a + r);
    assert lo * a + r < b * a by { ScaledLess(lo, b, a, r, 0); }
    assert a * b > 0;
    QuotientUnique(a * b, hi, lo * a + r, v);
  }

  /** Dropping bits above a power of two leaves the low part alone. */
  lemma DropHigh(x: nat, m: nat, k: nat)
    requires m > 0 && k > 0 && m * k == U64
    ensures (x % U64) % m == x % m
  {
    ModSplit(x, m, k);
    QuotientUnique(m, (x / m) % k, x % m, x % U64);
  }

  lemma P2At64()
    ensures P2(64) == U64
  {
    assert P2(16) == 0x1_0000 by { SmallPowers(); P2Sum(8, 8); }
    assert P2(32) == 0x1_0000_0000 by { P2Sum(16, 16); }
    P2Sum(32, 32);
  }

  lemma U64Factors(n: nat)
    requires n <= 64
    ensures P2(n) * P2(64 - n) == U64
  {
    P2At64();
    P2Sum(n, 64 - n);
  }

  /** Shifting in `w` bits and cutting at 64 keeps the pending bits and puts the new ones below. */
  lemma PushBits(buffer: nat, bits: nat, w: nat, b: nat)
    requires bits + w <= 64 && b < P2(w)
    ensures ((buffer * P2(w) + b) % U64) % P2(bits + w) == (buffer % P2(bits)) * P2(w) + b
  {
    var x, hi, lo := buffer * P2(w) + b, P2(bits), P2(w);
    P2Sum(w, bits);
    U64Factors(bits + w);
    DropHigh(x, P2(bits + w), P2(64 - (bits + w)));
    ModSplit(x, lo, hi);
    QuotientUnique(lo, buffer, b, x);
  }

  /** `base32[..c]` and the pending bits together are the bytes read so far. */
  ghost predicate Carries(inBase: nat, input: seq<nat>, outBase: nat, output: seq<nat>, buffer: nat, bits: nat) {
    Value(inBase, input) == Value(outBase, output) * P2(bits) + buffer % P2(bits)
  }

  lemma NothingCarried(inBase: nat, outBase: nat)
    ensures Carries(inBase, [], outBase, [], 0, 0)
  {}

  lemma PushKeeps(inBase: nat, input: seq<nat>, x: nat, outBase: nat, output: seq<nat>, buffer: nat, bits: nat, w: nat)
    requires bits <= 7 && (w == 5 || w == 8) && bits + w <= 12 && inBase == P2(w) && x < inBase
    requires Carries(inBase, input, outBase, output, buffer, bits)
    ensures Carries(inBase, input + [x], outBase, output, (buffer * inBase + x) % U64, bits + w)
  {
    PushBits(buffer, bits, w, x);
    ValueAppend(inBase, input, x);
    P2Sum(bits, w);
    RegroupPush(Value(outBase, output), P2(bits), inBase, buffer % P2(bits), x);
  }

  lemma EmitKeeps(inBase: nat, input: seq<nat>, outBase: nat, output: seq<nat>, buffer: nat, bits: nat, w: nat)
    requires (w == 5 || w == 8) && w <= bits <= 12 && outBase == P2(w)
    requires Carries(inBase, input, outBase, output, buffer, bits)
    ensures Carries(inBase, input, outBase, output + [(buffer / P2(bits - w)) % outBase], buffer, bits - w)
  {
    var a := P2(bits - w);
    P2Sum(bits - w, w);
    ModSplit(buffer, a, outBase);
    var d := (buffer / a) % outBase;
    ValueAppend(outBase, output, d);
    RegroupEmit(Value(outBase, output), a, outBase, d, buffer % a);
  }

  /** The last character holds the one pending bit above four zero bits. */
  lemma LastDigit(id: seq<nat>, digits: seq<nat>, buffer: nat)
    requires Carries(256, id, 32, digits, buffer, 1)
    ensures Value(32, digits + [((buffer * P2(4)) % U64) % 32]) == 16 * Value(256, id)
  {
    SmallPowers();
    DropHigh(buffer * 16, 32, U64 / 32);
    ModSplit(buffer * 16, 16, 2);
    ValueAppend(32, digits, (buffer % 2) * 16);
  }

  /** The 52 digits of a 32-byte ID: the ID's bits followed by four zero bits. */
  method Base32Digits(id: seq<nat>) returns (digits: seq<nat>)
    requires |id| == 32 && Proper(256, id)
    ensures |digits| == 52 && Proper(32, digits) && Value(32, digits) == 16 * Value(256, id)
  {
    hide Value, Carries;
    var base32 := new nat[52];
    var buffer: nat, bits: nat, charIdx: nat := 0, 0, 0;
    SmallPowers();
    NothingCarried(256, 32);
    for k := 0 to 32
      invariant 0 <= bits < 5 && 8 * k == 5 * charIdx + bits
      invariant Proper(32, base32[..charIdx])
      invariant Carries(256, id[..k], 32, base32[..charIdx], buffer, bits)
    {
      PushKeeps(256, id[..k], id[k], 32, base32[..charIdx], buffer, bits, 8);
      assert id[..k + 1] == id[..k] + [id[k]];
      buffer := (buffer * 256 + id[k]) % U64;
      bits := bits + 8;
      while bits >= 5
        invariant 0 <= bits <= 12 && 8 * (k + 1) == 5 * charIdx + bits
        invariant Proper(32, base32[..charIdx])
        invariant Carries(256, id[..k + 1], 32, base32[..charIdx], buffer, bits)
      {
        EmitKeeps(256, id[..k + 1], 32, base32[..charIdx], buffer, bits, 5);
        bits := bits - 5;
        ghost var before := base32[..charIdx];
        base32[charIdx] := (buffer / P2(bits)) % 32;
        charIdx := charIdx + 1;
        assert base32[..charIdx] == before + [(buffer / P2(bits)) % 32];
      }
    }
    assert bits == 1 && charIdx == 51 && id[..32] == id;
    ghost var before := base32[..51];
    if bits > 0 {
      base32[charIdx] := ((buffer * P2(5 - bits)) % U64) % 32;
      LastDigit(id, before, buffer);
    }
    digits := base32[..];
    assert digits == before + [base32[51]];
  }

  /** The digits of an ID as one numeral. */
  function IdDigits(id: seq<nat>): (d: seq<nat>)
    ensures |d| == 52 && Proper(32, d)
  {
    Digits(32, 52, 16 * Value(256, id))
  }

  // ---------------------------------------------------------------- the check characters

  /** What the digit `x` at place `i` of a group adds to the sum. */
  function Term(i: nat, x: nat): nat { var a := if i % 2 == 0 then x else 2 * x; a / 32 + a % 32 }

  function LuhnSum(v: seq<nat>): nat {
    if v == [] then 0 else LuhnSum(v[..|v| - 1]) + Term(|v| - 1, v[|v| - 1])
  }

  function CheckValue(v: seq<nat>): (c: nat)
    ensures c < 32
  {
    (32 - LuhnSum(v) % 32) % 32
  }

  /** The digits of a group, or its first character outside the alphabet. */
  function GroupValues(group: Text): Result {
    if group == [] then Ok([])
    else
      var front := GroupValues(group[..|group| - 1]);
      if front.Err? then front
      else
        match DecodeChar(group[|group| - 1])
        case None => Err(InvalidCharacter(group[|group| - 1]))
        case Some(x) => Ok(front.value + [x])
  }

  lemma {:induction false} GroupValuesShape(group: Text)
    requires GroupValues(group).Ok?
    ensures var v := GroupValues(group).value;
            |v| == |group| && Proper(32, v) && forall i | 0 <= i < |v| :: DecodeChar(group[i]) == Some(v[i])
  {
    if group != [] { GroupValuesShape(group[..|group| - 1]); }
  }

  lemma {:induction false} GroupValuesStop(group: Text, i: nat)
    requires i <= |group| && GroupValues(group[..i]).Err?
    ensures GroupValues(group) == GroupValues(group[..i])
    decreases |group| - i
  {
    if i == |group| {
      assert group[..i] == group;
    } else {
      assert group[..i + 1][..i] == group[..i];
      GroupValuesStop(group, i + 1);
    }
  }

  method LuhnCheck(group: Text) returns (r: CheckResult)
    ensures r == match GroupValues(group) case Err(e) => BadChar(e) case Ok(v) => Check(Alphabet(CheckValue(v)))
  {
    var sum := 0;
    ghost var v: seq<nat> := [];
    for i := 0 to |group|
      invariant GroupValues(group[..i]) == Ok(v) && |v| == i && sum == LuhnSum(v)
    {
      assert group[..i + 1][..i] == group[..i];
      var val := DecodeChar(group[i]);
      if val.None? {
        GroupValuesStop(group, i + 1);
        return BadChar(InvalidCharacter(group[i]));
      }
      var f := if i % 2 == 0 then 1 else 2;
      var a := f * val.value;
      sum := sum + a / 32 + a % 32;
      assert (v + [val.value])[..i] == v;
      v := v + [val.value];
    }
    assert group[..|group|] == group;
    r := Check(Alphabet((32 - sum % 32) % 32));
  }

  // ---------------------------------------------------------------- the displayed form

  function Spell(d: seq<nat>): (t: Text)
    requires Proper(32, d)
    ensures |t| == |d|
  {
    seq(|d|, i requires 0 <= i < |d| => Alphabet(d[i]))
  }

  /** A group of 13 digits with its check character. */
  function Checked(d: seq<nat>): (t: Text)
    requires |d| == 13 && Proper(32, d)
    ensures |t| == 14
  {
    Spell(d) + [Alphabet(CheckValue(d))]
  }

  /** The first `g` groups of a string of digits, each with its check character. */
  function Luhnified(d: seq<nat>, g: nat): (t: Text)
    requires 13 * g <= |d| && Proper(32, d)
    ensures |t| == 14 * g
  {
    if g == 0 then [] else Luhnified(d, g - 1) + Checked(d[13 * (g - 1)..13 * g])
  }

  /** Chunks of seven joined by hyphens. */
  function Chunked(t: Text, n: nat): Text
    requires 7 * n <= |t|
  {
    if n == 0 then []
    else (if n == 1 then [] else Chunked(t, n - 1) + [HYPHEN]) + t[7 * (n - 1)..7 * n]
  }

  function Shown(id: seq<nat>): Text { Chunked(Luhnified(IdDigits(id), 4), 8) }

  /** Writes group `g` and its check character into `luhnified`. */
  method WriteGroup(base32: seq<nat>, g: nat, luhnified: array<nat>)
    requires |base32| == 52 && Proper(32, base32) && g < 4 && luhnified.Length == 56
    requires luhnified[..14 * g] == Luhnified(base32, g)
    modifies luhnified
    ensures luhnified[..14 * g + 14] == Luhnified(base32, g + 1)
  {
    var src := base32[13 * g..13 * (g + 1)];
    var spelled := Spell(src);
    var check := LuhnCheck(spelled);
    SpellDecodes(src);
    ghost var before := luhnified[..14 * g];
    for j := 0 to 13
      invariant luhnified[..14 * g + j] == before + spelled[..j]
    {
      luhnified[14 * g + j] := spelled[j];
      assert luhnified[..14 * g + j + 1] == luhnified[..14 * g + j] + [spelled[j]];
    }
    luhnified[14 * g + 13] := check.value;
    assert luhnified[..14 * g + 14] == before + (spelled + [check.value]);
  }

  method Display(id: seq<nat>) returns (text: Text)
    requires |id| == 32 && Proper(256, id)
    ensures text == Shown(id)
  {
    hide Checked, Value;
    var base32 := Base32Digits(id);
    assert base32 == IdDigits(id) by { DigitsOfValue(32, base32); }
    var luhnified := new nat[56];
    for g := 0 to 4
      invariant luhnified[..14 * g] == Luhnified(base32, g)
    {
      WriteGroup(base32, g, luhnified);
    }
    assert luhnified[..] == luhnified[..14 * 4];
    text := [];
    for n := 0 to 8
      invariant text == Chunked(luhnified[..], n)
    {
      if n > 0 {
        text := text + [HYPHEN];
      }
      text := text + luhnified[7 * n..7 * (n + 1)];
    }
  }

  lemma {:induction false} SpellDecodes(d: seq<nat>)
    requires Proper(32, d)
    ensures GroupValues(Spell(d)) == Ok(d)
  {
    if d != [] {
      var n := |d| - 1;
      SpellDecodes(d[..n]);
      assert Spell(d)[..n] == Spell(d[..n]);
      assert d == d[..n] + [d[n]];
    }
  }

  // ---------------------------------------------------------------- parsing

  /** Hyphens are skipped and letters raised to upper case. */
  function Clean(t: Text): Text {
    if t == [] then []
    else Clean(t[..|t| - 1]) + (if t[|t| - 1] == HYPHEN then [] else [Upper(t[|t| - 1])])
  }

  function Chunk(clean: Text, g: nat): (c: Text)
    requires 14 * g + 14 <= |clean|
    ensures |c| == 14
  {
    clean[14 * g..14 * g + 14]
  }

  /** A group is its digits, or why it is refused. */
  function GroupDigits(chunk: Text): Result
    requires |chunk| == 14
  {
    match GroupValues(chunk[..13])
    case Err(e) => Err(e)
    case Ok(v) => if chunk[13] != Alphabet(CheckValue(v)) then Err(InvalidCheckDigit) else Ok(v)
  }

  /** The digits of several groups, or the first refusal. */
  function Joined(rs: seq<Result>): Result {
    if rs == [] then Ok([])
    else
      var front, last := Joined(rs[..|rs| - 1]), rs[|rs| - 1];
      if front.Err? || last.Err? then (if front.Err? then front else last) else Ok(front.value + last.value)
  }

  function GroupResults(clean: Text): (rs: seq<Result>)
    requires |clean| == 56
    ensures |rs| == 4
  {
    seq(4, g requires 0 <= g < 4 => GroupDigits(Chunk(clean, g)))
  }

  /** The ID that `clean` spells: the top 256 of the 260 bits. */
  function ParseClean(clean: Text): Result {
    if |clean| != 56 then Err(InvalidLength(|clean|))
    else
      match Joined(GroupResults(clean))
      case Err(e) => Err(e)
      case Ok(d) => Ok(Digits(256, 32, Value(32, d) / 16))
  }

  function Parse(t: Text): Result { ParseClean(Clean(t)) }

  /** The first loop of the parser: at most 56 characters are kept, all are counted. */
  method CollectClean(t: Text) returns (clean: array<nat>, count: nat)
    ensures fresh(clean) && clean.Length == 56 && count == |Clean(t)|
    ensures count <= 56 ==> clean[..count] == Clean(t)
  {
    clean := new nat[56];
    count := 0;
    for i := 0 to |t|
      invariant count == |Clean(t[..i])|
      invariant count <= 56 ==> clean[..count] == Clean(t[..i])
    {
      assert t[..i + 1][..i] == t[..i];
      if t[i] != HYPHEN {
        if count < 56 {
          clean[count] := Upper(t[i]);
          assert clean[..count + 1] == clean[..count] + [Upper(t[i])];
        }
        count := count + 1;
      }
    }
    assert t[..|t|] == t;
  }

  /** `bytes[..byteIdx]` and the pending bits hold the digits `d`. */
  ghost predicate Filled(d: seq<nat>, bytes: seq<nat>, byteIdx: nat, buffer: nat, bits: nat) {
    && byteIdx <= |bytes| == 32 && 5 * |d| == 8 * byteIdx + bits && Proper(256, bytes[..byteIdx])
    && Carries(32, d, 256, bytes[..byteIdx], buffer, bits)
  }

  /** One digit enters the accumulator and leaves complete bytes behind. */
  method PushDigit(x: nat, buffer: nat, bits: nat, bytes: array<nat>, byteIdx: nat, ghost d: seq<nat>)
    returns (buffer': nat, bits': nat, byteIdx': nat)
    requires x < 32 && bits < 8 && |d| < 52 && bytes.Length == 32 && Filled(d, bytes[..], byteIdx, buffer, bits)
    modifies bytes
    ensures bits' < 8 && Filled(d + [x], bytes[..], byteIdx', buffer', bits')
  {
    SmallPowers();
    PushKeeps(32, d, x, 256, bytes[..][..byteIdx], buffer, bits, 5);
    buffer', bits', byteIdx' := (buffer * 32 + x) % U64, bits + 5, byteIdx;
    while bits' >= 8
      invariant bits' <= 12 && Filled(d + [x], bytes[..], byteIdx', buffer', bits')
    {
      ghost var before := bytes[..][..byteIdx'];
      EmitKeeps(32, d + [x], 256, before, buffer', bits', 8);
      bits' := bits' - 8;
      if byteIdx' < 32 {
        bytes[byteIdx'] := (buffer' / P2(bits')) % 256;
        byteIdx' := byteIdx' + 1;
        assert bytes[..][..byteIdx'] == before + [(buffer' / P2(bits')) % 256];
      }
    }
  }

  lemma {:induction false} JoinedStop(rs: seq<Result>, g: nat)
    requires g <= |rs| && Joined(rs[..g]).Err?
    ensures Joined(rs) == Joined(rs[..g])
    decreases |rs| - g
  {
    if g == |rs| {
      assert rs[..g] == rs;
    } else {
      assert rs[..g + 1][..g] == rs[..g];
      JoinedStop(rs, g + 1);
    }
  }

  lemma {:induction false} JoinedOk(rs: seq<Result>)
    ensures Joined(rs).Ok? <==> forall g | 0 <= g < |rs| :: rs[g].Ok?
  {
    if rs != [] { JoinedOk(rs[..|rs| - 1]); }
  }

  lemma JoinedStep(rs: seq<Result>, g: nat)
    requires g < |rs| && Joined(rs[..g]).Ok?
    ensures Joined(rs[..g + 1]) == if rs[g].Err? then rs[g] else Ok(Joined(rs[..g]).value + rs[g].value)
  {
    assert rs[..g + 1][..g] == rs[..g];
  }

  /** The 13 digits of a valid group enter the accumulator. */
  method PushGroup(group: Text, ghost v: seq<nat>, buffer: nat, bits: nat, bytes: array<nat>, byteIdx: nat,
                   ghost d: seq<nat>)
    returns (buffer': nat, bits': nat, byteIdx': nat)
    requires |group| == 13 && GroupValues(group) == Ok(v)
    requires bits < 8 && |d| <= 39 && bytes.Length == 32 && Filled(d, bytes[..], byteIdx, buffer, bits)
    modifies bytes
    ensures bits' < 8 && Filled(d + v, bytes[..], byteIdx', buffer', bits')
  {
    hide Filled, GroupValues, DecodeChar;
    GroupValuesShape(group);
    buffer', bits', byteIdx' := buffer, bits, byteIdx;
    assert d + v[..0] == d;
    for k := 0 to 13
      invariant bits' < 8 && Filled(d + v[..k], bytes[..], byteIdx', buffer', bits')
    {
      var val := DecodeChar(group[k]);
      buffer', bits', byteIdx' := PushDigit(val.value, buffer', bits', bytes, byteIdx', d + v[..k]);
      assert d + v[..k + 1] == d + v[..k] + [val.value];
    }
    assert v[..13] == v;
  }

  /** The 32 bytes filled by 52 digits are the ID those digits spell. */
  lemma FilledIsId(d: seq<nat>, bytes: seq<nat>, byteIdx: nat, buffer: nat, bits: nat)
    requires |d| == 52 && bits < 8 && Filled(d, bytes, byteIdx, buffer, bits)
    ensures bytes == Digits(256, 32, Value(32, d) / 16)
  {
    SmallPowers();
    assert bytes[..32] == bytes;
    QuotientUnique(16, Value(256, bytes), buffer % 16, Value(32, d));
    DigitsOfValue(256, bytes);
  }

  /** The check and the decoding of one group. */
  method TakeGroup(chunk: Text, buffer: nat, bits: nat, bytes: array<nat>, byteIdx: nat, ghost d: seq<nat>)
    returns (r: Result, buffer': nat, bits': nat, byteIdx': nat)
    requires |chunk| == 14 && bits < 8 && |d| <= 39 && bytes.Length == 32 && Filled(d, bytes[..], byteIdx, buffer, bits)
    modifies bytes
    ensures r == GroupDigits(chunk)
    ensures r.Ok? ==> |r.value| == 13 && bits' < 8 && Filled(d + r.value, bytes[..], byteIdx', buffer', bits')
  {
    buffer', bits', byteIdx' := buffer, bits, byteIdx;
    var check := LuhnCheck(chunk[..13]);
    if check.BadChar? {
      r := Err(check.error);
    } else if check.value != chunk[13] {
      r := Err(InvalidCheckDigit);
    } else {
      r := GroupValues(chunk[..13]);
      GroupValuesShape(chunk[..13]);
      buffer', bits', byteIdx' := PushGroup(chunk[..13], r.value, buffer, bits, bytes, byteIdx, d);
    }
  }

  lemma FilledAtStart(bytes: seq<nat>)
    requires |bytes| == 32
    ensures Filled([], bytes, 0, 0, 0)
  {
  }

  /** The second loop of the parser: check each group, then decode it. */
  method DecodeClean(clean: Text) returns (r: Result)
    requires |clean| == 56
    ensures r == ParseClean(clean)
  {
    hide Filled;
    ghost var rs := GroupResults(clean);
    var bytes := new nat[32];
    var buffer: nat, bits: nat, byteIdx: nat := 0, 0, 0;
    ghost var d: seq<nat> := [];
    FilledAtStart(bytes[..]);
    for g := 0 to 4
      invariant Joined(rs[..g]) == Ok(d) && |d| == 13 * g && bits < 8
      invariant Filled(d, bytes[..], byteIdx, buffer, bits)
    {
      JoinedStep(rs, g);
      var v;
      v, buffer, bits, byteIdx := TakeGroup(Chunk(clean, g), buffer, bits, bytes, byteIdx, d);
      if v.Err? {
        JoinedStop(rs, g + 1);
        return v;
      }
      d := d + v.value;
    }
    assert rs[..4] == rs;
    FilledIsId(d, bytes[..], byteIdx, buffer, bits);
    r := Ok(bytes[..]);
  }

  method FromStr(t: Text) returns (r: Result)
    ensures r == Parse(t)
  {
    var cleaned, count := CollectClean(t);
    if count != 56 { return Err(InvalidLength(count)); }
    assert cleaned[..] == cleaned[..count];
    r := DecodeClean(cleaned[..]);
  }

  // ---------------------------------------------------------------- round trip

  lemma {:induction false} CleanConcat(a: Text, b: Text)
    ensures Clean(a + b) == Clean(a) + Clean(b)
  {
    if b == [] {
      assert a + b == a;
    } else {
      var n := |b| - 1;
      assert (a + b)[..|a + b| - 1] == a + b[..n];
      CleanConcat(a, b[..n]);
    }
  }

  predicate Plain(t: Text) { forall i | 0 <= i < |t| :: t[i] != HYPHEN && Upper(t[i]) == t[i] }

  lemma {:induction false} CleanPlain(t: Text)
    requires Plain(t)
    ensures Clean(t) == t
  {
    if t != [] {
      CleanPlain(t[..|t| - 1]);
      assert t == t[..|t| - 1] + [t[|t| - 1]];
    }
  }

  lemma CleanHyphen(front: Text)
    ensures Clean(front + [HYPHEN]) == Clean(front)
  {
    assert (front + [HYPHEN])[..|front|] == front;
  }

  lemma {:induction false} CleanChunked(t: Text, n: nat)
    requires 7 * n <= |t| && Plain(t)
    ensures Clean(Chunked(t, n)) == t[..7 * n]
  {
    if n > 0 {
      CleanChunked(t, n - 1);
      var front, chunk := Chunked(t, n - 1), t[7 * (n - 1)..7 * n];
      CleanPlain(chunk);
      if n == 1 {
        assert Chunked(t, n) == chunk;
      } else {
        CleanHyphen(front);
        CleanConcat(front + [HYPHEN], chunk);
      }
      assert t[..7 * n] == t[..7 * (n - 1)] + chunk;
    }
  }

  lemma {:induction false} LuhnifiedPlain(d: seq<nat>, g: nat)
    requires 13 * g <= |d| && Proper(32, d)
    ensures Plain(Luhnified(d, g))
  {
    if g > 0 { LuhnifiedPlain(d, g - 1); }
  }

  lemma CleanShown(id: seq<nat>)
    ensures Clean(Shown(id)) == Luhnified(IdDigits(id), 4)
  {
    var t := Luhnified(IdDigits(id), 4);
    LuhnifiedPlain(IdDigits(id), 4);
    CleanChunked(t, 8);
    assert t[..56] == t;
  }

  lemma {:induction false} LuhnifiedPrefix(d: seq<nat>, g: nat, n: nat)
    requires g <= n && 13 * n <= |d| && Proper(32, d)
    ensures Luhnified(d, n)[..14 * g] == Luhnified(d, g)
  {
    hide Checked;
    if g < n {
      LuhnifiedPrefix(d, g, n - 1);
      assert Luhnified(d, n)[..14 * g] == Luhnified(d, n - 1)[..14 * g];
    }
  }

  function Group(d: seq<nat>, g: nat): (v: seq<nat>)
    requires 13 * g + 13 <= |d| && Proper(32, d)
    ensures |v| == 13 && Proper(32, v)
  {
    d[13 * g..13 * g + 13]
  }

  /** The chunk of group `g` is its digits with their check character. */
  lemma LuhnifiedChunk(d: seq<nat>, g: nat)
    requires g < 4 && |d| == 52 && Proper(32, d)
    ensures Chunk(Luhnified(d, 4), g) == Checked(Group(d, g))
  {
    hide Checked;
    var t := Luhnified(d, 4);
    LuhnifiedPrefix(d, g + 1, 4);
    assert Chunk(t, g) == t[..14 * (g + 1)][14 * g..];
  }

  lemma CheckedPasses(d: seq<nat>)
    requires |d| == 13 && Proper(32, d)
    ensures GroupDigits(Checked(d)) == Ok(d)
  {
    SpellDecodes(d);
    assert Checked(d)[..13] == Spell(d);
  }

  /** The first `g` results over a checked text are the digits it was made from. */
  lemma {:induction false} JoinedDigits(d: seq<nat>, rs: seq<Result>, g: nat)
    requires |d| == 52 && Proper(32, d) && |rs| == 4 && g <= 4
    requires forall h | 0 <= h < 4 :: rs[h] == Ok(Group(d, h))
    ensures Joined(rs[..g]) == Ok(d[..13 * g])
  {
    if g > 0 {
      JoinedDigits(d, rs, g - 1);
      JoinedStep(rs, g - 1);
      assert d[..13 * g] == d[..13 * (g - 1)] + Group(d, g - 1);
    }
  }

  lemma GroupsOfLuhnified(d: seq<nat>)
    requires |d| == 52 && Proper(32, d)
    ensures Joined(GroupResults(Luhnified(d, 4))) == Ok(d)
  {
    var rs := GroupResults(Luhnified(d, 4));
    forall h | 0 <= h < 4 ensures rs[h] == Ok(Group(d, h)) {
      LuhnifiedChunk(d, h);
      CheckedPasses(Group(d, h));
    }
    JoinedDigits(d, rs, 4);
    assert rs[..4] == rs && d[..52] == d;
  }

  lemma {:induction false} Pow256(n: nat)
    ensures Pow(256, n) == P2(8 * n)
  {
    if n > 0 { Pow256(n - 1); P2Sum(8 * (n - 1), 8); SmallPowers(); }
  }

  lemma {:induction false} Pow32(n: nat)
    ensures Pow(32, n) == P2(5 * n)
  {
    if n > 0 { Pow32(n - 1); P2Sum(5 * (n - 1), 5); SmallPowers(); }
  }

  lemma BitsFit(id: seq<nat>, m: nat)
    requires Proper(256, id) && 8 * |id| + 4 == 5 * m
    ensures 16 * Value(256, id) < Pow(32, m)
  {
    ValueBound(256, id);
    Pow256(|id|);
    Pow32(m);
    P2Sum(8 * |id|, 4);
    SmallPowers();
  }

  /** Parsing the displayed form gives the ID back, for every ID. */
  lemma RoundTrip(id: seq<nat>)
    requires |id| == 32 && Proper(256, id)
    ensures Parse(Shown(id)) == Ok(id)
  {
    var d := IdDigits(id);
    CleanShown(id);
    GroupsOfLuhnified(d);
    BitsFit(id, 52);
    ValueOfDigits(32, 52, 16 * Value(256, id));
    QuotientUnique(16, Value(256, id), 0, 16 * Value(256, id));
    DigitsOfValue(256, id);
  }

  // ---------------------------------------------------------------- which check characters

  const ALPHABET: string := "ABCDEFGHIJKLMNOPQRSTUVWXYZ234567"

  /** The place of a character in the alphabet. */
  predicate Stands(c: nat, v: nat) { v < 32 && c == ALPHABET[v] as nat }

  lemma AlphabetIs(v: nat)
    requires v < 32
    ensures ALPHABET[v] as nat == Alphabet(v)
  {}

  lemma StandsIff(c: nat, v: nat)
    ensures Stands(c, v) <==> Upper(c) == c && DecodeChar(c) == Some(v)
    ensures v < 32 ==> (Stands(c, v) <==> c == Alphabet(v))
  {
    if v < 32 { AlphabetIs(v); }
  }

  predicate Spells(t: Text, v: seq<nat>) { |v| == |t| && forall i | 0 <= i < |t| :: Stands(t[i], v[i]) }

  /** The first `n` digits with weights 1 and 2 in turn, each product counted by its two base-32 digits. */
  function Weighed(v: seq<nat>, n: nat): nat
    requires n <= |v|
  {
    if n == 0 then 0
    else
      var product := if n % 2 == 1 then v[n - 1] else 2 * v[n - 1];
      Weighed(v, n - 1) + (if product < 32 then product else product - 31)
  }

  /** Thirteen characters and one that makes their weighed sum a multiple of 32. */
  ghost predicate Balanced(chunk: Text)
    requires |chunk| == 14
  {
    exists v :: Spells(chunk, v) && (Weighed(v, 13) + v[13]) % 32 == 0
  }

  lemma {:induction false} WeighedIs(v: seq<nat>, n: nat)
    requires n <= |v| && Proper(32, v)
    ensures Weighed(v, n) == LuhnSum(v[..n])
  {
    if n > 0 {
      WeighedIs(v, n - 1);
      assert v[..n][..n - 1] == v[..n - 1];
      TermIs(n - 1, v[n - 1]);
    }
  }

  lemma CheckIff(sum: nat, c: nat)
    requires c < 32
    ensures (sum + c) % 32 == 0 <==> c == (32 - sum % 32) % 32
  {}

  lemma {:induction false} SpelledValues(t: Text, v: seq<nat>)
    requires Spells(t, v)
    ensures GroupValues(t) == Ok(v)
    decreases |t|
  {
    if t != [] {
      var n := |t| - 1;
      StandsIff(t[n], v[n]);
      SpelledValues(t[..n], v[..n]);
      assert v == v[..n] + [v[n]];
    }
  }

  lemma AcceptedBalances(chunk: Text)
    requires |chunk| == 14 && Plain(chunk) && GroupDigits(chunk).Ok?
    ensures Balanced(chunk)
  {
    hide Stands, LuhnSum, Weighed;
    var v := GroupValues(chunk[..13]).value;
    GroupValuesShape(chunk[..13]);
    var w := v + [CheckValue(v)];
    forall i | 0 <= i < 14 ensures Stands(chunk[i], w[i]) { StandsIff(chunk[i], w[i]); }
    assert Spells(chunk, w);
    WeighedIs(w, 13);
    assert w[..13] == v;
    CheckIff(LuhnSum(v), CheckValue(v));
  }

  lemma BalancedAccepted(chunk: Text)
    requires |chunk| == 14 && Balanced(chunk)
    ensures GroupDigits(chunk).Ok?
  {
    hide Stands, LuhnSum, Weighed;
    var w :| Spells(chunk, w) && (Weighed(w, 13) + w[13]) % 32 == 0;
    SpelledValues(chunk[..13], w[..13]);
    forall i | 0 <= i < 14 ensures w[i] < 32 { StandsIff(chunk[i], w[i]); }
    StandsIff(chunk[13], w[13]);
    WeighedIs(w, 13);
    CheckIff(LuhnSum(w[..13]), w[13]);
  }

  lemma {:induction false} JoinedIff(rs: seq<Result>)
    ensures Joined(rs).Ok? <==> forall g | 0 <= g < |rs| :: rs[g].Ok?
  {
    if rs != [] { JoinedIff(rs[..|rs| - 1]); }
  }

  lemma {:induction false} CleanIsPlain(t: Text)
    ensures Plain(Clean(t))
  {
    if t != [] { CleanIsPlain(t[..|t| - 1]); }
  }

  /**
    A text parses if and only if, hyphens and case aside, it has four groups of 14 characters of the
    alphabet, in each of which the weighed digits and the check character add up to a multiple of 32.
   */
  lemma ParsesIff(t: Text)
    ensures Parse(t).Ok? <==> |Clean(t)| == 56 && forall g | 0 <= g < 4 :: Balanced(Chunk(Clean(t), g))
  {
    var clean := Clean(t);
    CleanIsPlain(t);
    if |clean| == 56 {
      JoinedIff(GroupResults(clean));
      forall g | 0 <= g < 4 ensures GroupResults(clean)[g].Ok? <==> Balanced(Chunk(clean, g)) {
        if GroupDigits(Chunk(clean, g)).Ok? { AcceptedBalances(Chunk(clean, g)); }
        if Balanced(Chunk(clean, g)) { BalancedAccepted(Chunk(clean, g)); }
      }
    }
  }

  /** So is every displayed ID. */
  lemma ShownBalanced(id: seq<nat>)
    requires |id| == 32 && Proper(256, id)
    ensures |Clean(Shown(id))| == 56 && forall g | 0 <= g < 4 :: Balanced(Chunk(Clean(Shown(id)), g))
  {
    hide Balanced, Parse, Clean, Shown;
    RoundTrip(id);
    ParsesIff(Shown(id));
  }

  /** Without the check characters, the displayed form spells the ID's bits and four zero bits. */
  lemma ShownSpells(id: seq<nat>)
    requires |id| == 32 && Proper(256, id)
    ensures exists d ::
              && |d| == 52 && Proper(32, d) && Value(32, d) == 16 * Value(256, id) && |Clean(Shown(id))| == 56
              && forall k | 0 <= k < 52 :: Stands(Clean(Shown(id))[k + k / 13], d[k])
  {
    hide Stands, Value, Shown, Clean, Luhnified, Checked;
    CleanShown(id);
    var d := IdDigits(id);
    BitsFit(id, 52);
    ValueOfDigits(32, 52, 16 * Value(256, id));
    forall k | 0 <= k < 52 ensures Stands(Clean(Shown(id))[k + k / 13], d[k]) { DigitShown(d, k); }
  }

  lemma DigitShown(d: seq<nat>, k: nat)
    requires |d| == 52 && Proper(32, d) && k < 52
    ensures Stands(Luhnified(d, 4)[k + k / 13], d[k])
  {
    hide Stands, Luhnified;
    var g, i := k / 13, k % 13;
    LuhnifiedChunk(d, g);
    assert Luhnified(d, 4)[14 * g + i] == Chunk(Luhnified(d, 4), g)[i] == Alphabet(d[13 * g + i]);
    StandsIff(Alphabet(d[k]), d[k]);
  }

  lemma {:induction false} JoinedIs(rs: seq<Result>)
    requires Joined(rs).Ok? && forall g | 0 <= g < |rs| :: rs[g].Ok? && |rs[g].value| == 13 && Proper(32, rs[g].value)
    ensures var d := Joined(rs).value;
            && |d| == 13 * |rs| && Proper(32, d)
            && forall k | 0 <= k < |d| :: d[k] == rs[k / 13].value[k % 13]
  {
    if rs != [] { JoinedIs(rs[..|rs| - 1]); }
  }

  lemma GroupStands(chunk: Text)
    requires |chunk| == 14 && Plain(chunk) && GroupDigits(chunk).Ok?
    ensures var v := GroupDigits(chunk).value;
            |v| == 13 && Proper(32, v) && forall i | 0 <= i < 13 :: Stands(chunk[i], v[i])
  {
    hide Stands;
    GroupValuesShape(chunk[..13]);
    var v := GroupDigits(chunk).value;
    forall i | 0 <= i < 13 ensures Stands(chunk[i], v[i]) { StandsIff(chunk[i], v[i]); }
  }

  /** Sixteen times an ID is a number of 52 digits, and so is whatever is less. */
  lemma TopBitsFit(d: seq<nat>)
    requires |d| == 52 && Proper(32, d)
    ensures Value(32, d) / 16 < Pow(256, 32)
  {
    hide P2, Pow, Value;
    ValueBound(32, d);
    Pow256(32);
    Pow32(52);
    P2Sum(256, 4);
    SmallPowers();
    SixteenthLess(Value(32, d), Pow(256, 32));
  }

  lemma SixteenthLess(v: nat, m: nat)
    requires v < m * 16
    ensures v / 16 < m
  {}

  /** What parses stands for the first 256 of the 260 bits that its characters, check characters aside, spell. */
  lemma ParsedIs(t: Text)
    requires Parse(t).Ok?
    ensures var id := Parse(t).value;
            && |id| == 32 && Proper(256, id) && |Clean(t)| == 56
            && exists d :: && |d| == 52 && Proper(32, d) && Value(256, id) == Value(32, d) / 16
                           && forall k | 0 <= k < 52 :: Stands(Clean(t)[k + k / 13], d[k])
  {
    hide Stands, Value, GroupDigits, Clean;
    var clean := Clean(t);
    var rs := GroupResults(clean);
    CleanIsPlain(t);
    JoinedIff(rs);
    forall g | 0 <= g < 4
      ensures |rs[g].value| == 13 && Proper(32, rs[g].value)
      ensures forall i | 0 <= i < 13 :: Stands(Chunk(clean, g)[i], rs[g].value[i])
    {
      assert rs[g].Ok?;
      GroupStands(Chunk(clean, g));
    }
    JoinedIs(rs);
    var d := Joined(rs).value;
    forall k | 0 <= k < 52 ensures Stands(clean[k + k / 13], d[k]) {
      assert clean[k + k / 13] == Chunk(clean, k / 13)[k % 13];
    }
    TopBitsFit(d);
    ValueOfDigits(256, 32, Value(32, d) / 16);
  }

  /** Eight chunks of seven, a hyphen between two. */
  lemma {:induction false} ChunkedShape(t: Text, n: nat)
    requires 1 <= n && 7 * n <= |t|
    ensures |Chunked(t, n)| == 8 * n - 1
    ensures forall i | 0 <= i < 8 * n - 1 ::
              Chunked(t, n)[i] == if i % 8 == 7 then HYPHEN else t[7 * (i / 8) + i % 8]
  {
    if n > 1 { ChunkedShape(t, n - 1); }
  }

  // ---------------------------------------------------------------- what the check characters detect

  lemma {:induction false} SumUpdate(v: seq<nat>, i: nat, x: nat)
    requires i < |v|
    ensures LuhnSum(v[i := x]) == LuhnSum(v) - Term(i, v[i]) + Term(i, x)
    decreases |v|
  {
    var n := |v| - 1;
    if i == n {
      assert v[i := x][..n] == v[..n];
    } else {
      assert v[i := x][..n] == v[..n][i := x];
      SumUpdate(v[..n], i, x);
    }
  }

  lemma TermIs(i: nat, x: nat)
    requires x < 32
    ensures Term(i, x) == if i % 2 == 0 then x else if x < 16 then 2 * x else 2 * x - 31
  {
    if i % 2 == 1 && x >= 16 {
      QuotientUnique(32, 1, 2 * x - 32, 2 * x);
    }
  }

  lemma TermInjective(i: nat, x: nat, y: nat)
    requires x < 32 && y < 32 && x != y
    ensures Term(i, x) != Term(i, y) && Term(i, x) < 32
  {
    TermIs(i, x);
    TermIs(i, y);
  }

  lemma CheckDiffers(s: nat, t: nat)
    requires s % 32 != t % 32
    ensures (32 - s % 32) % 32 != (32 - t % 32) % 32
  {
  }

  lemma ModShift(s: nat, a: nat, b: nat)
    requires a <= s && a < 32 && b < 32
    ensures (s - a + b) % 32 == s % 32 <==> a == b
  {
  }

  /** Changing one digit of a group changes its check value. */
  lemma OneDigitChangesCheck(v: seq<nat>, i: nat, x: nat)
    requires i < |v| && Proper(32, v) && x < 32 && x != v[i]
    ensures CheckValue(v[i := x]) != CheckValue(v)
  {
    SumUpdate(v, i, x);
    TermInjective(i, v[i], x);
    TermInjective(i, x, v[i]);
    SumAtLeast(v, i);
    ModShift(LuhnSum(v), Term(i, v[i]), Term(i, x));
    CheckDiffers(LuhnSum(v[i := x]), LuhnSum(v));
  }

  lemma {:induction false} SumAtLeast(v: seq<nat>, i: nat)
    requires i < |v|
    ensures Term(i, v[i]) <= LuhnSum(v)
    decreases |v|
  {
    if i < |v| - 1 { SumAtLeast(v[..|v| - 1], i); }
  }

  lemma SwapTerms(i: nat, x: nat, y: nat)
    requires x < 32 && y < 32
    ensures var delta := Term(i, y) - Term(i, x) + Term(i + 1, x) - Term(i + 1, y);
            -32 < delta < 32 && (delta == 0 <==> x == y || Unseen(x, y))
  {
    var delta := Term(i, y) - Term(i, x) + Term(i + 1, x) - Term(i + 1, y);
    TermIs(i, x);
    TermIs(i, y);
    TermIs(i + 1, x);
    TermIs(i + 1, y);
    var gx, gy := if x < 16 then x else x - 31, if y < 16 then y else y - 31;
    if i % 2 == 0 {
      assert delta == gx - gy;
    } else {
      assert delta == gy - gx;
    }
  }

  /** The one pair whose exchange goes unnoticed: `A` and `7`. */
  predicate Unseen(x: nat, y: nat) { (x == 0 && y == 31) || (x == 31 && y == 0) }

  lemma SmallDelta(s: nat, t: nat)
    requires -32 < t - s < 32 && s % 32 == t % 32
    ensures s == t
  {
  }

  /** Swapping two neighbours keeps the check value exactly when they are equal or `A` and `7`. */
  lemma SwapChangesCheck(v: seq<nat>, i: nat)
    requires i + 1 < |v| && Proper(32, v)
    ensures var x, y := v[i], v[i + 1];
            CheckValue(v[i := y][i + 1 := x]) == CheckValue(v) <==> x == y || Unseen(x, y)
  {
    var x, y := v[i], v[i + 1];
    SumUpdate(v, i, y);
    SumUpdate(v[i := y], i + 1, x);
    var s, t := LuhnSum(v), LuhnSum(v[i := y][i + 1 := x]);
    SwapTerms(i, x, y);
    if s % 32 == t % 32 { SmallDelta(s, t); } else { CheckDiffers(t, s); }
  }

  // ---------------------------------------------------------------- what the parser rejects

  /** A cleaned text whose group `g` fails is rejected. */
  lemma BadGroupRejected(clean: Text, g: nat)
    requires |clean| == 56 && g < 4 && GroupDigits(Chunk(clean, g)).Err?
    ensures ParseClean(clean).Err?
  {
    assert GroupResults(clean)[g].Err?;
    JoinedOk(GroupResults(clean));
  }

  lemma AlphabetInjective(x: nat, c: nat)
    requires x < 32 && Upper(c) == c
    ensures DecodeChar(Alphabet(x)) == Some(x)
    ensures DecodeChar(c) == Some(x) ==> c == Alphabet(x)
  {
  }

  /** One character of a group replaced by another, after cleaning. */
  lemma GroupChanged(d: seq<nat>, k: nat, c: nat)
    requires |d| == 13 && Proper(32, d) && k < 14 && Upper(c) == c && c != Checked(d)[k]
    ensures GroupDigits(Checked(d)[k := c]).Err?
  {
    var chunk := Checked(d)[k := c];
    if k == 13 {
      assert chunk[..13] == Spell(d);
      SpellDecodes(d);
    } else if GroupValues(chunk[..13]).Ok? {
      var v := GroupValues(chunk[..13]).value;
      GroupValuesShape(chunk[..13]);
      AlphabetInjective(d[k], c);
      assert chunk[..13][k] == c;
      forall i | 0 <= i < 13 && i != k ensures v[i] == d[i] {
        assert chunk[..13][i] == Alphabet(d[i]);
        AlphabetInjective(d[i], Alphabet(d[i]));
      }
      assert v == d[k := v[k]];
      OneDigitChangesCheck(d, k, v[k]);
      AlphabetInjective(CheckValue(v), Alphabet(CheckValue(v)));
      AlphabetInjective(CheckValue(d), Alphabet(CheckValue(d)));
    }
  }

  /** Substituting any one of the 56 characters of a cleaned ID. */
  lemma CleanSubstitution(d: seq<nat>, k: nat, c: nat)
    requires |d| == 52 && Proper(32, d) && k < 56 && Upper(c) == c && c != Luhnified(d, 4)[k]
    ensures ParseClean(Luhnified(d, 4)[k := c]).Err?
  {
    var t, g := Luhnified(d, 4), k / 14;
    LuhnifiedChunk(d, g);
    assert Chunk(t[k := c], g) == Checked(Group(d, g))[k % 14 := c];
    GroupChanged(Group(d, g), k % 14, c);
    BadGroupRejected(t[k := c], g);
  }

  /** Cleaning around one character. */
  lemma CleanAround(t: Text, i: nat, c: nat)
    requires i < |t|
    ensures Clean(t[i := c]) == Clean(t[..i]) + Clean([c]) + Clean(t[i + 1..])
    ensures Clean(t) == Clean(t[..i]) + Clean([t[i]]) + Clean(t[i + 1..])
  {
    assert t[i := c] == t[..i] + [c] + t[i + 1..];
    assert t == t[..i] + [t[i]] + t[i + 1..];
    CleanConcat(t[..i], [c]);
    CleanConcat(t[..i] + [c], t[i + 1..]);
    CleanConcat(t[..i], [t[i]]);
    CleanConcat(t[..i] + [t[i]], t[i + 1..]);
  }

  lemma CleanOne(c: nat)
    ensures Clean([c]) == if c == HYPHEN then [] else [Upper(c)]
  {
    assert [c][..0] == [];
  }

  /**
    Replacing any single character of a displayed ID, hyphens included, by one that differs from it
    beyond case makes parsing fail.
   */
  lemma SubstitutionDetected(id: seq<nat>, i: nat, c: nat)
    requires i < |Shown(id)| && Upper(c) != Shown(id)[i]
    ensures Parse(Shown(id)[i := c]).Err?
  {
    var t, d := Shown(id), IdDigits(id);
    CleanShown(id);
    var k := CleanReplaced(t, i, c);
    if c != HYPHEN && t[i] != HYPHEN {
      ShownUpper(id, i);
      CleanSubstitution(d, k, Upper(c));
    }
  }

  lemma CleanReplaced(t: Text, i: nat, c: nat) returns (k: nat)
    requires i < |t|
    ensures c == HYPHEN && t[i] != HYPHEN ==> |Clean(t[i := c])| == |Clean(t)| - 1
    ensures c != HYPHEN && t[i] == HYPHEN ==> |Clean(t[i := c])| == |Clean(t)| + 1
    ensures c != HYPHEN && t[i] != HYPHEN ==>
              k < |Clean(t)| && Clean(t)[k] == Upper(t[i]) && Clean(t[i := c]) == Clean(t)[k := Upper(c)]
  {
    CleanAround(t, i, c);
    CleanOne(c);
    CleanOne(t[i]);
    k := |Clean(t[..i])|;
  }

  lemma {:induction false} ChunkedUpper(t: Text, n: nat, i: nat)
    requires 7 * n <= |t| && Plain(t) && i < |Chunked(t, n)|
    ensures Upper(Chunked(t, n)[i]) == Chunked(t, n)[i]
  {
    if n > 1 && i < |Chunked(t, n - 1)| {
      ChunkedUpper(t, n - 1, i);
      assert Chunked(t, n)[i] == Chunked(t, n - 1)[i];
    }
  }

  lemma ShownUpper(id: seq<nat>, i: nat)
    requires i < |Shown(id)|
    ensures Upper(Shown(id)[i]) == Shown(id)[i]
  {
    LuhnifiedPlain(IdDigits(id), 4);
    ChunkedUpper(Luhnified(IdDigits(id), 4), 8, i);
  }

  /** A group with two neighbouring data characters exchanged. */
  lemma GroupSwapped(d: seq<nat>, k: nat)
    requires |d| == 13 && Proper(32, d) && k < 12
    ensures var chunk := Checked(d)[k := Checked(d)[k + 1]][k + 1 := Checked(d)[k]];
            GroupDigits(chunk).Ok? <==> d[k] == d[k + 1] || Unseen(d[k], d[k + 1])
  {
    var e := d[k := d[k + 1]][k + 1 := d[k]];
    SpellDecodes(e);
    assert Checked(d)[k := Checked(d)[k + 1]][k + 1 := Checked(d)[k]][..13] == Spell(e);
    SwapChangesCheck(d, k);
    AlphabetInjective(CheckValue(e), Alphabet(CheckValue(e)));
    AlphabetInjective(CheckValue(d), Alphabet(CheckValue(d)));
  }

  /** Every other group still passes. */
  lemma OtherGroupsPass(d: seq<nat>, t: Text, g: nat)
    requires |d| == 52 && Proper(32, d) && |t| == 56 && g < 4
    requires forall h | 0 <= h < 4 && h != g :: Chunk(t, h) == Chunk(Luhnified(d, 4), h)
    requires GroupDigits(Chunk(t, g)).Ok?
    ensures ParseClean(t).Ok?
  {
    forall h | 0 <= h < 4 && h != g ensures GroupDigits(Chunk(t, h)).Ok? {
      LuhnifiedChunk(d, h);
      CheckedPasses(Group(d, h));
      assert Chunk(t, h) == Chunk(Luhnified(d, 4), h);
    }
    JoinedOk(GroupResults(t));
  }

  /** The text with places `k` and `k + 1` exchanged. */
  function Swap(t: Text, k: nat): (u: Text)
    requires k + 1 < |t|
    ensures |u| == |t|
  {
    t[k := t[k + 1]][k + 1 := t[k]]
  }

  /** A swap inside one group touches that group alone. */
  lemma SwapInGroup(t: Text, g: nat, j: nat)
    requires |t| == 56 && g < 4 && j < 12
    ensures Chunk(Swap(t, 14 * g + j), g) == Swap(Chunk(t, g), j)
    ensures forall h | 0 <= h < 4 && h != g :: Chunk(Swap(t, 14 * g + j), h) == Chunk(t, h)
  {
  }

  /** Exchanging two neighbouring data characters of one group, after cleaning. */
  lemma CleanTransposition(d: seq<nat>, g: nat, j: nat)
    requires |d| == 52 && Proper(32, d) && g < 4 && j < 12
    ensures var t := Luhnified(d, 4);
            var x, y := t[14 * g + j], t[14 * g + j + 1];
            ParseClean(Swap(t, 14 * g + j)).Ok? <==> x == y || {x, y} == {Alphabet(0), Alphabet(31)}
  {
    var t := Luhnified(d, 4);
    var u, group := Swap(t, 14 * g + j), Group(d, g);
    LuhnifiedChunk(d, g);
    SwapInGroup(t, g, j);
    GroupSwapped(group, j);
    PairNames(group[j], group[j + 1]);
    assert Chunk(t, g)[j] == t[14 * g + j] && Chunk(t, g)[j + 1] == t[14 * g + j + 1];
    if GroupDigits(Chunk(u, g)).Ok? {
      OtherGroupsPass(d, u, g);
    } else {
      BadGroupRejected(u, g);
    }
  }

  lemma PairNames(x: nat, y: nat)
    requires x < 32 && y < 32
    ensures Unseen(x, y) <==> {Alphabet(x), Alphabet(y)} == {Alphabet(0), Alphabet(31)}
    ensures x == y <==> Alphabet(x) == Alphabet(y)
  {
    var a, b := Alphabet(x), Alphabet(y);
    if {a, b} == {65, 55} {
      assert a in {65, 55} && b in {65, 55} && 65 in {a, b} && 55 in {a, b};
    }
    if Unseen(x, y) { assert {55, 65} == {65, 55}; }
  }

  /**
    Exchanging two neighbouring data characters of a group, possibly with a hyphen `gap` between
    them, makes parsing fail exactly when they differ and are not `A` and `7`.
   */
  lemma TranspositionDetected(id: seq<nat>, front: Text, x: nat, gap: Text, y: nat, back: Text)
    requires Shown(id) == front + [x] + gap + [y] + back && Clean(gap) == [] && x != HYPHEN && y != HYPHEN
    requires |Clean(front)| % 14 < 12
    ensures Parse(front + [y] + gap + [x] + back).Ok? <==> x == y || {x, y} == {Alphabet(0), Alphabet(31)}
  {
    var k, t := |Clean(front)|, Luhnified(IdDigits(id), 4);
    CleanShown(id);
    CleanFive(front, x, gap, y, back);
    CleanFive(front, y, gap, x, back);
    assert Shown(id)[|front|] == x && Shown(id)[|front + [x] + gap|] == y;
    ShownUpper(id, |front|);
    ShownUpper(id, |front + [x] + gap|);
    SwapMiddle(Clean(front), x, y, Clean(back));
    CleanTransposition(IdDigits(id), k / 14, k % 14);
  }

  lemma SwapMiddle(a: Text, x: nat, y: nat, b: Text)
    ensures Swap(a + [x, y] + b, |a|) == a + [y, x] + b
    ensures (a + [x, y] + b)[|a|] == x && (a + [x, y] + b)[|a| + 1] == y
  {
  }

  lemma CleanFive(front: Text, x: nat, gap: Text, y: nat, back: Text)
    requires Clean(gap) == [] && x != HYPHEN && y != HYPHEN
    ensures Clean(front + [x] + gap + [y] + back) == Clean(front) + [Upper(x), Upper(y)] + Clean(back)
  {
    CleanConcat(front, [x]);
    CleanConcat(front + [x], gap);
    CleanConcat(front + [x] + gap, [y]);
    CleanConcat(front + [x] + gap + [y], back);
    CleanOne(x);
    CleanOne(y);
  }
}
