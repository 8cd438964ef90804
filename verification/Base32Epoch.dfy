/** Epoch numbers as eight Crockford Base32 characters: a round trip, and filenames that sort by number. */
module Base32Epoch {
  import opened Prelude
  import opened Numerals

  const ALPHABET: string := "0123456789ABCDEFGHJKMNPQRSTVWXYZ"

  const MAX_VAL: nat := 0xFF_FFFF_FFFF

  const SUFFIX: string := ".json"

  function CharOf(d: nat): char
    requires d < 32
  {
    ALPHABET[d]
  }

  function Spell(d: seq<nat>): (s: string)
    requires Proper(32, d)
    ensures |s| == |d|
  {
    seq(|d|, i requires 0 <= i < |d| => CharOf(d[i]))
  }

  function Encode(val: nat): string { Spell(Digits(32, 8, val)) }

  function Filename(val: nat): string { Encode(val) + SUFFIX }

  /** Place of `c` in the alphabet. */
  function Position(c: char): (r: Option<nat>)
    ensures r.Some? ==> r.value < 32 && CharOf(r.value) == c
    ensures r.None? ==> c !in ALPHABET
  {
    PositionFrom(c, 0)
  }

  function PositionFrom(c: char, i: nat): (r: Option<nat>)
    requires i <= 32
    ensures r.Some? ==> i <= r.value < 32 && CharOf(r.value) == c
    ensures r.None? ==> forall k | i <= k < 32 :: ALPHABET[k] != c
    decreases 32 - i
  {
    if i == 32 then None else if ALPHABET[i] == c then Some(i) else PositionFrom(c, i + 1)
  }

  function StripSuffix(s: string): string {
    if |s| >= 5 && s[|s| - 5..] == SUFFIX then s[..|s| - 5] else s
  }

  /** Digits are taken from the low end, pushed in that order, and reversed at the end. */
  method ToBase32(val: nat) returns (r: Option<string>)
    ensures r == if val > MAX_VAL then None else Some(Encode(val))
  {
    if val > MAX_VAL { return None; }
    var v := val;
    var s: string := [];
    ghost var low: seq<nat> := [];
    for i := 0 to 8
      invariant |s| == |low| == i && Proper(32, low)
      invariant forall k | 0 <= k < i :: s[k] == CharOf(low[i - 1 - k])
      invariant Digits(32, 8, val) == Digits(32, 8 - i, v) + low
    {
      s := s + [CharOf(v % 32)];
      low := [v % 32] + low;
      v := v / 32;
    }
    assert low == Digits(32, 8, val);
    r := Some(seq(8, k requires 0 <= k < 8 => s[7 - k]));
    assert r.value == Encode(val);
  }

  /** The value read so far is shifted and the next digit put in. */
  method FromBase32(text: string) returns (r: Option<nat>)
    ensures r == Decode(text)
  {
    var s := StripSuffix(text);
    if |s| != 8 { return None; }
    var val := 0;
    for i := 0 to 8
      invariant DecodeDigits(s[..i]) == Some(val)
    {
      assert s[..i + 1][..i] == s[..i];
      var idx := Position(s[i]);
      if idx.None? {
        DecodeStops(s, i + 1);
        return None;
      }
      val := val * 32 + idx.value;
    }
    assert s[..8] == s;
    r := Some(val);
  }

  function DecodeDigits(s: string): Option<nat> {
    if s == [] then Some(0)
    else
      var init := DecodeDigits(s[..|s| - 1]);
      var idx := Position(s[|s| - 1]);
      if init.Some? && idx.Some? then Some(init.value * 32 + idx.value) else None
  }

  function Decode(text: string): Option<nat> {
    var s := StripSuffix(text);
    if |s| != 8 then None else DecodeDigits(s)
  }

  lemma {:induction false} DecodeStops(s: string, i: nat)
    requires i <= |s| && DecodeDigits(s[..i]).None?
    ensures DecodeDigits(s).None?
    decreases |s| - i
  {
    if i == |s| {
      assert s[..i] == s;
    } else {
      assert s[..i + 1][..i] == s[..i];
      DecodeStops(s, i + 1);
    }
  }

  lemma AlphabetAscends(i: nat, j: nat)
    requires i < 32 && j < 32
    ensures i < j <==> CharOf(i) < CharOf(j)
  {
    assert forall k | 0 <= k < 31 :: ALPHABET[k] < ALPHABET[k + 1];
    if i < j { Ascends(i, j); }
    if j < i { Ascends(j, i); }
  }

  lemma {:induction false} Ascends(i: nat, j: nat)
    requires i < j < 32 && forall k | 0 <= k < 31 :: ALPHABET[k] < ALPHABET[k + 1]
    ensures CharOf(i) < CharOf(j)
    decreases j
  {
    assert ALPHABET[j - 1] < ALPHABET[j - 1 + 1];
    if i < j - 1 { Ascends(i, j - 1); }
  }

  lemma PositionOfChar(d: nat)
    requires d < 32
    ensures Position(CharOf(d)) == Some(d)
  {
    var p := Position(CharOf(d));
    assert CharOf(d) in ALPHABET;
    AlphabetAscends(d, p.value);
    AlphabetAscends(p.value, d);
  }

  lemma {:induction false} DecodeSpell(d: seq<nat>)
    requires Proper(32, d)
    ensures DecodeDigits(Spell(d)) == Some(Value(32, d))
  {
    if d != [] {
      var init, x := d[..|d| - 1], d[|d| - 1];
      DecodeSpell(init);
      PositionOfChar(x);
      assert Spell(d)[..|d| - 1] == Spell(init);
    }
  }

  lemma {:induction false} SpellDecoded(s: string) returns (d: seq<nat>)
    requires DecodeDigits(s).Some?
    ensures Proper(32, d) && Spell(d) == s && Value(32, d) == DecodeDigits(s).value
  {
    if s == [] {
      d := [];
    } else {
      var init := SpellDecoded(s[..|s| - 1]);
      var x := Position(s[|s| - 1]).value;
      d := init + [x];
      ValueAppend(32, init, x);
      assert s == s[..|s| - 1] + [s[|s| - 1]];
    }
  }

  lemma EncodedHasNoSuffix(val: nat)
    ensures StripSuffix(Encode(val)) == Encode(val) && StripSuffix(Filename(val)) == Encode(val)
  {
    var s := Encode(val);
    assert s[3..][0] == CharOf(Digits(32, 8, val)[3]) && CharOf(Digits(32, 8, val)[3]) in ALPHABET;
    assert SUFFIX[0] !in ALPHABET;
    assert Filename(val)[8..] == SUFFIX && Filename(val)[..8] == s;
  }

  /** Every epoch is read back from its eight characters and from its filename. */
  lemma RoundTrip(val: nat)
    requires val <= MAX_VAL
    ensures Decode(Encode(val)) == Some(val) && Decode(Filename(val)) == Some(val)
  {
    PowIs();
    EncodedHasNoSuffix(val);
    DecodeSpell(Digits(32, 8, val));
    ValueOfDigits(32, 8, val);
  }

  /** Whatever parses is the encoding of its value, so distinct names give distinct epochs. */
  lemma ParsedIsEncoded(text: string)
    requires Decode(text).Some?
    ensures Decode(text).value <= MAX_VAL && Encode(Decode(text).value) == StripSuffix(text)
  {
    PowIs();
    var d := SpellDecoded(StripSuffix(text));
    ValueBound(32, d);
    DigitsOfValue(32, d);
  }

  lemma PowIs()
    ensures Pow(32, 8) == MAX_VAL + 1
  {
    assert Pow(32, 2) == 1024;
    assert Pow(32, 4) == 0x10_0000;
    assert Pow(32, 6) == 0x4000_0000;
  }

  /** Order on strings, character by character. */
  ghost predicate StringLess(s: string, t: string) {
    (|s| < |t| && s == t[..|s|]) ||
    exists k :: 0 <= k < |s| && k < |t| && s[..k] == t[..k] && s[k] < t[k]
  }

  lemma SpellOrder(d: seq<nat>, e: seq<nat>, tail: string)
    requires Proper(32, d) && Proper(32, e) && |d| == |e|
    ensures LexLess(d, e) <==> StringLess(Spell(d) + tail, Spell(e) + tail)
  {
    var s, t := Spell(d) + tail, Spell(e) + tail;
    forall k | 0 <= k < |d| ensures (d[..k] == e[..k] <==> s[..k] == t[..k]) && (d[k] < e[k] <==> s[k] < t[k]) {
      SpellPrefix(d, e, tail, k);
      AlphabetAscends(d[k], e[k]);
    }
    if LexLess(d, e) {
      var k :| DiffersAt(d, e, k) && d[k] < e[k];
      assert s[..k] == t[..k] && s[k] < t[k];
    }
    if StringLess(s, t) {
      var k :| 0 <= k < |s| && k < |t| && s[..k] == t[..k] && s[k] < t[k];
      assert k < |d|;
      assert DiffersAt(d, e, k) && d[k] < e[k];
    }
  }

  lemma SpellPrefix(d: seq<nat>, e: seq<nat>, tail: string, k: nat)
    requires Proper(32, d) && Proper(32, e) && |d| == |e| && k < |d|
    ensures d[..k] == e[..k] <==> (Spell(d) + tail)[..k] == (Spell(e) + tail)[..k]
  {
    var s, t := (Spell(d) + tail)[..k], (Spell(e) + tail)[..k];
    forall i | 0 <= i < k ensures s[i] == CharOf(d[i]) && t[i] == CharOf(e[i]) {}
    if s == t {
      forall i | 0 <= i < k ensures d[i] == e[i] {
        assert s[i] == t[i];
        AlphabetAscends(d[i], e[i]);
        AlphabetAscends(e[i], d[i]);
      }
    }
    if d[..k] == e[..k] {
      forall i | 0 <= i < k ensures s[i] == t[i] { assert d[..k][i] == e[..k][i]; }
    }
  }

  lemma PrefixSlice(front: string, s: string, t: string, k: nat)
    requires k <= |s| && k <= |t|
    ensures s[..k] == t[..k] <==> (front + s)[..|front| + k] == (front + t)[..|front| + k]
  {
    assert (front + s)[..|front| + k] == front + s[..k];
    assert (front + t)[..|front| + k] == front + t[..k];
    assert (front + s[..k])[|front|..] == s[..k] && (front + t[..k])[|front|..] == t[..k];
  }

  lemma PrefixOrder(front: string, s: string, t: string)
    requires |s| == |t|
    ensures StringLess(front + s, front + t) <==> StringLess(s, t)
  {
    var fs, ft := front + s, front + t;
    if StringLess(s, t) {
      var k :| 0 <= k < |s| && k < |t| && s[..k] == t[..k] && s[k] < t[k];
      PrefixSlice(front, s, t, k);
      assert fs[|front| + k] < ft[|front| + k];
    }
    if StringLess(fs, ft) {
      var j :| 0 <= j < |fs| && j < |ft| && fs[..j] == ft[..j] && fs[j] < ft[j];
      assert j >= |front|;
      PrefixSlice(front, s, t, j - |front|);
      assert s[j - |front|] < t[j - |front|];
    }
  }

  /** Names built from an epoch between fixed parts sort as their epochs do. */
  lemma NameOrder(front: string, tail: string, u: nat, v: nat)
    requires u <= MAX_VAL && v <= MAX_VAL
    ensures StringLess(front + (Encode(u) + tail), front + (Encode(v) + tail)) <==> u < v
  {
    PowIs();
    DigitsOrder(32, 8, u, v);
    SpellOrder(Digits(32, 8, u), Digits(32, 8, v), tail);
    PrefixOrder(front, Encode(u) + tail, Encode(v) + tail);
  }

  /** Sorting epoch filenames sorts the epochs. */
  lemma FilenameOrder(u: nat, v: nat)
    requires u <= MAX_VAL && v <= MAX_VAL
    ensures StringLess(Filename(u), Filename(v)) <==> u < v
  {
    PowIs();
    DigitsOrder(32, 8, u, v);
    SpellOrder(Digits(32, 8, u), Digits(32, 8, v), SUFFIX);
  }
}
