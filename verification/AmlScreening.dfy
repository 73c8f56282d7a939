/** The deterministic fallback of the AML screening: a 32-bit string hash and the score,
    level and flags read off it. */
module AmlScreening {

  /** A UTF-16 code unit. */
  type CodeUnit = x: int | 0 <= x <= 0xFFFF

  const TWO_32: int := 0x1_0000_0000

  /** JavaScript's conversion to a signed 32-bit integer. */
  function Int32(x: int): (r: int)
    ensures -0x8000_0000 <= r < 0x8000_0000
  {
    (x + 0x8000_0000) % TWO_32 - 0x8000_0000
  }

  predicate Congruent(x: int, y: int) { x % TWO_32 == y % TWO_32 }

  /** Congruence in the form in which it is computed with: the difference is a multiple. */
  lemma CongruentIff(x: int, y: int)
    ensures Congruent(x, y) <==> exists k :: x == y + TWO_32 * k
  {
    if Congruent(x, y) {
      assert x == y + TWO_32 * (x / TWO_32 - y / TWO_32);
    }
    forall k | x == y + TWO_32 * k ensures Congruent(x, y) {
      MultipleVanishes(y, k);
    }
  }

  lemma MultipleVanishes(y: int, k: int)
    ensures (y + TWO_32 * k) % TWO_32 == y % TWO_32
  {
    var q, r := y / TWO_32, y % TWO_32;
    assert y + TWO_32 * k == TWO_32 * (q + k) + r;
  }

  /** Conversion picks the signed 32-bit representative of each residue class. */
  lemma Int32Represents(x: int, y: int)
    ensures Congruent(Int32(x), x)
    ensures Int32(x) == Int32(y) <==> Congruent(x, y)
    ensures -0x8000_0000 <= x < 0x8000_0000 ==> Int32(x) == x
  {
  }

  function Pow31(n: nat): int { if n == 0 then 1 else 31 * Pow31(n - 1) }

  /** The unbounded polynomial hash: the sum of s[i] * 31^(n - 1 - i). */
  function Poly(s: seq<CodeUnit>): int {
    if s == [] then 0 else s[0] * Pow31(|s| - 1) + Poly(s[1..])
  }

  lemma {:induction false} PolyConcat(s: seq<CodeUnit>, t: seq<CodeUnit>)
    ensures Poly(s + t) == Poly(s) * Pow31(|t|) + Poly(t)
  {
    if s == [] {
      assert s + t == t;
    } else {
      assert (s + t)[1..] == s[1..] + t;
      PolyConcat(s[1..], t);
      PowAdd(|s| - 1, |t|);
      Distribute(s[0], Pow31(|s| - 1), Poly(s[1..]), Pow31(|t|));
    }
  }

  lemma Distribute(c: int, m: int, rest: int, p: int)
    ensures (c * m + rest) * p == c * (m * p) + rest * p
  {
    assert (c * m) * p == c * (m * p);
  }

  lemma {:induction false} PowAdd(m: nat, n: nat)
    ensures Pow31(m + n) == Pow31(m) * Pow31(n)
  {
    if m > 0 {
      PowAdd(m - 1, n);
      assert 31 * (Pow31(m - 1) * Pow31(n)) == (31 * Pow31(m - 1)) * Pow31(n);
    }
  }

  /** Appending a character multiplies the polynomial by 31 and adds the character. */
  lemma PolyAppend(s: seq<CodeUnit>, c: CodeUnit)
    ensures Poly(s + [c]) == 31 * Poly(s) + c
  {
    PolyConcat(s, [c]);
    assert Poly([c]) == c;
    assert Pow31(1) == 31;
  }

  /** The loop body, `((h << 5) - h) + c` followed by the conversion to 32 bits. The shift
      converts its result to 32 bits as well. */
  function Roll(h: int, c: CodeUnit): int {
    Int32(Int32(h * 32) - h + c)
  }

  /** Each step of the loop wraps, and the wraps do not matter: the step computes the
      residue of 31 h + c. */
  lemma RollIsResidue(h: int, x: int, c: CodeUnit)
    requires Congruent(h, x)
    ensures Roll(h, c) == Int32(31 * x + c)
  {
    CongruentIff(h, x);
    var k :| h == x + TWO_32 * k;
    Int32Represents(h * 32, 0);
    CongruentIff(Int32(h * 32), h * 32);
    var m :| Int32(h * 32) == h * 32 + TWO_32 * m;
    assert Int32(h * 32) - h + c == 31 * x + c + TWO_32 * (31 * k + m);
    CongruentIff(Int32(h * 32) - h + c, 31 * x + c);
    Int32Represents(Int32(h * 32) - h + c, 31 * x + c);
  }

  function Abs(x: int): nat { if x < 0 then -x else x }

  /** What the hash of a string is, without any wrapping on the way. */
  function HashOf(s: seq<CodeUnit>): nat { Abs(Int32(Poly(s))) }

  /** The hash before its sign is dropped, computed by the wrapping loop. */
  method RollingHash(s: seq<CodeUnit>) returns (hash: int)
    ensures hash == Int32(Poly(s))
  {
    hash := 0;
    for i := 0 to |s|
      invariant hash == Int32(Poly(s[..i]))
    {
      Int32Represents(Poly(s[..i]), 0);
      RollIsResidue(hash, Poly(s[..i]), s[i]);
      PolyAppend(s[..i], s[i]);
      assert s[..i + 1] == s[..i] + [s[i]];
      hash := Int32(Int32(hash * 32) - hash + s[i]);
    }
    assert s[..|s|] == s;
  }

  method SimpleHash(s: seq<CodeUnit>) returns (hash: nat)
    ensures hash == HashOf(s)
    ensures hash <= 0x8000_0000
  {
    var signed := RollingHash(s);
    hash := Abs(signed);
  }

  /** Different texts can have one hash: "Aa" and "BB" both have 2112. */
  lemma HashesCollide()
    ensures HashOf(['A' as int, 'a' as int]) == HashOf(['B' as int, 'B' as int]) == 2112
  {
    PolyAppend(['A' as int], 'a' as int);
    PolyAppend(['B' as int], 'B' as int);
    assert Poly([65]) == 65 && Poly([66]) == 66;
  }

  /** Before the sign is dropped, the hash of a concatenation follows from the hashes of
      its parts. */
  lemma HashConcat(s: seq<CodeUnit>, t: seq<CodeUnit>)
    ensures Congruent(Int32(Poly(s + t)), Int32(Poly(s)) * Pow31(|t|) + Int32(Poly(t)))
  {
    var p := Pow31(|t|);
    PolyConcat(s, t);
    Int32Represents(Poly(s), 0);
    Int32Represents(Poly(t), 0);
    Int32Represents(Poly(s + t), 0);
    CongruentIff(Int32(Poly(s)), Poly(s));
    CongruentIff(Int32(Poly(t)), Poly(t));
    var j :| Int32(Poly(s)) == Poly(s) + TWO_32 * j;
    var k :| Int32(Poly(t)) == Poly(t) + TWO_32 * k;
    CombineMultiples(Poly(s), Poly(t), p, j, k);
    MultipleVanishes(Poly(s + t), j * p + k);
  }

  lemma CombineMultiples(a: int, b: int, p: int, j: int, k: int)
    ensures (a + TWO_32 * j) * p + (b + TWO_32 * k) == a * p + b + TWO_32 * (j * p + k)
  {
    Distribute(TWO_32, j, a, p);
  }

  // ---------------------------------------------------------------- the screening

  datatype Level = Low | Medium | High | Critical

  datatype FlagType = HighRiskJurisdiction | Sanctions | MixerUsage | DarknetMarket

  function GetRiskLevel(score: int): Level {
    if score >= 80 then Critical else if score >= 60 then High else if score >= 30 then Medium else Low
  }

  function Rank(l: Level): nat {
    match l
    case Low => 0
    case Medium => 1
    case High => 2
    case Critical => 3
  }

  /** A higher score never has a lower level. */
  lemma LevelMonotone(a: int, b: int)
    requires a <= b
    ensures Rank(GetRiskLevel(a)) <= Rank(GetRiskLevel(b))
  {
  }

  lemma LevelBounds(score: int)
    ensures GetRiskLevel(score) == Critical <==> 80 <= score
    ensures GetRiskLevel(score) == High <==> 60 <= score < 80
    ensures GetRiskLevel(score) == Medium <==> 30 <= score < 60
    ensures GetRiskLevel(score) == Low <==> score < 30
  {
  }

  datatype Screening = Screening(riskScore: int, level: Level, flags: seq<FlagType>)

  /** ASCII lower case. That is enough for the word looked for: outside ASCII only the Kelvin
      sign, which gives a `k`, and U+0130, which gives an `i` followed by a combining dot,
      lower-case into anything with an ASCII letter in it, and "sanction" has neither. */
  function ToLower(s: seq<CodeUnit>): seq<CodeUnit> {
    seq(|s|, i requires 0 <= i < |s| => if 65 <= s[i] <= 90 then s[i] + 32 else s[i])
  }

  predicate Includes(s: seq<CodeUnit>, part: seq<CodeUnit>) {
    exists i | 0 <= i <= |s| :: part <= s[i..]
  }

  const GB: seq<CodeUnit> := [71, 66]
  const GC: seq<CodeUnit> := [71, 67]
  const SANCTION: seq<CodeUnit> := [115, 97, 110, 99, 116, 105, 111, 110]

  predicate IsLetter(c: CodeUnit, lower: char)
    requires 'a' <= lower <= 'z'
  {
    c == lower as int || c == lower as int - 32
  }

  /** The word "sanction" stands at position `i`, each letter in lower or upper case. */
  predicate SanctionAt(s: seq<CodeUnit>, i: nat)
    requires i + 8 <= |s|
  {
    && IsLetter(s[i], 's') && IsLetter(s[i + 1], 'a') && IsLetter(s[i + 2], 'n') && IsLetter(s[i + 3], 'c')
    && IsLetter(s[i + 4], 't') && IsLetter(s[i + 5], 'i') && IsLetter(s[i + 6], 'o') && IsLetter(s[i + 7], 'n')
  }

  predicate MentionsSanction(s: seq<CodeUnit>) {
    exists i :: 0 <= i <= |s| - 8 && SanctionAt(s, i)
  }

  /** Looking for the word in the lower-cased text finds it in any mix of cases. */
  lemma SanctionInAnyCase(s: seq<CodeUnit>)
    ensures Includes(ToLower(s), SANCTION) <==> MentionsSanction(s)
  {
    forall i | 0 <= i <= |s| ensures SANCTION <= ToLower(s)[i..] <==> i <= |s| - 8 && SanctionAt(s, i) {
      if i <= |s| - 8 {
        WordHere(s, i);
      }
    }
  }

  lemma WordHere(s: seq<CodeUnit>, i: nat)
    requires i + 8 <= |s|
    ensures SANCTION <= ToLower(s)[i..] <==> SanctionAt(s, i)
  {
    var w := ToLower(s)[i..];
    assert SANCTION <= w <==> forall k | 0 <= k < 8 :: w[k] == SANCTION[k];
    assert SANCTION <= w <==> (w[0] == 115 && w[1] == 97 && w[2] == 110 && w[3] == 99 && w[4] == 116 && w[5] == 105 && w[6] == 111 && w[7] == 110);
  }

  /** The text begins with the two letters of a Stellar account that the screening knows. */
  predicate StellarPrefix(s: seq<CodeUnit>) {
    2 <= |s| && s[0] == 'G' as int && (s[1] == 'B' as int || s[1] == 'C' as int)
  }

  /** The score is a residue of the hash, so it is at most 99; the flags follow from the
      score and from the text of the address, except that the darknet flag looks at the
      hash modulo 30, which the score does not determine. */
  method MockScreening(address: seq<CodeUnit>) returns (r: Screening)
    ensures 0 <= r.riskScore <= 99 && r.riskScore == HashOf(address) % 100
    ensures r.level == Critical <==> 80 <= r.riskScore
    ensures r.level == High <==> 60 <= r.riskScore < 80
    ensures r.level == Medium <==> 30 <= r.riskScore < 60
    ensures r.level == Low <==> r.riskScore < 30
    ensures HighRiskJurisdiction in r.flags <==> StellarPrefix(address) && r.riskScore % 10 == 0
    ensures Sanctions in r.flags <==> MentionsSanction(address) || r.riskScore in {0, 50}
    ensures MixerUsage in r.flags <==> r.riskScore in {0, 20, 40, 60, 80}
    ensures DarknetMarket in r.flags <==> HashOf(address) % 30 == 0
    ensures DarknetMarket in r.flags ==> r.riskScore % 10 == 0
    ensures forall i, j | 0 <= i < j < |r.flags| :: Order(r.flags[i]) < Order(r.flags[j])
  {
    var hash := SimpleHash(address);
    var riskScore := hash % 100;
    ScoreDecides(hash);
    var suspicious := Includes(ToLower(address), SANCTION);
    SanctionInAnyCase(address);
    PrefixIs(address);
    var flags := [];
    if GB <= address || GC <= address {
      if hash % 10 == 0 {
        flags := flags + [HighRiskJurisdiction];
      }
    }
    if suspicious || hash % 50 == 0 {
      flags := flags + [Sanctions];
    }
    if hash % 20 == 0 {
      flags := flags + [MixerUsage];
    }
    if hash % 30 == 0 {
      flags := flags + [DarknetMarket];
    }
    r := Screening(riskScore, GetRiskLevel(riskScore), flags);
    LevelBounds(riskScore);
    FlagList((GB <= address || GC <= address) && hash % 10 == 0, suspicious || hash % 50 == 0, hash % 20 == 0, hash % 30 == 0, flags);
  }

  lemma PrefixIs(s: seq<CodeUnit>)
    ensures GB <= s || GC <= s <==> StellarPrefix(s)
  {
  }

  function FlagIf(condition: bool, f: FlagType): seq<FlagType> { if condition then [f] else [] }

  lemma FlagList(highRisk: bool, sanctions: bool, mixer: bool, darknet: bool, flags: seq<FlagType>)
    requires flags == FlagIf(highRisk, HighRiskJurisdiction) + FlagIf(sanctions, Sanctions) + FlagIf(mixer, MixerUsage) + FlagIf(darknet, DarknetMarket)
    ensures HighRiskJurisdiction in flags <==> highRisk
    ensures Sanctions in flags <==> sanctions
    ensures MixerUsage in flags <==> mixer
    ensures DarknetMarket in flags <==> darknet
    ensures forall i, j | 0 <= i < j < |flags| :: Order(flags[i]) < Order(flags[j])
  {
  }

  /** The order in which the flags are reported, each at most once. */
  function Order(f: FlagType): nat {
    match f
    case HighRiskJurisdiction => 0
    case Sanctions => 1
    case MixerUsage => 2
    case DarknetMarket => 3
  }

  lemma ScoreDecides(hash: nat)
    ensures hash % 10 == hash % 100 % 10
    ensures hash % 50 == 0 <==> hash % 100 in {0, 50}
    ensures hash % 20 == 0 <==> hash % 100 in {0, 20, 40, 60, 80}
    ensures hash % 30 == 0 ==> hash % 100 % 10 == 0
  {
    Residues(hash / 100, hash % 100);
    if hash % 30 == 0 {
      Residues(0, hash % 100);
      Multiples(hash / 30, hash / 100, hash % 100);
    }
  }

  lemma Residues(q: int, r: nat)
    ensures (100 * q + r) % 10 == r % 10
    ensures (100 * q + r) % 50 == r % 50
    ensures (100 * q + r) % 20 == r % 20
  {
    Residue10(10 * q + r / 10, r % 10);
    Residue50(2 * q + r / 50, r % 50);
    Residue20(5 * q + r / 20, r % 20);
  }

  lemma Residue10(k: int, b: int)
    requires 0 <= b < 10
    ensures (10 * k + b) % 10 == b
  {
  }

  lemma Residue20(k: int, b: int)
    requires 0 <= b < 20
    ensures (20 * k + b) % 20 == b
  {
  }

  lemma Residue50(k: int, b: int)
    requires 0 <= b < 50
    ensures (50 * k + b) % 50 == b
  {
  }

  lemma Multiples(p: int, q: int, r: nat)
    requires 30 * p == 100 * q + r
    ensures r % 10 == 0
  {
    assert r == 10 * (3 * p - 10 * q);
  }
}
