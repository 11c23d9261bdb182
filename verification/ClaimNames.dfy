/**
 * The names claims have on disk: a prefix, a digest of the original name and the original
 * name itself in base64url (section 5 of RFC 4648, without padding). Names are byte strings
 * here, and the digest is a parameter.
 */
module ClaimNames {
  import opened Wrappers
  import opened Text

  type Byte = n: nat | n < 256
  type Sextet = n: nat | n < 64

  const CLAIM_PREFIX := ".processing-"

  /** The four sextets of three bytes. */
  function First(x: Byte): Sextet { x / 4 }
  function Second(x: Byte, y: Byte): Sextet { var n: nat := x % 4 * 16 + y / 16; n }
  function Third(y: Byte, z: Byte): Sextet { var n: nat := y % 16 * 4 + z / 64; n }
  function Fourth(z: Byte): Sextet { z % 64 }

  /** And the three bytes of four sextets. */
  function High(p: Sextet, q: Sextet): Byte { var n: nat := p * 4 + q / 16; n }
  function Middle(q: Sextet, r: Sextet): Byte { var n: nat := q % 16 * 16 + r / 4; n }
  function Low(r: Sextet, s: Sextet): Byte { var n: nat := r % 4 * 64 + s; n }

  /** One or two bytes at the end make two or three sextets. */
  function Sextets(b: seq<Byte>): seq<Sextet> {
    if |b| == 0 then []
    else if |b| == 1 then [First(b[0]), Second(b[0], 0)]
    else if |b| == 2 then [First(b[0]), Second(b[0], b[1]), Third(b[1], 0)]
    else [First(b[0]), Second(b[0], b[1]), Third(b[1], b[2]), Fourth(b[2])] + Sextets(b[3..])
  }

  /** The other way around; a single sextet at the end says nothing. */
  function Bytes(s: seq<Sextet>): seq<Byte> {
    if |s| < 2 then []
    else if |s| == 2 then [High(s[0], s[1])]
    else if |s| == 3 then [High(s[0], s[1]), Middle(s[1], s[2])]
    else [High(s[0], s[1]), Middle(s[1], s[2]), Low(s[2], s[3])] + Bytes(s[4..])
  }

  function Letter(n: Sextet): char {
    if n < 26 then 'A' + n as char
    else if n < 52 then 'a' + (n - 26) as char
    else if n < 62 then '0' + (n - 52) as char
    else if n == 62 then '-' else '_'
  }

  /** The decoder also takes the letters of plain base64. */
  function Value(c: char): Option<Sextet> {
    if 'A' <= c <= 'Z' then Some((c - 'A') as nat)
    else if 'a' <= c <= 'z' then Some((c - 'a') as nat + 26)
    else if '0' <= c <= '9' then Some((c - '0') as nat + 52)
    else if c == '-' || c == '+' then Some(62)
    else if c == '_' || c == '/' then Some(63)
    else None
  }

  function Letters(s: seq<Sextet>): string {
    if s == [] then [] else [Letter(s[0])] + Letters(s[1..])
  }

  /** Characters outside the alphabet are skipped. */
  function Values(text: string): seq<Sextet> {
    if text == [] then []
    else (if Value(text[0]).Some? then [Value(text[0]).value] else []) + Values(text[1..])
  }

  function Encode(b: seq<Byte>): string {
    Letters(Sextets(b))
  }

  function Decode(text: string): seq<Byte> {
    Bytes(Values(text))
  }

  type Digest = seq<Byte> -> string

  function ClaimName(digest: Digest, name: seq<Byte>): string {
    CLAIM_PREFIX + digest(name) + "-" + Encode(name)
  }

  /** The original name, if encoding it again gives the same claim name. */
  function DecodeClaimName(digest: Digest, name: string): Option<seq<Byte>> {
    if !(CLAIM_PREFIX <= name) then None
    else
      var rest := name[|CLAIM_PREFIX|..];
      var separator := IndexOf(rest, '-');
      if separator.None? then None
      else
        var original := Decode(rest[separator.value + 1..]);
        if ClaimName(digest, original) == name then Some(original) else None
  }

  // ---------------------------------------------------------------- decoding undoes encoding

  lemma ThreeBytes(x: Byte, y: Byte, z: Byte)
    ensures High(First(x), Second(x, y)) == x
    ensures Middle(Second(x, y), Third(y, z)) == y
    ensures Low(Third(y, z), Fourth(z)) == z
  {
  }

  lemma ShortBytes(b: seq<Byte>)
    requires |b| <= 2
    ensures Bytes(Sextets(b)) == b
  {
    hide First, Second, Third, Fourth, High, Middle, Low;
    if |b| == 1 {
      ThreeBytes(b[0], 0, 0);
    } else if |b| == 2 {
      ThreeBytes(b[0], b[1], 0);
    }
  }

  lemma FirstGroup(p: Sextet, q: Sextet, r: Sextet, s: Sextet, rest: seq<Sextet>)
    ensures Bytes([p, q, r, s] + rest) == [High(p, q), Middle(q, r), Low(r, s)] + Bytes(rest)
  {
    hide High, Middle, Low;
    assert ([p, q, r, s] + rest)[4..] == rest;
  }

  lemma {:induction false} BytesOfSextets(b: seq<Byte>)
    ensures Bytes(Sextets(b)) == b
  {
    if |b| <= 2 {
      ShortBytes(b);
    } else {
      hide First, Second, Third, Fourth, High, Middle, Low, Bytes;
      FirstGroup(First(b[0]), Second(b[0], b[1]), Third(b[1], b[2]), Fourth(b[2]), Sextets(b[3..]));
      ThreeBytes(b[0], b[1], b[2]);
      BytesOfSextets(b[3..]);
      assert b == [b[0], b[1], b[2]] + b[3..];
    }
  }

  lemma ValueOfLetter(n: Sextet)
    ensures Value(Letter(n)) == Some(n)
  {
  }

  lemma {:induction false} ValuesOfLetters(s: seq<Sextet>)
    ensures Values(Letters(s)) == s
  {
    if s != [] {
      ValueOfLetter(s[0]);
      hide Value, Letter;
      ValuesOfLetters(s[1..]);
      assert Letters(s)[1..] == Letters(s[1..]);
    }
  }

  lemma DecodeUndoesEncode(b: seq<Byte>)
    ensures Decode(Encode(b)) == b
  {
    ValuesOfLetters(Sextets(b));
    BytesOfSextets(b);
  }

  // ---------------------------------------------------------------- the encoding is base64url

  /** The alphabet: capitals, small letters, digits, dash and underscore. */
  lemma LettersInOrder(n: Sextet)
    ensures Letter(0) == 'A' && Letter(26) == 'a' && Letter(52) == '0' && Letter(62) == '-' && Letter(63) == '_'
    ensures n < 63 && n !in {25, 51, 61, 62} ==> Letter(n + 1) as int == Letter(n) as int + 1
  {
  }

  /** The byte at a place, or zero behind the end. */
  function ByteAt(b: seq<Byte>, k: nat): Byte {
    if k < |b| then b[k] else 0
  }

  /** Four letters of the alphabet spell the number three bytes do. */
  predicate Spells(p: char, q: char, r: char, s: char, n: nat) {
    exists i: Sextet, j: Sextet, k: Sextet, l: Sextet ::
      && p == Letter(i) && q == Letter(j) && r == Letter(k) && s == Letter(l)
      && n == ((i * 64 + j) * 64 + k) * 64 + l
  }

  lemma GroupNumber(x: Byte, y: Byte, z: Byte)
    ensures ((First(x) * 64 + Second(x, y)) * 64 + Third(y, z)) * 64 + Fourth(z) == (x * 256 + y) * 256 + z
  {
  }

  lemma GroupSpells(x: Byte, y: Byte, z: Byte)
    ensures Spells(Letter(First(x)), Letter(Second(x, y)), Letter(Third(y, z)), Letter(Fourth(z)), (x * 256 + y) * 256 + z)
  {
    hide First, Second, Third, Fourth, Letter;
    GroupNumber(x, y, z);
  }

  lemma NothingAdded()
    ensures Fourth(0) == 0 && Third(0, 0) == 0
  {
  }

  /** The letter at a place, or the one for zero behind the end. */
  function LetterAt(text: string, k: nat): char {
    if k < |text| then text[k] else 'A'
  }

  lemma {:induction false} LettersAt(s: seq<Sextet>, k: nat)
    ensures |Letters(s)| == |s|
    ensures LetterAt(Letters(s), k) == Letter(if k < |s| then s[k] else 0)
  {
    if s != [] {
      LettersAt(s[1..], if k > 0 then k - 1 else 0);
      assert Letters(s)[0] == Letter(s[0]) && Letters(s)[1..] == Letters(s[1..]);
      hide Letter;
    }
  }

  function SextetAt(s: seq<Sextet>, k: nat): Sextet {
    if k < |s| then s[k] else 0
  }

  lemma {:induction false} SextetsLength(b: seq<Byte>)
    ensures |Sextets(b)| == (4 * |b| + 2) / 3
  {
    hide First, Second, Third, Fourth;
    if |b| > 2 { SextetsLength(b[3..]); }
  }

  predicate Groups(b: seq<Byte>, s: seq<Sextet>, i: nat) {
    var x, y, z := ByteAt(b, 3 * i), ByteAt(b, 3 * i + 1), ByteAt(b, 3 * i + 2);
    && SextetAt(s, 4 * i) == First(x) && SextetAt(s, 4 * i + 1) == Second(x, y)
    && SextetAt(s, 4 * i + 2) == Third(y, z) && SextetAt(s, 4 * i + 3) == Fourth(z)
  }

  lemma FirstSextets(b: seq<Byte>)
    requires b != []
    ensures Groups(b, Sextets(b), 0)
  {
    hide First, Second, Third, Fourth;
    NothingAdded();
  }

  lemma LaterSextets(b: seq<Byte>, p: Sextet, q: Sextet, r: Sextet, t: Sextet, s: seq<Sextet>, i: nat)
    requires |b| >= 3 && Groups(b[3..], s, i)
    ensures Groups(b, [p, q, r, t] + s, i + 1)
  {
    hide First, Second, Third, Fourth;
    var all := [p, q, r, t] + s;
    assert forall k: nat :: SextetAt(all, k + 4) == SextetAt(s, k);
    assert forall k: nat :: ByteAt(b, k + 3) == ByteAt(b[3..], k);
    assert 4 * (i + 1) == 4 * i + 4 && 3 * (i + 1) == 3 * i + 3;
  }

  lemma {:induction false} SextetsAt(b: seq<Byte>, i: nat)
    requires 3 * i < |b|
    ensures Groups(b, Sextets(b), i)
  {
    hide First, Second, Third, Fourth, Groups;
    if i == 0 {
      FirstSextets(b);
    } else {
      SextetsAt(b[3..], i - 1);
      LaterSextets(b, First(b[0]), Second(b[0], b[1]), Third(b[1], b[2]), Fourth(b[2]), Sextets(b[3..]), i - 1);
    }
  }

  /**
   * The encoded text of a name: every three bytes, filled up with zeros at the end, become the four
   * letters that spell the same number, and of the last group as many as its bytes need.
   */
  lemma EncodeIsBase64(b: seq<Byte>, i: nat)
    ensures |Encode(b)| == (4 * |b| + 2) / 3
    ensures 3 * i < |b| ==>
      Spells(LetterAt(Encode(b), 4 * i), LetterAt(Encode(b), 4 * i + 1), LetterAt(Encode(b), 4 * i + 2), LetterAt(Encode(b), 4 * i + 3),
             (ByteAt(b, 3 * i) * 256 + ByteAt(b, 3 * i + 1)) * 256 + ByteAt(b, 3 * i + 2))
  {
    hide First, Second, Third, Fourth, Sextets, Letters, Letter, Spells;
    var s := Sextets(b);
    SextetsLength(b);
    LettersAt(s, 4 * i);
    LettersAt(s, 4 * i + 1);
    LettersAt(s, 4 * i + 2);
    LettersAt(s, 4 * i + 3);
    if 3 * i < |b| {
      var x, y, z := ByteAt(b, 3 * i), ByteAt(b, 3 * i + 1), ByteAt(b, 3 * i + 2);
      SextetsAt(b, i);
      GroupSpells(x, y, z);
    }
  }

  /** A digest prints no dash, so the first dash after the prefix is the separator. */
  ghost predicate Dashless(digest: Digest) {
    forall name: seq<Byte> :: '-' !in digest(name)
  }

  /**
   * A name on disk stands for an original exactly if it is that original's claim name. So
   * claims of different names have different names, and nothing else is taken for a claim.
   */
  lemma ClaimNamesAreExact(digest: Digest, name: string, original: seq<Byte>)
    requires Dashless(digest)
    ensures DecodeClaimName(digest, name) == Some(original) <==> name == ClaimName(digest, original)
  {
    if name == ClaimName(digest, original) {
      var rest := digest(original) + "-" + Encode(original);
      assert name == CLAIM_PREFIX + rest && name[|CLAIM_PREFIX|..] == rest;
      assert rest[..|digest(original)|] == digest(original) && rest[|digest(original)| + 1..] == Encode(original);
      IndexIsFirst(rest, '-', |digest(original)|);
      DecodeUndoesEncode(original);
      hide Encode, Decode;
    }
  }
}
