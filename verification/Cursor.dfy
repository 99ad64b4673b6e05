/**
 * Opaque cursors: the JSON text of a key in base64 (RFC 4648, section 4) with the URL alphabet (section 5) and no
 * padding (section 3.2). Decoding is the platform's forgiving one.
 */
module Cursor {
  import opened Wrappers

  /** Eight bits and six bits, the highest one first. */
  datatype Byte = Byte(b7: bool, b6: bool, b5: bool, b4: bool, b3: bool, b2: bool, b1: bool, b0: bool)
  datatype Sextet = Sextet(s5: bool, s4: bool, s3: bool, s2: bool, s1: bool, s0: bool)

  // ---- Base64 ----

  function Number(v: Sextet): (n: int)
    ensures 0 <= n < 64
  {
    (if v.s5 then 32 else 0) + (if v.s4 then 16 else 0) + (if v.s3 then 8 else 0)
    + (if v.s2 then 4 else 0) + (if v.s1 then 2 else 0) + (if v.s0 then 1 else 0)
  }

  /** The sextet with a number, bit by bit. */
  function Numbered(n: int): (v: Sextet)
    requires 0 <= n < 64
    ensures Number(v) == n
  {
    var n4 := if n >= 32 then n - 32 else n;
    var n3 := if n4 >= 16 then n4 - 16 else n4;
    var n2 := if n3 >= 8 then n3 - 8 else n3;
    var n1 := if n2 >= 4 then n2 - 4 else n2;
    var n0 := if n1 >= 2 then n1 - 2 else n1;
    Sextet(n >= 32, n4 >= 16, n3 >= 8, n2 >= 4, n1 >= 2, n0 >= 1)
  }

  function LetterAt(n: int): (c: char)
    requires 0 <= n < 64
    ensures c != '=' && c != '-' && c != '_' && !IsSpace(c)
  {
    if n < 26 then 'A' + n as char
    else if n < 52 then 'a' + (n - 26) as char
    else if n < 62 then '0' + (n - 52) as char
    else if n == 62 then '+' else '/'
  }

  function IndexOf(c: char): (n: Option<int>)
    ensures n.Some? ==> 0 <= n.value < 64 && LetterAt(n.value) == c
  {
    if 'A' <= c <= 'Z' then Some(c as int - 'A' as int)
    else if 'a' <= c <= 'z' then Some(c as int - 'a' as int + 26)
    else if '0' <= c <= '9' then Some(c as int - '0' as int + 52)
    else if c == '+' then Some(62)
    else if c == '/' then Some(63)
    else None
  }

  function Letter(v: Sextet): (c: char)
    ensures c != '=' && c != '-' && c != '_' && !IsSpace(c)
  {
    LetterAt(Number(v))
  }

  function Value(c: char): (v: Option<Sextet>)
    ensures v.Some? ==> Letter(v.value) == c
  {
    if IndexOf(c).Some? then Some(Numbered(IndexOf(c).value)) else None
  }

  lemma NumbersTellApart(u: Sextet, v: Sextet)
    requires Number(u) == Number(v)
    ensures u == v
  {
  }

  lemma ValueOfLetter(v: Sextet)
    ensures Value(Letter(v)) == Some(v)
  {
    assert IndexOf(Letter(v)) == Some(Number(v));
    NumbersTellApart(Numbered(Number(v)), v);
  }

  const ZERO := Byte(false, false, false, false, false, false, false, false)

  function Sextet1(a: Byte): Sextet { Sextet(a.b7, a.b6, a.b5, a.b4, a.b3, a.b2) }
  function Sextet2(a: Byte, b: Byte): Sextet { Sextet(a.b1, a.b0, b.b7, b.b6, b.b5, b.b4) }
  function Sextet3(b: Byte, c: Byte): Sextet { Sextet(b.b3, b.b2, b.b1, b.b0, c.b7, c.b6) }
  function Sextet4(c: Byte): Sextet { Sextet(c.b5, c.b4, c.b3, c.b2, c.b1, c.b0) }

  /** Three bytes make four sextets; one or two left over make two or three, the last one filled with zero bits. */
  function Split(b: seq<Byte>): seq<Sextet> {
    if |b| == 0 then []
    else if |b| == 1 then [Sextet1(b[0]), Sextet2(b[0], ZERO)]
    else if |b| == 2 then [Sextet1(b[0]), Sextet2(b[0], b[1]), Sextet3(b[1], ZERO)]
    else [Sextet1(b[0]), Sextet2(b[0], b[1]), Sextet3(b[1], b[2]), Sextet4(b[2])] + Split(b[3..])
  }

  function Byte1(u: Sextet, v: Sextet): Byte { Byte(u.s5, u.s4, u.s3, u.s2, u.s1, u.s0, v.s5, v.s4) }
  function Byte2(v: Sextet, w: Sextet): Byte { Byte(v.s3, v.s2, v.s1, v.s0, w.s5, w.s4, w.s3, w.s2) }
  function Byte3(w: Sextet, x: Sextet): Byte { Byte(w.s1, w.s0, x.s5, x.s4, x.s3, x.s2, x.s1, x.s0) }

  /** The other way round; bits that fill no byte are dropped. */
  function Join(v: seq<Sextet>): seq<Byte> {
    if |v| <= 1 then []
    else if |v| == 2 then [Byte1(v[0], v[1])]
    else if |v| == 3 then [Byte1(v[0], v[1]), Byte2(v[1], v[2])]
    else [Byte1(v[0], v[1]), Byte2(v[1], v[2]), Byte3(v[2], v[3])] + Join(v[4..])
  }

  lemma SplitAppend(front: seq<Byte>, rest: seq<Byte>)
    requires |front| == 3
    ensures Split(front + rest) == Split(front) + Split(rest)
  {
    assert (front + rest)[3..] == rest;
    assert front[3..] == [];
  }

  lemma JoinAppend(front: seq<Sextet>, rest: seq<Sextet>)
    requires |front| == 4
    ensures Join(front + rest) == Join(front) + Join(rest)
  {
    assert (front + rest)[4..] == rest;
    assert front[4..] == [];
  }

  lemma BytesBack(b: seq<Byte>)
    requires 1 <= |b| <= 3
    ensures Join(Split(b)) == b && |Split(b)| == |b| + 1
  {
    if |b| == 1 {
      assert Split(b) == [Sextet1(b[0]), Sextet2(b[0], ZERO)];
    } else if |b| == 2 {
      assert Split(b) == [Sextet1(b[0]), Sextet2(b[0], b[1]), Sextet3(b[1], ZERO)];
    } else {
      assert b == [b[0], b[1], b[2]];
      ThreeBack(b[0], b[1], b[2]);
    }
  }

  lemma ThreeBack(a: Byte, b: Byte, c: Byte)
    ensures |Split([a, b, c])| == 4 && Join(Split([a, b, c])) == [a, b, c]
  {
    SplitThree(a, b, c);
    JoinFour(Sextet1(a), Sextet2(a, b), Sextet3(b, c), Sextet4(c));
    BitsBack(a, b, c);
  }

  lemma SplitThree(a: Byte, b: Byte, c: Byte)
    ensures Split([a, b, c]) == [Sextet1(a), Sextet2(a, b), Sextet3(b, c), Sextet4(c)]
  {
    assert [a, b, c][3..] == [];
  }

  lemma JoinFour(u: Sextet, v: Sextet, w: Sextet, x: Sextet)
    ensures Join([u, v, w, x]) == [Byte1(u, v), Byte2(v, w), Byte3(w, x)]
  {
    assert [u, v, w, x][4..] == [];
  }

  lemma BitsBack(a: Byte, b: Byte, c: Byte)
    ensures Byte1(Sextet1(a), Sextet2(a, b)) == a && Byte2(Sextet2(a, b), Sextet3(b, c)) == b
    ensures Byte3(Sextet3(b, c), Sextet4(c)) == c
  {
  }

  lemma SextetsBack(v: seq<Sextet>)
    requires |v| == 4
    ensures |Join(v)| == 3 && Split(Join(v)) == v
  {
    assert v == [v[0], v[1], v[2], v[3]];
    JoinFour(v[0], v[1], v[2], v[3]);
    SplitThree(Byte1(v[0], v[1]), Byte2(v[1], v[2]), Byte3(v[2], v[3]));
  }

  lemma {:induction false} JoinSplit(b: seq<Byte>)
    ensures Join(Split(b)) == b
    ensures |Split(b)| % 4 != 1
    decreases |b|
  {
    if |b| > 3 {
      assert b == b[..3] + b[3..];
      BytesBack(b[..3]);
      JoinSplit(b[3..]);
      SplitAppend(b[..3], b[3..]);
      JoinAppend(Split(b[..3]), Split(b[3..]));
    } else if b != [] {
      BytesBack(b);
    }
  }

  function Letters(v: seq<Sextet>): (s: string)
    ensures |s| == |v|
  {
    seq(|v|, i requires 0 <= i < |v| => Letter(v[i]))
  }

  function Values(s: string): Option<seq<Sextet>> {
    if s == [] then Some([])
    else
      var front, last := Values(s[..|s| - 1]), Value(s[|s| - 1]);
      if front.None? || last.None? then None else Some(front.value + [last.value])
  }

  lemma {:induction false} ValuesOfLetters(v: seq<Sextet>)
    ensures Values(Letters(v)) == Some(v)
    decreases |v|
  {
    if v != [] {
      var n := |v| - 1;
      ValuesOfLetters(v[..n]);
      ValueOfLetter(v[n]);
      assert Letters(v)[..n] == Letters(v[..n]);
      assert v == v[..n] + [v[n]];
    }
  }

  function Padding(n: nat): string {
    if n % 3 == 1 then "==" else if n % 3 == 2 then "=" else ""
  }

  /** `btoa` */
  function Btoa(b: seq<Byte>): string {
    Letters(Split(b)) + Padding(|b|)
  }

  predicate IsSpace(c: char) {
    c == ' ' || c == '\t' || c == '\n' || c == '\r' || c as int == 12
  }

  function NoSpaces(s: string): string {
    if s == [] then [] else (if IsSpace(s[0]) then [] else [s[0]]) + NoSpaces(s[1..])
  }

  /** Only a text of full length may carry padding. */
  function NoPadding(s: string): string {
    if |s| % 4 != 0 || s == [] || s[|s| - 1] != '=' then s
    else if s[|s| - 2] == '=' then s[..|s| - 2]
    else s[..|s| - 1]
  }

  /** `atob`, by the forgiving decode of the WHATWG Infra standard; `None` where it throws. */
  function Atob(s: string): Option<seq<Byte>> {
    var data := NoPadding(NoSpaces(s));
    if |data| % 4 == 1 then None
    else
      var values := Values(data);
      if values.None? then None else Some(Join(values.value))
  }

  // ---- The URL form ----

  function ToUrl(c: char): char {
    if c == '+' then '-' else if c == '/' then '_' else c
  }

  function FromUrl(c: char): char {
    if c == '-' then '+' else if c == '_' then '/' else c
  }

  function Mapped(f: char -> char, s: string): (r: string)
    ensures |r| == |s| && forall i :: 0 <= i < |s| ==> r[i] == f(s[i])
  {
    seq(|s|, i requires 0 <= i < |s| => f(s[i]))
  }

  function StripPadding(s: string): string {
    if s != [] && s[|s| - 1] == '=' then StripPadding(s[..|s| - 1]) else s
  }

  function EncodeText(b: seq<Byte>): string {
    StripPadding(Mapped(ToUrl, Btoa(b)))
  }

  function DecodeText(token: string): Option<seq<Byte>> {
    Atob(Mapped(FromUrl, token))
  }

  lemma {:induction false} StripsAll(s: string, pad: string)
    requires forall i :: 0 <= i < |pad| ==> pad[i] == '='
    requires s == [] || s[|s| - 1] != '='
    ensures StripPadding(s + pad) == s
    decreases |pad|
  {
    if pad == [] {
      assert s + pad == s;
    } else {
      assert (s + pad)[..|s + pad| - 1] == s + pad[..|pad| - 1];
      StripsAll(s, pad[..|pad| - 1]);
    }
  }

  /** The token is the letters of the sextets in the URL alphabet. */
  lemma EncodedLetters(b: seq<Byte>)
    ensures EncodeText(b) == Mapped(ToUrl, Letters(Split(b)))
  {
    var s, pad := Mapped(ToUrl, Letters(Split(b))), Padding(|b|);
    assert Mapped(ToUrl, Btoa(b)) == s + pad;
    StripsAll(s, pad);
  }

  predicate IsUrlSafe(c: char) {
    'A' <= c <= 'Z' || 'a' <= c <= 'z' || '0' <= c <= '9' || c == '-' || c == '_'
  }

  lemma {:induction false} NoSpacesToDrop(s: string)
    requires forall i :: 0 <= i < |s| ==> !IsSpace(s[i])
    ensures NoSpaces(s) == s
  {
    if s != [] {
      NoSpacesToDrop(s[1..]);
    }
  }

  /** No white space and no padding: the forgiving decode has nothing to forgive. */
  predicate IsPlain(s: string) {
    forall i :: 0 <= i < |s| ==> !IsSpace(s[i]) && s[i] != '='
  }

  lemma PlainStays(s: string)
    requires IsPlain(s)
    ensures NoPadding(NoSpaces(s)) == s
  {
    NoSpacesToDrop(s);
  }

  lemma UrlAndBack(s: string)
    requires forall i :: 0 <= i < |s| ==> s[i] != '-' && s[i] != '_'
    ensures Mapped(FromUrl, Mapped(ToUrl, s)) == s
  {
    assert forall c :: c != '-' && c != '_' ==> FromUrl(ToUrl(c)) == c;
  }

  lemma SextetsDecode(v: seq<Sextet>)
    requires |v| % 4 != 1
    ensures DecodeText(Mapped(ToUrl, Letters(v))) == Some(Join(v))
  {
    UrlAndBack(Letters(v));
    PlainStays(Letters(v));
    ValuesOfLetters(v);
  }

  lemma TextRoundTrip(b: seq<Byte>)
    ensures DecodeText(EncodeText(b)) == Some(b)
  {
    EncodedLetters(b);
    JoinSplit(b);
    SextetsDecode(Split(b));
  }

  // ---- The other way round ----

  predicate IsUrlText(token: string) {
    forall i :: 0 <= i < |token| ==> IsUrlSafe(token[i])
  }

  /** Another text in the same alphabet that stands for the same bytes. */
  predicate IsAlias(token: string, b: seq<Byte>) {
    IsUrlText(token) && token != EncodeText(b) && DecodeText(token) == Some(b)
  }

  lemma {:induction false} SplitJoin(v: seq<Sextet>)
    requires |v| % 4 == 0
    ensures Split(Join(v)) == v
    decreases |v|
  {
    if v != [] {
      assert v == v[..4] + v[4..];
      SextetsBack(v[..4]);
      SplitJoin(v[4..]);
      JoinAppend(v[..4], v[4..]);
      SplitAppend(Join(v[..4]), Join(v[4..]));
    }
  }

  lemma SameBy4(n: nat)
    requires n >= 4
    ensures (n - 4) % 4 == n % 4
  {
  }

  lemma SameBy3(n: nat)
    ensures (n + 3) % 3 == n % 3
  {
  }

  lemma {:induction false} JoinedLength(v: seq<Sextet>)
    requires |v| % 4 != 1
    ensures |Join(v)| % 3 == 0 <==> |v| % 4 == 0
    decreases |v|
  {
    if |v| >= 4 {
      JoinedLength(v[4..]);
      assert |Join(v)| == |Join(v[4..])| + 3;
      SameBy4(|v|);
      SameBy3(|Join(v[4..])|);
    }
  }

  lemma {:induction false} LettersOfValues(s: string)
    requires Values(s).Some?
    ensures Letters(Values(s).value) == s
    decreases |s|
  {
    if s != [] {
      LettersOfValues(s[..|s| - 1]);
      assert s == s[..|s| - 1] + [s[|s| - 1]];
    }
  }

  lemma BackToUrl(token: string)
    requires IsUrlText(token)
    ensures IsPlain(Mapped(FromUrl, token)) && Mapped(ToUrl, Mapped(FromUrl, token)) == token
  {
    assert forall c :: IsUrlSafe(c) ==> ToUrl(FromUrl(c)) == c && !IsSpace(FromUrl(c)) && FromUrl(c) != '=';
  }

  lemma DecodedSextets(token: string, b: seq<Byte>)
    requires IsUrlText(token) && DecodeText(token) == Some(b)
    ensures var values := Values(Mapped(FromUrl, token));
            values.Some? && |values.value| % 4 != 1 && Join(values.value) == b && token == Mapped(ToUrl, Letters(values.value))
  {
    BackToUrl(token);
    PlainStays(Mapped(FromUrl, token));
    LettersOfValues(Mapped(FromUrl, token));
  }

  /** Whole triples of bytes have one text in the alphabet. */
  lemma TriplesHaveOneText(token: string, b: seq<Byte>)
    requires |b| % 3 == 0 && IsUrlText(token) && DecodeText(token) == Some(b)
    ensures token == EncodeText(b)
  {
    DecodedSextets(token, b);
    var v := Values(Mapped(FromUrl, token)).value;
    JoinedLength(v);
    SplitJoin(v);
    EncodedLetters(b);
  }

  /** The sextets with the lowest bit of the last one set. */
  function Twisted(v: seq<Sextet>): seq<Sextet>
    requires HasFreeBit(v)
  {
    v[|v| - 1 := v[|v| - 1].(s0 := true)]
  }

  predicate HasFreeBit(v: seq<Sextet>) {
    v != [] && !v[|v| - 1].s0
  }

  lemma TwistedAppend(front: seq<Sextet>, rest: seq<Sextet>)
    requires HasFreeBit(rest)
    ensures HasFreeBit(front + rest) && Twisted(front + rest) == front + Twisted(rest)
  {
  }

  /** Sextets whose last one has a bit to spare, and what they stand for with that bit set. */
  predicate Spares(v: seq<Sextet>, b: seq<Byte>) {
    HasFreeBit(v) && |v| % 4 != 1 && Join(Twisted(v)) == b
  }

  lemma SparesAfter(front: seq<Byte>, u: seq<Sextet>, v: seq<Sextet>, rest: seq<Byte>)
    requires |u| == 4 && Spares(v, rest) && Join(u) == front
    ensures Spares(u + v, front + rest)
  {
    TwistedAppend(u, v);
    JoinAppend(u, Twisted(v));
  }

  lemma {:induction false} LastBitsFree(b: seq<Byte>)
    requires |b| % 3 != 0
    ensures Spares(Split(b), b)
    decreases |b|
  {
    if |b| > 2 {
      SameBy3(|b| - 3);
      LastBitsFree(b[3..]);
      JoinSplit(b[..3]);
      SparesAfter(b[..3], Split(b[..3]), Split(b[3..]), b[3..]);
      SplitAppend(b[..3], b[3..]);
      assert b == b[..3] + b[3..];
    }
  }

  lemma LettersDiffer(u: Sextet, v: Sextet)
    requires u != v
    ensures ToUrl(Letter(u)) != ToUrl(Letter(v))
  {
    assert FromUrl(ToUrl(Letter(u))) == Letter(u) && FromUrl(ToUrl(Letter(v))) == Letter(v);
    ValueOfLetter(u);
    ValueOfLetter(v);
  }

  lemma TwistedIsAlias(b: seq<Byte>) returns (token: string)
    requires |b| % 3 != 0
    ensures IsAlias(token, b)
  {
    LastBitsFree(b);
    var v := Split(b);
    token := Mapped(ToUrl, Letters(Twisted(v)));
    SextetsDecode(Twisted(v));
    EncodedLetters(b);
    LettersDiffer(v[|v| - 1], v[|v| - 1].(s0 := true));
    assert token[|v| - 1] != EncodeText(b)[|v| - 1];
    LettersAreUrlSafe(Twisted(v));
  }

  lemma LettersAreUrlSafe(v: seq<Sextet>)
    ensures IsUrlText(Mapped(ToUrl, Letters(v)))
  {
  }

  /** Bits that fill no byte are ignored: bytes have a second text if and only if they are no whole triples. */
  lemma TokensAreNotUnique(b: seq<Byte>)
    ensures (exists token :: IsAlias(token, b)) <==> |b| % 3 != 0
  {
    if |b| % 3 != 0 {
      var token := TwistedIsAlias(b);
    } else {
      forall token | IsUrlText(token) && DecodeText(token) == Some(b)
        ensures token == EncodeText(b)
      {
        TriplesHaveOneText(token, b);
      }
    }
  }

  // ---- Cursors ----

  /** What the schema accepts, `JSON.stringify` of it, and `JSON.parse` with the schema; all of them the platform's. */
  datatype Codec<!K> = Codec(valid: K -> bool, render: K -> seq<Byte>, parse: seq<Byte> -> Option<K>)

  ghost predicate Faithful<K(!new)>(json: Codec<K>) {
    forall k :: json.valid(k) ==> json.parse(json.render(k)) == Some(k)
  }

  /** `None` where the schema throws. */
  function EncodeCursor<K>(json: Codec<K>, k: K): Option<string> {
    if json.valid(k) then Some(EncodeText(json.render(k))) else None
  }

  /** `None` where the schema throws; text that is no base64 is parsed as the empty text. */
  function DecodeCursor<K>(json: Codec<K>, token: string): Option<K> {
    var text := DecodeText(token);
    json.parse(if text.Some? then text.value else [])
  }

  lemma CursorRoundTrip<K(!new)>(json: Codec<K>, k: K)
    requires Faithful(json) && json.valid(k)
    ensures EncodeCursor(json, k).Some? && IsUrlText(EncodeCursor(json, k).value)
    ensures DecodeCursor(json, EncodeCursor(json, k).value) == Some(k)
  {
    TextRoundTrip(json.render(k));
    EncodedLetters(json.render(k));
    LettersAreUrlSafe(Split(json.render(k)));
  }

  lemma CursorsDiffer<K(!new)>(json: Codec<K>, j: K, k: K)
    requires Faithful(json) && j != k && json.valid(j) && json.valid(k)
    ensures EncodeCursor(json, j) != EncodeCursor(json, k)
  {
    CursorRoundTrip(json, j);
    CursorRoundTrip(json, k);
  }

  /** So a key whose text is no whole number of triples is read from a second token as well. */
  lemma KeysHaveTwoTokens<K(!new)>(json: Codec<K>, k: K)
    requires Faithful(json) && json.valid(k) && |json.render(k)| % 3 != 0
    ensures exists token :: IsUrlText(token) && Some(token) != EncodeCursor(json, k) && DecodeCursor(json, token) == Some(k)
  {
    var token := TwistedIsAlias(json.render(k));
    assert DecodeCursor(json, token) == Some(k);
  }
}
