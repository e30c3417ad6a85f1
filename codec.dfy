/**
 * A textual, self-delimiting encoding of naturals, integers, strings and byte strings.
 * The token makers use it in place of JSON and of the Paseto / JWT wire encodings:
 * what matters to the model is that decoding undoes encoding, that decoding never
 * mistakes one value for another, and that the text never contains whitespace
 * (a token travels in an `authorization` header that is split on whitespace).
 */
module Codec {
  import opened Common

  /** Every character an encoded value or a token prefix can contain. */
  const TokenAlphabet: set<char> := {'|', ';', '+', '-', '.', 'v', '2', 'l', 'o', 'c', 'a', 'j', 'w', 't'}

  predicate Plain(s: string) {
    forall i :: 0 <= i < |s| ==> s[i] in TokenAlphabet
  }

  // ---- naturals: n bars and a terminator ----

  function EncNat(n: nat): (r: string)
    ensures |r| == n + 1 && Plain(r)
  {
    if n == 0 then ";" else "|" + EncNat(n - 1)
  }

  function DecNat(s: string): Option<(nat, string)>
    decreases |s|
  {
    if |s| == 0 then None
    else if s[0] == ';' then Some((0, s[1..]))
    else if s[0] == '|' then
      match DecNat(s[1..])
      case None => None
      case Some(p) => Some((p.0 + 1, p.1))
    else None
  }

  lemma {:induction false} DecNatEnc(n: nat, rest: string)
    ensures DecNat(EncNat(n) + rest) == Some((n, rest))
  {
    if n == 0 {
      assert (EncNat(0) + rest)[1..] == rest;
    } else {
      DecNatEnc(n - 1, rest);
      assert EncNat(n) + rest == "|" + (EncNat(n - 1) + rest);
      assert ("|" + (EncNat(n - 1) + rest))[1..] == EncNat(n - 1) + rest;
    }
  }

  // ---- integers: a sign and a magnitude ----

  function EncInt(i: int): (r: string)
    ensures Plain(r)
  {
    if i < 0 then "-" + EncNat(-i) else "+" + EncNat(i)
  }

  function DecInt(s: string): Option<(int, string)> {
    if |s| == 0 then None
    else if s[0] == '-' then
      match DecNat(s[1..])
      case None => None
      case Some(p) => Some((-(p.0 as int), p.1))
    else if s[0] == '+' then
      match DecNat(s[1..])
      case None => None
      case Some(p) => Some((p.0 as int, p.1))
    else None
  }

  lemma DecIntEnc(i: int, rest: string)
    ensures DecInt(EncInt(i) + rest) == Some((i, rest))
  {
    if i < 0 {
      assert (EncInt(i) + rest)[1..] == EncNat(-i) + rest;
      DecNatEnc(-i, rest);
    } else {
      assert (EncInt(i) + rest)[1..] == EncNat(i) + rest;
      DecNatEnc(i, rest);
    }
  }

  // ---- lists of naturals: a count and the items ----

  function EncItems(xs: seq<nat>): (r: string)
    ensures Plain(r)
  {
    if xs == [] then "" else EncNat(xs[0]) + EncItems(xs[1..])
  }

  function DecItems(k: nat, s: string): Option<(seq<nat>, string)>
    decreases k
  {
    if k == 0 then Some(([], s))
    else
      match DecNat(s)
      case None => None
      case Some(p) =>
        match DecItems(k - 1, p.1)
        case None => None
        case Some(q) => Some(([p.0] + q.0, q.1))
  }

  lemma {:induction false} DecItemsEnc(xs: seq<nat>, rest: string)
    ensures DecItems(|xs|, EncItems(xs) + rest) == Some((xs, rest))
  {
    if xs != [] {
      assert EncItems(xs) + rest == EncNat(xs[0]) + (EncItems(xs[1..]) + rest);
      DecNatEnc(xs[0], EncItems(xs[1..]) + rest);
      DecItemsEnc(xs[1..], rest);
      assert [xs[0]] + xs[1..] == xs;
    } else {
      assert EncItems(xs) + rest == rest;
    }
  }

  function EncList(xs: seq<nat>): (r: string)
    ensures Plain(r)
  {
    EncNat(|xs|) + EncItems(xs)
  }

  function DecList(s: string): Option<(seq<nat>, string)> {
    match DecNat(s)
    case None => None
    case Some(p) => DecItems(p.0, p.1)
  }

  lemma DecListEnc(xs: seq<nat>, rest: string)
    ensures DecList(EncList(xs) + rest) == Some((xs, rest))
  {
    assert EncList(xs) + rest == EncNat(|xs|) + (EncItems(xs) + rest);
    DecNatEnc(|xs|, EncItems(xs) + rest);
    DecItemsEnc(xs, rest);
  }

  // ---- strings and byte strings, as lists of code points and of octets ----

  predicate IsScalar(x: nat) {
    x < 0xD800 || (0xE000 <= x < 0x11_0000)
  }

  function CharCodes(s: string): (r: seq<nat>)
    ensures |r| == |s|
  {
    seq(|s|, i requires 0 <= i < |s| => s[i] as int)
  }

  function CodesToChars(xs: seq<nat>): Option<string> {
    if forall i :: 0 <= i < |xs| ==> IsScalar(xs[i])
    then Some(seq(|xs|, i requires 0 <= i < |xs| && IsScalar(xs[i]) => xs[i] as char))
    else None
  }

  lemma CharCodesBack(s: string)
    ensures CodesToChars(CharCodes(s)) == Some(s)
  {
    var xs := CharCodes(s);
    assert forall i :: 0 <= i < |xs| ==> IsScalar(xs[i]) by {
      forall i | 0 <= i < |xs| ensures IsScalar(xs[i]) {
        assert xs[i] == s[i] as int;
      }
    }
    var r := CodesToChars(xs);
    assert r.Some?;
    assert |r.value| == |s|;
    forall i | 0 <= i < |s| ensures r.value[i] == s[i] {
      assert xs[i] == s[i] as int;
      assert r.value[i] == xs[i] as char;
    }
    assert r.value == s;
  }

  function EncStr(s: string): (r: string)
    ensures Plain(r)
  {
    EncList(CharCodes(s))
  }

  function DecStr(s: string): Option<(string, string)> {
    match DecList(s)
    case None => None
    case Some(p) =>
      match CodesToChars(p.0)
      case None => None
      case Some(t) => Some((t, p.1))
  }

  lemma DecStrEnc(s: string, rest: string)
    ensures DecStr(EncStr(s) + rest) == Some((s, rest))
  {
    DecListEnc(CharCodes(s), rest);
    CharCodesBack(s);
  }

  /** A byte string as text, one character per octet (ISO 8859-1). */
  function Latin1(b: seq<byte>): (r: string)
    ensures |r| == |b|
    ensures forall i :: 0 <= i < |b| ==> r[i] as int == b[i] as int
  {
    if |b| == 0 then "" else [b[0] as int as char] + Latin1(b[1..])
  }

  /** The octets of a text whose every character is below 256. */
  function Octets(s: string): Option<seq<byte>> {
    if |s| == 0 then Some([])
    else if s[0] as int >= 256 then None
    else
      match Octets(s[1..])
      case None => None
      case Some(t) => Some([s[0] as int as byte] + t)
  }

  lemma {:induction false} OctetsLatin1(b: seq<byte>)
    ensures Octets(Latin1(b)) == Some(b)
  {
    if |b| > 0 {
      OctetsLatin1(b[1..]);
      assert Latin1(b)[1..] == Latin1(b[1..]);
      assert [b[0]] + b[1..] == b;
    }
  }

  function EncBytes(b: seq<byte>): (r: string)
    ensures Plain(r)
  {
    EncStr(Latin1(b))
  }

  function DecBytes(s: string): Option<(seq<byte>, string)> {
    match DecStr(s)
    case None => None
    case Some(p) =>
      match Octets(p.0)
      case None => None
      case Some(b) => Some((b, p.1))
  }

  lemma DecBytesEnc(b: seq<byte>, rest: string)
    ensures DecBytes(EncBytes(b) + rest) == Some((b, rest))
  {
    DecStrEnc(Latin1(b), rest);
    OctetsLatin1(b);
  }

  /** Concatenations of plain texts are plain. */
  lemma PlainConcat(a: string, b: string)
    requires Plain(a) && Plain(b)
    ensures Plain(a + b)
  {
    forall i | 0 <= i < |a + b| ensures (a + b)[i] in TokenAlphabet {
      if i < |a| { assert (a + b)[i] == a[i]; } else { assert (a + b)[i] == b[i - |a|]; }
    }
  }
}
