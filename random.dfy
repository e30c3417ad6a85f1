/**
 * db/util/random.go: the generators the tests draw their data from. Each
 * draw of math/rand is a nondeterministic choice within the range the
 * generator asks for.
 */
module RandomUtil {
  import opened Ledger

  const Alphabet: string := "abcdefghijklmnopqrstuvwxyz"

  predicate IsLower(c: char) {
    'a' <= c <= 'z'
  }

  predicate AllLower(s: string) {
    forall i :: 0 <= i < |s| ==> IsLower(s[i])
  }

  /** Every letter of the alphabet is lower case, and every lower-case letter is in it. */
  lemma AlphabetIsLower()
    ensures AllLower(Alphabet) && |Alphabet| == 26
    ensures forall c :: IsLower(c) ==> c in Alphabet
  {
    forall c | IsLower(c) ensures c in Alphabet {
      assert Alphabet[c as int - 'a' as int] == c;
    }
  }

  /**
   * RandomInt: min + rand.Int63n(max - min + 1). Int63n panics unless its
   * argument is positive, so the range must be non-empty and its width
   * must fit in int64.
   */
  method RandomInt(min: int, max: int) returns (r: int)
    requires IsInt64(min) && IsInt64(max) && min <= max && max - min + 1 <= MaxInt64
    ensures min <= r <= max && IsInt64(r)
  {
    var n := max - min + 1;
    var k :| 0 <= k < n;
    r := min + k;
  }

  /** RandomString: n letters, each drawn from the alphabet; none for n <= 0. */
  method RandomString(n: int) returns (s: string)
    ensures |s| == if n > 0 then n else 0
    ensures AllLower(s)
  {
    AlphabetIsLower();
    s := "";
    var k := |Alphabet|;
    var i := 0;
    while i < n
      invariant 0 <= i && |s| == i
      invariant n > 0 ==> i <= n
      invariant n <= 0 ==> i == 0
      invariant AllLower(s)
    {
      var j :| 0 <= j < k;
      s := s + [Alphabet[j]];
      i := i + 1;
    }
  }

  /** RandomOwner: six lower-case letters. */
  method RandomOwner() returns (s: string)
    ensures |s| == 6 && AllLower(s)
  {
    s := RandomString(6);
  }

  /** RandomMoney: a balance in [0, 1000]. */
  method RandomMoney() returns (r: int)
    ensures 0 <= r <= 1000
  {
    r := RandomInt(0, 1000);
  }

  /** RandomCurrency: one of the three currencies. */
  method RandomCurrency() returns (c: string)
    ensures c in {"USD", "EUR", "CAD"}
  {
    var currency := ["USD", "EUR", "CAD"];
    var k :| 0 <= k < |currency|;
    c := currency[k];
  }

  /** RandomEmail: six lower-case letters then "@email.com". */
  method RandomEmail() returns (e: string)
    ensures |e| == 16 && AllLower(e[..6]) && e[6..] == "@email.com"
  {
    var name := RandomString(6);
    e := name + "@email.com";
    assert e[..6] == name;
  }
}
