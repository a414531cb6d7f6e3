/**
  generateQRCodeId (app.js:46-53): an identifier of `length` characters, each
  picked from a fixed alphabet by one call to Math.random(). The random
  numbers are inputs here: a "draw" is a real in [0, 1), as Math.random()
  returns, and floating-point rounding is not modelled.
 */
module QrIds {

  /** The alphabet of app.js:47: letters without I, i and l, then the digits. */
  const Alphabet: string := "ABCDEFGHJKLMNOPQRSTUVWXYZabcdefghjkmnopqrstuvwxyz0123456789"

  /** The length the generate handler asks for (app.js:112). */
  const IdLength: nat := 6

  /** A possible result of Math.random(). */
  predicate IsDraw(r: real) {
    0.0 <= r < 1.0
  }

  predicate AreDraws(rs: seq<real>) {
    forall k :: 0 <= k < |rs| ==> IsDraw(rs[k])
  }

  /** `Math.floor(r * n)` for a draw `r`: always an index below `n`. */
  function DrawIndex(r: real, n: nat): (k: nat)
    requires IsDraw(r) && n > 0
    ensures k < n
  {
    var m := n as real;
    assert 0.0 <= r * m by {
      assert 0.0 <= r && 0.0 < m;
    }
    assert r * m < m by {
      assert m - r * m == (1.0 - r) * m;
      assert 0.0 < 1.0 - r && 0.0 < m;
    }
    (r * m).Floor
  }

  /** Every index below `n` is hit by some draw, namely `k / n`. */
  lemma DrawIndexReaches(k: nat, n: nat)
    requires k < n
    ensures IsDraw(k as real / n as real)
    ensures DrawIndex(k as real / n as real, n) == k
  {
    var r := k as real / n as real;
    assert r * n as real == k as real;
  }

  /** The draw `k / n`, which picks index `k` of `n`. */
  function DrawAt(k: nat, n: nat): (r: real)
    requires k < n
    ensures IsDraw(r) && DrawIndex(r, n) == k
  {
    DrawIndexReaches(k, n);
    k as real / n as real
  }

  /** `characters.charAt(Math.floor(Math.random() * characters.length))`. */
  function CharFor(r: real): (c: char)
    requires IsDraw(r)
    ensures c in Alphabet
  {
    Alphabet[DrawIndex(r, |Alphabet|)]
  }

  predicate OverAlphabet(s: string) {
    forall k :: 0 <= k < |s| ==> s[k] in Alphabet
  }

  /**
    The identifier the loop of generateQRCodeId builds from the draws `rs`:
    one character per draw, appended in order.
   */
  function IdFromDraws(rs: seq<real>): (id: string)
    requires AreDraws(rs)
    ensures |id| == |rs|
    ensures OverAlphabet(id)
  {
    if rs == [] then "" else IdFromDraws(rs[..|rs| - 1]) + [CharFor(rs[|rs| - 1])]
  }

  /** Character k of the identifier is the one draw k picks. */
  lemma {:induction false} IdFromDrawsAt(rs: seq<real>)
    requires AreDraws(rs)
    ensures forall k :: 0 <= k < |rs| ==> IdFromDraws(rs)[k] == CharFor(rs[k])
  {
    if rs != [] {
      IdFromDrawsAt(rs[..|rs| - 1]);
    }
  }

  /** generateQRCodeId(length), with one draw supplied per character. */
  method GenerateQRCodeId(length: nat, draws: seq<real>) returns (result: string)
    requires |draws| == length && AreDraws(draws)
    ensures result == IdFromDraws(draws)
    ensures |result| == length && OverAlphabet(result)
  {
    result := "";
    for i := 0 to length
      invariant result == IdFromDraws(draws[..i])
    {
      result := result + [Alphabet[DrawIndex(draws[i], |Alphabet|)]];
      assert draws[..i + 1][..i] == draws[..i];
    }
    assert draws[..length] == draws;
  }

  /** The position of `c` in `s` (its first occurrence). */
  function IndexIn(s: string, c: char): (k: nat)
    requires c in s
    ensures k < |s| && s[k] == c
  {
    if s[0] == c then 0 else 1 + IndexIn(s[1..], c)
  }

  /** Draws that make generateQRCodeId produce `s`: `index / 59` per character. */
  function DrawsFor(s: string): (rs: seq<real>)
    requires OverAlphabet(s)
    ensures |rs| == |s| && AreDraws(rs)
  {
    seq(|s|, k requires 0 <= k < |s| => DrawAt(IndexIn(Alphabet, s[k]), |Alphabet|))
  }

  lemma {:induction false} DrawsForProduce(s: string)
    requires OverAlphabet(s)
    ensures IdFromDraws(DrawsFor(s)) == s
    decreases |s|
  {
    if s != [] {
      var n := |s|;
      var rs := DrawsFor(s);
      assert rs[..n - 1] == DrawsFor(s[..n - 1]);
      DrawsForProduce(s[..n - 1]);
      assert s == s[..n - 1] + [s[n - 1]];
    }
  }

  /**
    The identifiers generateQRCodeId(n) can return are exactly the strings of
    length n over the alphabet: every result is one, and every one is the
    result for some sequence of draws.
   */
  lemma PossibleIds(n: nat, s: string)
    ensures (exists rs :: |rs| == n && AreDraws(rs) && IdFromDraws(rs) == s)
        <==> (|s| == n && OverAlphabet(s))
  {
    if |s| == n && OverAlphabet(s) {
      DrawsForProduce(s);
      var rs := DrawsFor(s);
      assert |rs| == n && AreDraws(rs) && IdFromDraws(rs) == s;
    }
  }

  // The three runs the alphabet is made of.
  const Upper: string := "ABCDEFGHJKLMNOPQRSTUVWXYZ"
  const Lower: string := "abcdefghjkmnopqrstuvwxyz"
  const Digits: string := "0123456789"

  lemma AlphabetRuns()
    ensures Alphabet == Upper + Lower + Digits
  {
  }

  lemma UpperLacks()
    ensures 'I' !in Upper && 'i' !in Upper && 'l' !in Upper
  {
  }

  lemma LowerLacks()
    ensures 'I' !in Lower && 'i' !in Lower && 'l' !in Lower
  {
  }

  lemma DigitsLack()
    ensures 'I' !in Digits && 'i' !in Digits && 'l' !in Digits
  {
  }

  /** The alphabet has 59 characters and leaves out I, i and l. */
  lemma AlphabetShape()
    ensures |Alphabet| == 59
    ensures 'I' !in Alphabet && 'i' !in Alphabet && 'l' !in Alphabet
  {
    AlphabetRuns();
    UpperLacks();
    LowerLacks();
    DigitsLack();
  }
}
