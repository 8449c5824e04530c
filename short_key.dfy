/**
 * `generateShortKey`: six characters, each drawn from a fixed 62-character
 * alphabet by an index the random number generator supplies.
 */
module ShortKey {

  const Lowercase := "abcdefghijklmnopqrstuvwxyz"
  const Uppercase := "ABCDEFGHIJKLMNOPQRSTUVWXYZ"
  const Digits := "0123456789"
  /** The `charset` constant, "a…zA…Z0…9". */
  const Charset := Lowercase + Uppercase + Digits
  const KeyLength := 6

  /** A value of `rng.Intn(len(charset))`. */
  type CharIndex = i: nat | i < 62

  predicate IsAlphanumeric(c: char)
  {
    'a' <= c <= 'z' || 'A' <= c <= 'Z' || '0' <= c <= '9'
  }

  /** The shape every generated key has. */
  predicate IsShortKey(s: string)
  {
    |s| == KeyLength && forall i :: 0 <= i < |s| ==> IsAlphanumeric(s[i])
  }

  /** The alphabet in closed form: lower case, then upper case, then digits. */
  function CharAt(i: CharIndex): (c: char)
    ensures IsAlphanumeric(c)
  {
    if i < 26 then ('a' as int + i) as char
    else if i < 52 then ('A' as int + (i - 26)) as char
    else ('0' as int + (i - 52)) as char
  }

  /** Where `c` sits in the alphabet. */
  function IndexOfChar(c: char): (i: CharIndex)
    requires IsAlphanumeric(c)
    ensures CharAt(i) == c
  {
    if 'a' <= c <= 'z' then c as int - 'a' as int
    else if 'A' <= c <= 'Z' then 26 + (c as int - 'A' as int)
    else 52 + (c as int - '0' as int)
  }

  lemma CharsetAt(i: CharIndex)
    ensures |Charset| == 62 && Charset[i] == CharAt(i)
  {
  }

  /** The charset holds exactly the 62 alphanumeric characters, each once. */
  lemma CharsetIsAlphabet()
    ensures |Charset| == 62
    ensures forall c :: c in Charset <==> IsAlphanumeric(c)
    ensures forall i, j :: 0 <= i < j < |Charset| ==> Charset[i] != Charset[j]
  {
    forall c ensures c in Charset <==> IsAlphanumeric(c) {
      if IsAlphanumeric(c) {
        CharsetAt(IndexOfChar(c));
      } else {
        forall i: CharIndex ensures Charset[i] != c {
          CharsetAt(i);
        }
      }
    }
    forall i, j | 0 <= i < j < |Charset| ensures Charset[i] != Charset[j] {
      CharsetAt(i);
      CharsetAt(j);
      assert IndexOfChar(CharAt(i)) == i;
    }
  }

  /** The key built from six draws, one alphabet character per draw. */
  function KeyFromDraws(draws: seq<CharIndex>): (key: string)
    requires |draws| == KeyLength
    ensures IsShortKey(key)
  {
    CharsetIsAlphabet();
    seq(KeyLength, i requires 0 <= i < KeyLength => Charset[draws[i]])
  }

  /**
   * `generateShortKey`: fills a six-byte buffer index by index with
   * `charset[rng.Intn(len(charset))]`.
   */
  method GenerateShortKey(draws: seq<CharIndex>) returns (key: string)
    requires |draws| == KeyLength
    ensures key == KeyFromDraws(draws)
  {
    var shortKey := new char[KeyLength];
    for i := 0 to KeyLength
      invariant forall j :: 0 <= j < i ==> shortKey[j] == Charset[draws[j]]
    {
      shortKey[i] := Charset[draws[i]];
    }
    key := shortKey[..];
  }

  /** Every well-formed key is the outcome of some draws. */
  lemma {:induction false} EveryShortKeyGenerated(s: string)
    requires IsShortKey(s)
    ensures exists draws: seq<CharIndex> :: |draws| == KeyLength && KeyFromDraws(draws) == s
  {
    var draws: seq<CharIndex> := seq(KeyLength, i requires 0 <= i < KeyLength => IndexOfChar(s[i]));
    forall i | 0 <= i < KeyLength ensures KeyFromDraws(draws)[i] == s[i] {
      CharsetAt(draws[i]);
    }
    assert KeyFromDraws(draws) == s;
  }

  /**
   * Different draws give different keys, so uniform draws give uniformly
   * distributed keys.
   */
  lemma DistinctDrawsDistinctKeys(d1: seq<CharIndex>, d2: seq<CharIndex>)
    requires |d1| == KeyLength && |d2| == KeyLength && d1 != d2
    ensures KeyFromDraws(d1) != KeyFromDraws(d2)
  {
    var i :| 0 <= i < KeyLength && d1[i] != d2[i];
    CharsetAt(d1[i]);
    CharsetAt(d2[i]);
    assert IndexOfChar(CharAt(d1[i])) == d1[i];
    assert IndexOfChar(CharAt(d2[i])) == d2[i];
    assert KeyFromDraws(d1)[i] != KeyFromDraws(d2)[i];
  }
}
