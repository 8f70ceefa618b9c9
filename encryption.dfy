/**
 * Key derivation of the shell's string encrypter.
 *
 * The encrypter keeps the text and the password it was built with, and derives
 * an integer key from the stored password. The loop of the derivation carries a
 * flag meant to alternate between adding and subtracting code points, but the
 * flag is never flipped, so every character is added: the key is the sum of the
 * code points plus the length. The constructor also stores the text where the
 * password belongs, so the key depends on the text alone.
 */
module Encryption {

  datatype Option<T> = None | Some(value: T)

  /** The code point of a character, as Python's `ord`. */
  function Ord(c: char): int
  {
    c as int
  }

  /** Sum of the code points of the characters of `s`. */
  function CodePointSum(s: string): int
  {
    if s == [] then 0 else CodePointSum(s[..|s| - 1]) + Ord(s[|s| - 1])
  }

  /** The key the derivation produces for a password, as the code computes it. */
  function Key(password: string): int
  {
    CodePointSum(password) + |password|
  }

  /** No sum of code points is negative. */
  lemma {:induction false} CodePointSumNonNegative(s: string)
    ensures CodePointSum(s) >= 0
  {
    if s != [] {
      CodePointSumNonNegative(s[..|s| - 1]);
    }
  }

  /** The sum over a concatenation is the sum of the sums. */
  lemma {:induction false} CodePointSumConcat(s: string, t: string)
    ensures CodePointSum(s + t) == CodePointSum(s) + CodePointSum(t)
    decreases |t|
  {
    if t != [] {
      assert (s + t)[..|s + t| - 1] == s + t[..|t| - 1];
      CodePointSumConcat(s, t[..|t| - 1]);
    } else {
      assert s + t == s;
    }
  }

  /** The key is never smaller than the password's length. */
  lemma KeyAtLeastLength(password: string)
    ensures Key(password) >= |password|
  {
    CodePointSumNonNegative(password);
  }

  /** Appending one character raises the key by that character's code point plus one. */
  lemma KeyAppend(password: string, c: char)
    ensures Key(password + [c]) == Key(password) + Ord(c) + 1
  {
    assert (password + [c])[..|password|] == password;
  }

  /** The key of a concatenation is the sum of the keys: the key is a sum over characters. */
  lemma KeyConcat(s: string, t: string)
    ensures Key(s + t) == Key(s) + Key(t)
  {
    CodePointSumConcat(s, t);
  }

  /** The empty password yields the key 0. */
  lemma KeyOfEmpty()
    ensures Key([]) == 0
  {
  }

  /** Swapping two adjacent characters does not change the key. */
  lemma {:induction false} KeySwap(s: string, a: char, b: char, t: string)
    ensures Key(s + [a, b] + t) == Key(s + [b, a] + t)
  {
    CodePointSumConcat(s + [a, b], t);
    CodePointSumConcat(s + [b, a], t);
    CodePointSumConcat(s, [a, b]);
    CodePointSumConcat(s, [b, a]);
    assert [a, b][..1] == [a];
    assert [b, a][..1] == [b];
  }

  /** The key depends only on the multiset of characters, not on their order. */
  lemma {:induction false} KeyPermutation(s: string, t: string)
    requires multiset(s) == multiset(t)
    ensures Key(s) == Key(t)
    decreases |s|
  {
    if s == [] {
      assert |t| == |multiset(t)| == 0;
    } else {
      var c := s[|s| - 1];
      var s' := s[..|s| - 1];
      assert s == s' + [c];
      assert c in multiset(t);
      var i :| 0 <= i < |t| && t[i] == c;
      var t' := t[..i] + t[i + 1..];
      assert t == t[..i] + [c] + t[i + 1..];
      assert multiset(t') == multiset(t) - multiset{c};
      assert multiset(s') == multiset(s) - multiset{c};
      KeyPermutation(s', t');
      KeyAppend(s', c);
      KeyConcat(t[..i] + [c], t[i + 1..]);
      KeyConcat(t[..i], [c]);
      KeyConcat(t[..i], t[i + 1..]);
      assert Key([c]) == Ord(c) + 1 by {
        assert [c][..0] == [];
      }
    }
  }

  class StringEncrypter {
    var text: Option<string>
    var password: Option<string>

    /** Stores `text` in both fields; the `password` argument is not used. */
    constructor (text: Option<string>, password: Option<string>)
      ensures this.text == text
      ensures this.password == text
    {
      this.text := text;
      this.password := text;
    }

    /**
     * Derives the key from the stored password. A password that was never
     * given (Python's `None`) cannot be iterated, which is reported as `None`.
     */
    method GenerateKey() returns (key: Option<int>)
      ensures password.None? <==> key.None?
      ensures password.Some? ==> key.value == Key(password.value)
      ensures password.Some? ==> key.value >= |password.value|
    {
      if password.None? {
        return None;
      }
      var p := password.value;
      var k := 0;
      var isEven := true;
      for i := 0 to |p|
        invariant isEven
        invariant k == CodePointSum(p[..i])
      {
        var c := p[i];
        assert p[..i + 1][..i] == p[..i];
        if isEven {
          k := k + Ord(c);
        } else {
          k := k - Ord(c);
        }
      }
      assert p[..|p|] == p;
      CodePointSumNonNegative(p);
      if k < 0 {
        k := k * -1;
      }
      k := k + |p|;
      return Some(k);
    }
  }

  /**
   * Two encrypters built from the same text derive the same key, whatever
   * passwords they were given.
   */
  method KeyIgnoresPasswordArgument(text: string, password1: string, password2: string)
    returns (key1: Option<int>, key2: Option<int>)
    ensures key1 == key2 == Some(Key(text))
  {
    var e1 := new StringEncrypter(Some(text), Some(password1));
    var e2 := new StringEncrypter(Some(text), Some(password2));
    key1 := e1.GenerateKey();
    key2 := e2.GenerateKey();
  }
}
