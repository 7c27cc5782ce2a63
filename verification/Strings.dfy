/** Trimming white space from both ends of a string. */
module Strings {

  /** Unicode white space. */
  predicate IsSpace(c: char) {
    || '\t' <= c <= '\r' || c == ' ' || c == '\U{85}' || c == '\U{A0}' || c == '\U{1680}' || '\U{2000}' <= c <= '\U{200A}'
    || c == '\U{2028}' || c == '\U{2029}' || c == '\U{202F}' || c == '\U{205F}' || c == '\U{3000}'
  }

  /** Among the ASCII characters, those are the six usual ones. */
  lemma AsciiSpaces(c: char)
    requires c as int < 0x80
    ensures IsSpace(c) <==> c == ' ' || c == '\t' || c == '\n' || c == '\r' || c as int == 0x0B || c as int == 0x0C
  {
  }

  function TrimLeft(s: string): string {
    if s != [] && IsSpace(s[0]) then TrimLeft(s[1..]) else s
  }

  function TrimRight(s: string): string {
    if s != [] && IsSpace(s[|s| - 1]) then TrimRight(s[..|s| - 1]) else s
  }

  function TrimSpace(s: string): string {
    TrimRight(TrimLeft(s))
  }

  predicate AllSpace(s: string) {
    forall c :: c in s ==> IsSpace(c)
  }

  /** A word neither starts nor ends with a space. */
  predicate Word(s: string) {
    s != [] && !IsSpace(s[0]) && !IsSpace(s[|s| - 1])
  }

  lemma {:induction false} TrimLeftDropsThePad(pad: string, s: string)
    requires AllSpace(pad) && (s == [] || !IsSpace(s[0]))
    ensures TrimLeft(pad + s) == s
  {
    if pad == [] {
      assert pad + s == s;
    } else {
      assert (pad + s)[0] == pad[0] && (pad + s)[1..] == pad[1..] + s;
      TrimLeftDropsThePad(pad[1..], s);
    }
  }

  lemma {:induction false} TrimRightDropsThePad(s: string, pad: string)
    requires AllSpace(pad) && (s == [] || !IsSpace(s[|s| - 1]))
    ensures TrimRight(s + pad) == s
  {
    if pad == [] {
      assert s + pad == s;
    } else {
      var n := |pad| - 1;
      assert (s + pad)[|s + pad| - 1] == pad[n] && (s + pad)[..|s + pad| - 1] == s + pad[..n];
      TrimRightDropsThePad(s, pad[..n]);
    }
  }

  /** Trimming a padded word gives back the word. */
  lemma TrimUnpads(left: string, word: string, right: string)
    requires AllSpace(left) && Word(word) && AllSpace(right)
    ensures TrimSpace(left + word + right) == word
  {
    assert left + word + right == left + (word + right);
    TrimLeftDropsThePad(left, word + right);
    TrimRightDropsThePad(word, right);
  }

  /** Trimming white space leaves nothing. */
  lemma {:induction false} TrimSpaces(s: string)
    requires AllSpace(s)
    ensures TrimSpace(s) == ""
  {
    if s != [] {
      TrimSpaces(s[1..]);
    }
  }
}
