/** Folding and stripping of text, for ASCII. Job and list names are ASCII, where lower and casefold agree. */
module Names {
  function FoldChar(c: char): char {
    if 'A' <= c <= 'Z' then c - 'A' + 'a' else c
  }

  function Fold(s: string): string {
    seq(|s|, i requires 0 <= i < |s| => FoldChar(s[i]))
  }

  /** What a strip takes off. */
  predicate IsSpace(c: char) {
    c in " \t\n\r" || c as int in {11, 12, 28, 29, 30, 31}
  }

  function StripLeft(s: string): string {
    if s != "" && IsSpace(s[0]) then StripLeft(s[1..]) else s
  }

  function StripRight(s: string): string {
    if s != "" && IsSpace(s[|s|-1]) then StripRight(s[..|s|-1]) else s
  }

  function Strip(s: string): string { StripRight(StripLeft(s)) }

  lemma {:induction false} StripLeftMeans(s: string) returns (a: nat)
    ensures a <= |s| && StripLeft(s) == s[a..] && forall i :: 0 <= i < a ==> IsSpace(s[i])
    ensures a < |s| ==> !IsSpace(s[a])
  {
    a := 0;
    if s != "" && IsSpace(s[0]) {
      var rest := StripLeftMeans(s[1..]);
      a := rest + 1;
      assert forall i :: 0 < i < a ==> s[i] == s[1..][i-1];
    }
  }

  lemma {:induction false} StripRightMeans(s: string) returns (b: nat)
    ensures b <= |s| && StripRight(s) == s[..b] && forall i :: b <= i < |s| ==> IsSpace(s[i])
    ensures b > 0 ==> !IsSpace(s[b-1])
    decreases |s|
  {
    b := |s|;
    if s != "" && IsSpace(s[|s|-1]) {
      var most := s[..|s|-1];
      b := StripRightMeans(most);
      assert most[..b] == s[..b] && forall i :: b <= i < |most| ==> s[i] == most[i];
    }
  }

  /** Only space is taken off, and only at the two ends. */
  lemma StripMeans(s: string) returns (a: nat, b: nat)
    ensures a <= b <= |s| && Strip(s) == s[a..b]
    ensures forall i :: 0 <= i < |s| && !(a <= i < b) ==> IsSpace(s[i])
    ensures a < b ==> !IsSpace(s[a]) && !IsSpace(s[b-1])
  {
    a := StripLeftMeans(s);
    var left := s[a..];
    var n := StripRightMeans(left);
    b := a + n;
    assert left[..n] == s[a..b];
    assert forall i :: a <= i < |s| ==> s[i] == left[i-a];
  }

  /** A lower-case word, in any mix of capitals. */
  predicate Spells(said: string, word: string) {
    |said| == |word| && forall i :: 0 <= i < |word| ==> said[i] == word[i] || said[i] as int + 32 == word[i] as int
  }

  lemma FoldedSpells(said: string, word: string)
    requires forall i :: 0 <= i < |word| ==> 'a' <= word[i] <= 'z'
    ensures Fold(said) == word <==> Spells(said, word)
  {
    if Spells(said, word) {
      assert forall i :: 0 <= i < |word| ==> Fold(said)[i] == word[i];
    } else if |said| == |word| {
      var i :| 0 <= i < |word| && said[i] != word[i] && said[i] as int + 32 != word[i] as int;
      assert Fold(said)[i] != word[i];
    }
  }
}
