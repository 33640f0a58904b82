/** Strings of ASCII text, as the program trims and folds them. */
module Text {
  function LowerChar(c: char): char {
    if 'A' <= c <= 'Z' then (c as int - 'A' as int + 'a' as int) as char else c
  }

  function UpperChar(c: char): char {
    if 'a' <= c <= 'z' then (c as int - 'a' as int + 'A' as int) as char else c
  }

  function Lower(s: string): (r: string)
    ensures |r| == |s|
  {
    seq(|s|, i requires 0 <= i < |s| => LowerChar(s[i]))
  }

  function Upper(s: string): (r: string)
    ensures |r| == |s| && forall i :: 0 <= i < |s| ==> r[i] == UpperChar(s[i])
  {
    seq(|s|, i requires 0 <= i < |s| => UpperChar(s[i]))
  }

  predicate Space(c: char) {
    c == ' ' || '\t' <= c <= '\r'
  }

  function Trim(s: string): string {
    if s == [] then s
    else if Space(s[0]) then Trim(s[1..])
    else if Space(s[|s| - 1]) then Trim(s[..|s| - 1])
    else s
  }

  /** Folding moves the 26 letters by the distance between the cases and nothing else; what is
      trimmed is the space, the two tabs, the two feeds and the return. */
  lemma FoldingIs(c: char)
    ensures UpperChar(c) as int == if 97 <= c as int <= 122 then c as int - 32 else c as int
    ensures LowerChar(c) as int == if 65 <= c as int <= 90 then c as int + 32 else c as int
    ensures Space(c) <==> c as int in [9, 10, 11, 12, 13, 32]
  {
  }

  /** A word is read whatever its case. */
  lemma AnyCase(s: string, word: string)
    requires |s| == |word| && forall i :: 0 <= i < |s| ==> 'a' <= word[i] <= 'z' && UpperChar(s[i]) == UpperChar(word[i])
    ensures Lower(s) == word
  {
    forall i | 0 <= i < |s| ensures Lower(s)[i] == word[i] {
      FoldingIs(s[i]);
      FoldingIs(word[i]);
      assert Lower(s)[i] == LowerChar(s[i]);
    }
  }

  lemma {:induction false} TrimStrips(before: string, s: string, after: string)
    requires s != "" && !Space(s[0]) && !Space(s[|s| - 1])
    requires (forall i :: 0 <= i < |before| ==> Space(before[i])) && (forall i :: 0 <= i < |after| ==> Space(after[i]))
    ensures Trim(before + s + after) == s
    decreases |before| + |after|
  {
    var all := before + s + after;
    if before != "" {
      assert all[0] == before[0] && all[1..] == before[1..] + s + after;
      TrimStrips(before[1..], s, after);
    } else if after != "" {
      assert all[0] == s[0] && all[|all| - 1] == after[|after| - 1] && all[..|all| - 1] == before + s + after[..|after| - 1];
      TrimStrips(before, s, after[..|after| - 1]);
    } else {
      assert all == s;
    }
  }
}
