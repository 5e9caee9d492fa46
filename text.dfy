/**
 * The two string operations the controller depends on: the normalisation each
 * line goes through before it is interpreted (String.trim then
 * String.toLowerCase) and the split of a line into a command token and its
 * argument (String.split with the separator " " and the limit 2).
 */
module Text {
  import opened Wrappers
  import Seqs

  /** String.trim removes every character at or below U+0020 from both ends. */
  predicate IsTrimmed(c: char) {
    c <= ' '
  }

  /** The first position at or after `i` whose character trim keeps. */
  function SkipLeading(s: string, i: nat): (k: nat)
    requires i <= |s|
    ensures i <= k <= |s|
    ensures forall m :: i <= m < k ==> IsTrimmed(s[m])
    ensures k < |s| ==> !IsTrimmed(s[k])
    decreases |s| - i
  {
    if i < |s| && IsTrimmed(s[i]) then SkipLeading(s, i + 1) else i
  }

  /** The end, at or below `j` and not below `lo`, of the part trim keeps. */
  function SkipTrailing(s: string, lo: nat, j: nat): (k: nat)
    requires lo <= j <= |s|
    ensures lo <= k <= j
    ensures forall m :: k <= m < j ==> IsTrimmed(s[m])
    ensures k > lo ==> !IsTrimmed(s[k - 1])
    decreases j
  {
    if j > lo && IsTrimmed(s[j - 1]) then SkipTrailing(s, lo, j - 1) else j
  }

  /**
   * String.trim: the longest infix of `s` that neither starts nor ends with a
   * character at or below U+0020, everything cut off on either side being such
   * a character.
   */
  function Trim(s: string): (r: string)
    ensures |r| > 0 ==> !IsTrimmed(r[0]) && !IsTrimmed(r[|r| - 1])
    ensures var i := SkipLeading(s, 0);
      i + |r| <= |s| && r == s[i..i + |r|]
      && (forall m :: 0 <= m < i ==> IsTrimmed(s[m]))
      && (forall m :: i + |r| <= m < |s| ==> IsTrimmed(s[m]))
  {
    var i := SkipLeading(s, 0);
    var j := SkipTrailing(s, i, |s|);
    assert i < j ==> !IsTrimmed(s[i]);
    s[i..j]
  }

  /** The ASCII capitals A to Z. */
  predicate IsLatinCapital(c: char) {
    'A' <= c <= 'Z'
  }

  /** The basic Cyrillic capitals А to Я, whose small letters are 0x20 above. */
  predicate IsCyrillicCapital(c: char) {
    '\U{0410}' <= c <= '\U{042F}'
  }

  /** The Cyrillic capitals Ѐ to Џ (such as Ё), whose small letters are 0x50 above. */
  predicate IsCyrillicExtraCapital(c: char) {
    '\U{0400}' <= c <= '\U{040F}'
  }

  /** The capitals this model lower-cases. */
  predicate IsCapital(c: char) {
    IsLatinCapital(c) || IsCyrillicCapital(c) || IsCyrillicExtraCapital(c)
  }

  /** String.toLowerCase on one character, for the Latin and Cyrillic capitals. */
  function LowerChar(c: char): char {
    if IsLatinCapital(c) || IsCyrillicCapital(c) then (c as int + 0x20) as char
    else if IsCyrillicExtraCapital(c) then (c as int + 0x50) as char
    else c
  }

  /** String.toLowerCase, character by character. */
  function Lower(s: string): (r: string)
    ensures |r| == |s|
    ensures forall i :: 0 <= i < |s| ==> !IsCapital(r[i])
    ensures forall i :: 0 <= i < |s| && !IsCapital(s[i]) ==> r[i] == s[i]
    ensures forall i :: 0 <= i < |s| && (IsLatinCapital(s[i]) || IsCyrillicCapital(s[i])) ==>
      r[i] as int == s[i] as int + 0x20
    ensures forall i :: 0 <= i < |s| && IsCyrillicExtraCapital(s[i]) ==> r[i] as int == s[i] as int + 0x50
    ensures forall i :: 0 <= i < |s| ==> IsTrimmed(r[i]) == IsTrimmed(s[i])
  {
    seq(|s|, i requires 0 <= i < |s| => LowerChar(s[i]))
  }

  /** What the game loop hands to the interpreter for a line read from the terminal. */
  function Normalise(line: string): (r: string)
    ensures |r| > 0 ==> !IsTrimmed(r[0]) && !IsTrimmed(r[|r| - 1])
    ensures forall i :: 0 <= i < |r| ==> !IsCapital(r[i])
  {
    Lower(Trim(line))
  }

  /** A line that is already trimmed and lower case is left as it is. */
  lemma NormaliseIdempotent(line: string)
    ensures Normalise(Normalise(line)) == Normalise(line)
  {
    var n := Normalise(line);
    TrimOfTrimmed(n);
    assert Lower(n) == n;
  }

  /** Trim leaves a string whose ends trim would keep unchanged. */
  lemma TrimOfTrimmed(s: string)
    requires |s| > 0 ==> !IsTrimmed(s[0]) && !IsTrimmed(s[|s| - 1])
    ensures Trim(s) == s
  {
    assert SkipLeading(s, 0) == 0;
    if |s| > 0 {
      assert SkipTrailing(s, 0, |s|) == |s|;
    }
  }

  /**
   * String.split(" ", 2): the text before the first space and the text after
   * it, or the whole input and "" when the input holds no space.
   */
  function Split(input: string): (r: (string, string))
    ensures ' ' !in r.0
    ensures ' ' in input ==> input == r.0 + " " + r.1
    ensures ' ' !in input ==> r == (input, "")
  {
    match Seqs.FirstIndex(input, ' ')
    case None => (input, "")
    case Some(i) =>
      assert input == input[..i] + [input[i]] + input[i + 1..];
      (input[..i], input[i + 1..])
  }

  /** The split is determined by its parts: a token without a space, a space, and the rest. */
  lemma {:induction false} SplitAt(command: string, argument: string)
    requires ' ' !in command
    ensures Split(command + " " + argument) == (command, argument)
  {
    var input := command + " " + argument;
    assert input[|command|] == ' ';
    var r := Split(input);
    assert input == r.0 + " " + r.1;
    assert |r.0| == |command|;
    assert r.0 == input[..|command|] == command;
    assert r.1 == input[|command| + 1..] == argument;
  }

  /** The command token is `token` exactly when the input is `token`, or `token` and a space and more. */
  lemma CommandIs(input: string, token: string)
    requires ' ' !in token
    ensures Split(input).0 == token <==> (input == token || token + " " <= input)
  {
    if token + " " <= input {
      var rest := input[|token| + 1..];
      assert input == token + " " + rest;
      SplitAt(token, rest);
    }
    if Split(input).0 == token && ' ' in input {
      assert input == token + " " + Split(input).1;
    }
  }
}
