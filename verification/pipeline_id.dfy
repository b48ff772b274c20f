/**
  Recognition of Elastic Transcoder pipeline identifiers. The handler tests a
  physical resource id against the anchored regular expression
  `^\d{13}-\w{6}$`, written here as a list of atoms (a character class and a
  fixed repetition count) together with an anchored matcher. The expression
  has no alternation and no variable repetition, so matching needs no
  backtracking. `IsPipelineId` states the same shape position by position;
  `RegexIffPipelineId` proves that the two agree on every string.
 */
module PipelineIdFormat {

  /** `\d` without flags: an ASCII decimal digit. */
  predicate IsDigit(c: char) {
    '0' <= c <= '9'
  }

  /** `\w` without flags: `[A-Za-z0-9_]`. */
  predicate IsWordChar(c: char) {
    'a' <= c <= 'z' || 'A' <= c <= 'Z' || IsDigit(c) || c == '_'
  }

  datatype CharClass = Digit | Word | Exactly(c: char)

  /** `cls{count}`: exactly `count` characters of class `cls`. */
  datatype Atom = Atom(cls: CharClass, count: nat)

  predicate InClass(c: char, cls: CharClass) {
    match cls
    case Digit => IsDigit(c)
    case Word => IsWordChar(c)
    case Exactly(d) => c == d
  }

  predicate AllIn(s: string, cls: CharClass) {
    forall i :: 0 <= i < |s| ==> InClass(s[i], cls)
  }

  /** The number of characters a list of atoms consumes. */
  function Width(atoms: seq<Atom>): nat {
    if atoms == [] then 0 else atoms[0].count + Width(atoms[1..])
  }

  /** Anchored match of the whole of `s` against the atoms, in order. */
  function Matches(s: string, atoms: seq<Atom>): (r: bool)
    ensures r ==> |s| == Width(atoms)
    decreases atoms
  {
    if atoms == [] then s == []
    else
      var n := atoms[0].count;
      n <= |s| && AllIn(s[..n], atoms[0].cls) && Matches(s[n..], atoms[1..])
  }

  /** `^\d{13}-\w{6}$` */
  const PipelineIdRegex: seq<Atom> := [Atom(Digit, 13), Atom(Exactly('-'), 1), Atom(Word, 6)]

  /** Reference definition: 20 characters, ASCII digits at positions 0 to 12,
      a hyphen at 13 and word characters at 14 to 19. */
  predicate IsPipelineId(s: string) {
    && |s| == 20
    && (forall i :: 0 <= i < 13 ==> IsDigit(s[i]))
    && s[13] == '-'
    && (forall i :: 14 <= i < 20 ==> IsWordChar(s[i]))
  }

  lemma RegexIffPipelineId(s: string)
    ensures Matches(s, PipelineIdRegex) <==> IsPipelineId(s)
  {
    var r := PipelineIdRegex;
    assert r[1..] == [Atom(Exactly('-'), 1), Atom(Word, 6)];
    assert r[1..][1..] == [Atom(Word, 6)];
    assert r[1..][1..][1..] == [];
    if IsPipelineId(s) {
      assert AllIn(s[..13], Digit);
      assert s[13..][..1] == [s[13]];
      assert AllIn(s[13..][..1], Exactly('-'));
      assert s[13..][1..] == s[14..];
      assert AllIn(s[14..][..6], Word) by {
        forall i | 0 <= i < 6 ensures InClass(s[14..][..6][i], Word) {
          assert s[14..][..6][i] == s[14 + i];
        }
      }
      assert s[14..][6..] == [];
    }
    if Matches(s, r) {
      assert AllIn(s[..13], Digit);
      assert Matches(s[13..], r[1..]);
      assert s[13..][..1] == [s[13]];
      assert s[13..][1..] == s[14..];
      assert Matches(s[14..], r[1..][1..]);
      forall i | 14 <= i < 20 ensures IsWordChar(s[i]) {
        assert s[14..][..6][i - 14] == s[i];
      }
    }
  }

  /** Every string made of 13 digits, a hyphen and 6 word characters is
      recognised, and every recognised string splits that way. */
  lemma PipelineIdSplits(s: string)
    ensures Matches(s, PipelineIdRegex) <==>
      exists digits, word ::
        && |digits| == 13 && AllIn(digits, Digit)
        && |word| == 6 && AllIn(word, Word)
        && s == digits + "-" + word
  {
    RegexIffPipelineId(s);
    if IsPipelineId(s) {
      var digits, word := s[..13], s[14..];
      assert s == digits + "-" + word;
    }
    if exists digits, word ::
        && |digits| == 13 && AllIn(digits, Digit)
        && |word| == 6 && AllIn(word, Word)
        && s == digits + "-" + word
    {
      var digits, word :|
        && |digits| == 13 && AllIn(digits, Digit)
        && |word| == 6 && AllIn(word, Word)
        && s == digits + "-" + word;
      forall i | 0 <= i < 13 ensures IsDigit(s[i]) {
        assert s[i] == digits[i];
      }
      forall i | 14 <= i < 20 ensures IsWordChar(s[i]) {
        assert s[i] == word[i - 14];
      }
    }
  }

  /** Two illustrative identifiers: a well-formed one is recognised, and a
      string of the wrong length and shape is not. */
  lemma ExampleIdsClassified()
    ensures Matches("1234567890123-123456", PipelineIdRegex)
    ensures !Matches("PhysicalResourceId", PipelineIdRegex)
  {
    RegexIffPipelineId("1234567890123-123456");
    RegexIffPipelineId("PhysicalResourceId");
  }
}
