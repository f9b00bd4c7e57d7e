/** `makeTitleCase`, the Go function the test exports into bash as
    `make-title-case`: it reads its standard input, strips the line feeds
    around it, upper-cases every letter that opens a word and prints the
    result on one line. Standard input becomes the parameter `input` and the
    printed line the result `out`. */
module TitleCasing {
  import opened Unicode
  import opened NewlineTrim

  /** Rune `i` opens a word: it is the first rune or follows whitespace. */
  predicate StartsWord(t: Table, s: string, i: nat)
    requires i < |s|
  {
    i == 0 || t.isSpace(s[i - 1])
  }

  /** Rune `i` is a letter that opens a word, so it is upper-cased. */
  predicate Capitalised(t: Table, s: string, i: nat)
    requires i < |s|
  {
    t.isLetter(s[i]) && StartsWord(t, s, i)
  }

  /** The reference definition, rune by rune: a letter that opens a word is
      replaced by its upper-case form and every other rune is kept. */
  function TitleCase(t: Table, s: string): (r: string)
    ensures |r| == |s|
  {
    seq(|s|, i requires 0 <= i < |s| => if Capitalised(t, s, i) then t.toUpper(s[i]) else s[i])
  }

  /** The line `makeTitleCase` prints for the text `input`. */
  function TitleLine(t: Table, input: string): (out: string)
    ensures |out| > 0 && out[|out| - 1] == '\n'
    ensures out[..|out| - 1] == TitleCase(t, TrimNewlines(input))
  {
    TitleCase(t, TrimNewlines(input)) + "\n"
  }

  /** The routine itself: trim, copy into a rune array, title-case the
      array in place, then print with one line feed. */
  method MakeTitleCase(t: Table, input: string) returns (out: string)
    requires NoLetterIsSpace(t)
    ensures out == TitleLine(t, input)
  {
    var body := TrimNewlines(input);
    var runes := new char[|body|](i requires 0 <= i < |body| => body[i]);
    assert runes[..] == body;
    CapitaliseInPlace(t, runes);
    out := runes[..] + "\n";
  }

  /** The loop of `makeTitleCase`: one pass over the runes that upper-cases
      in place while the flag `spacePrev` remembers whether the previous
      rune was whitespace. */
  method CapitaliseInPlace(t: Table, runes: array<char>)
    requires NoLetterIsSpace(t)
    modifies runes
    ensures runes[..] == TitleCase(t, old(runes[..]))
  {
    ghost var body := runes[..];
    ghost var titled := TitleCase(t, body);
    var spacePrev := false;
    for i := 0 to runes.Length
      invariant spacePrev == (i > 0 && t.isSpace(body[i - 1]))
      invariant forall k :: 0 <= k < i ==> runes[k] == titled[k]
      invariant forall k :: i <= k < runes.Length ==> runes[k] == body[k]
    {
      if t.isLetter(runes[i]) && (i == 0 || spacePrev) {
        runes[i] := t.toUpper(runes[i]);
        spacePrev := false;
      } else if t.isSpace(runes[i]) {
        spacePrev := true;
      } else {
        spacePrev := false;
      }
    }
    assert runes[..] == titled;
  }

  /** A letter after a rune that is not whitespace (a digit, punctuation or
      another letter) is kept as it is. */
  lemma NoCapitalAfterNonSpace(t: Table, s: string, i: nat)
    requires 0 < i < |s| && !t.isSpace(s[i - 1])
    ensures TitleCase(t, s)[i] == s[i]
  {
  }

  /** Title-casing keeps each rune's class: letters stay letters and
      whitespace stays whitespace, in both directions. */
  lemma TitleCaseKeepsClasses(t: Table, s: string, i: nat)
    requires UpperKeepsLetters(t) && UpperKeepsNonSpaces(t) && NoLetterIsSpace(t)
    requires i < |s|
    ensures t.isLetter(TitleCase(t, s)[i]) <==> t.isLetter(s[i])
    ensures t.isSpace(TitleCase(t, s)[i]) <==> t.isSpace(s[i])
  {
    if Capitalised(t, s, i) {
      assert t.isLetter(t.toUpper(s[i]));
      assert !t.isSpace(t.toUpper(s[i]));
    }
  }

  /** Title-casing leaves the word starts where they were. */
  lemma TitleCaseKeepsWordStarts(t: Table, s: string, i: nat)
    requires UpperKeepsLetters(t) && UpperKeepsNonSpaces(t) && NoLetterIsSpace(t)
    requires i < |s|
    ensures StartsWord(t, TitleCase(t, s), i) <==> StartsWord(t, s, i)
    ensures Capitalised(t, TitleCase(t, s), i) <==> Capitalised(t, s, i)
  {
    if i > 0 {
      TitleCaseKeepsClasses(t, s, i - 1);
    }
    TitleCaseKeepsClasses(t, s, i);
  }

  /** Title-casing text that is already title-cased changes nothing. */
  lemma TitleCaseIdempotent(t: Table, s: string)
    requires Lawful(t)
    ensures TitleCase(t, TitleCase(t, s)) == TitleCase(t, s)
  {
    var r := TitleCase(t, s);
    forall i | 0 <= i < |s|
      ensures TitleCase(t, r)[i] == r[i]
    {
      TitleCaseKeepsWordStarts(t, s, i);
      if Capitalised(t, s, i) {
        assert t.toUpper(t.toUpper(s[i])) == t.toUpper(s[i]);
      }
    }
  }

  /** Title-casing cannot put a line feed at either end of the text. */
  lemma TitleCaseKeepsEnds(t: Table, s: string)
    requires Lawful(t)
    requires NoEdgeNewline(s)
    ensures NoEdgeNewline(TitleCase(t, s))
  {
    if |s| > 0 {
      TitleCaseKeepsClasses(t, s, 0);
      TitleCaseKeepsClasses(t, s, |s| - 1);
    }
  }

  /** The printed line ends in exactly one line feed: the rune before the
      final one, if any, is not a line feed. */
  lemma TitleLineHasOneNewline(t: Table, input: string)
    requires Lawful(t)
    ensures var out := TitleLine(t, input);
      |out| > 0 && out[|out| - 1] == '\n' && (|out| > 1 ==> out[|out| - 2] != '\n')
  {
    TitleCaseKeepsEnds(t, TrimNewlines(input));
  }

  /** Running `makeTitleCase` on its own output prints the same line again. */
  lemma TitleLineIdempotent(t: Table, input: string)
    requires Lawful(t)
    ensures TitleLine(t, TitleLine(t, input)) == TitleLine(t, input)
  {
    var body := TitleCase(t, TrimNewlines(input));
    TitleCaseKeepsEnds(t, TrimNewlines(input));
    TrimDropsAddedNewline(body);
    TitleCaseIdempotent(t, TrimNewlines(input));
  }

  /** Text split after whitespace is title-cased piece by piece: the
      first rune of the second piece opens a word either way. */
  lemma TitleCaseSplitsAtSpace(t: Table, a: string, b: string)
    requires |a| > 0 ==> t.isSpace(a[|a| - 1])
    ensures TitleCase(t, a + b) == TitleCase(t, a) + TitleCase(t, b)
  {
    var s := a + b;
    forall i | 0 <= i < |s|
      ensures TitleCase(t, s)[i] == (TitleCase(t, a) + TitleCase(t, b))[i]
    {
      if i >= |a| {
        assert s[i] == b[i - |a|];
        assert i > |a| ==> s[i - 1] == b[i - |a| - 1];
        assert Capitalised(t, s, i) == Capitalised(t, b, i - |a|);
      } else {
        assert Capitalised(t, s, i) == Capitalised(t, a, i);
      }
    }
  }

  /** A word that starts with a letter and holds no whitespace before its
      last rune has only that first letter upper-cased. */
  lemma TitleCaseWord(t: Table, w: string)
    requires |w| > 0 && t.isLetter(w[0])
    requires forall k :: 0 <= k < |w| - 1 ==> !t.isSpace(w[k])
    ensures TitleCase(t, w) == [t.toUpper(w[0])] + w[1..]
  {
    assert forall i :: 0 < i < |w| ==> !Capitalised(t, w, i);
  }

  /** The words of the test's sentence, each title-cased on its own. */
  lemma ExampleWords()
    ensures TitleCase(Ascii, "this ") == "This "
    ensures TitleCase(Ascii, "should ") == "Should "
    ensures TitleCase(Ascii, "be ") == "Be "
    ensures TitleCase(Ascii, "in ") == "In "
    ensures TitleCase(Ascii, "title ") == "Title "
    ensures TitleCase(Ascii, "case") == "Case"
  {
    TitleCaseWord(Ascii, "this ");
    TitleCaseWord(Ascii, "should ");
    TitleCaseWord(Ascii, "be ");
    TitleCaseWord(Ascii, "in ");
    TitleCaseWord(Ascii, "title ");
    TitleCaseWord(Ascii, "case");
  }

  /** The last three words of the test's sentence. */
  lemma ExampleTail()
    ensures TitleCase(Ascii, "in title case") == "In Title Case"
  {
    ExampleWords();
    TitleCaseSplitsAtSpace(Ascii, "title ", "case");
    assert "title " + "case" == "title case";
    TitleCaseSplitsAtSpace(Ascii, "in ", "title case");
    assert "in " + "title case" == "in title case";
  }

  /** The first three words of the test's sentence. */
  lemma ExampleHead()
    ensures TitleCase(Ascii, "this should be ") == "This Should Be "
  {
    ExampleWords();
    TitleCaseSplitsAtSpace(Ascii, "should ", "be ");
    assert "should " + "be " == "should be ";
    TitleCaseSplitsAtSpace(Ascii, "this ", "should be ");
    assert "this " + "should be " == "this should be ";
  }

  /** The test's sentence title-cased, word after word. */
  lemma ExampleSentence()
    ensures TitleCase(Ascii, "this should be in title case") == "This Should Be In Title Case"
  {
    ExampleHead();
    ExampleTail();
    TitleCaseSplitsAtSpace(Ascii, "this should be ", "in title case");
    assert "this should be " + "in title case" == "this should be in title case";
  }

  /** The line the bash test expects from `convertToTitle`, for the text
      piped into `make-title-case` with its line feed. */
  lemma TitleCaseExample()
    ensures TitleLine(Ascii, "this should be in title case\n") == "This Should Be In Title Case\n"
  {
    var s := "this should be in title case";
    assert "this should be in title case\n" == s + "\n";
    TrimDropsAddedNewline(s);
    ExampleSentence();
  }
}
