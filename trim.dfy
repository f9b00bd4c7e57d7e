/** `strings.Trim(s, "\n")`: the text with every leading and every trailing
    line feed removed. */
module NewlineTrim {

  predicate AllNewlines(s: string) {
    forall k :: 0 <= k < |s| ==> s[k] == '\n'
  }

  /** `s` neither starts nor ends with a line feed. */
  predicate NoEdgeNewline(s: string) {
    |s| > 0 ==> s[0] != '\n' && s[|s| - 1] != '\n'
  }

  /** The number of line feeds that open `s`. */
  function LeadingNewlines(s: string): (n: nat)
    ensures n <= |s| && AllNewlines(s[..n])
    ensures n < |s| ==> s[n] != '\n'
  {
    if |s| > 0 && s[0] == '\n' then
      var m := LeadingNewlines(s[1..]);
      assert forall k :: 1 <= k < m + 1 ==> s[k] == s[1..][..m][k - 1];
      1 + m
    else
      0
  }

  /** The number of line feeds that close `s`. */
  function TrailingNewlines(s: string): (n: nat)
    ensures n <= |s| && AllNewlines(s[|s| - n..])
    ensures n < |s| ==> s[|s| - n - 1] != '\n'
  {
    if |s| > 0 && s[|s| - 1] == '\n' then
      var p := s[..|s| - 1];
      var m := TrailingNewlines(p);
      assert s[|s| - (m + 1)..] == p[|p| - m..] + ['\n'];
      1 + m
    else
      0
  }

  /** The trimmed text is a contiguous slice of `s`, everything cut away on
      either side is line feeds, and the slice neither starts nor ends
      with one. */
  function TrimNewlines(s: string): (r: string)
    ensures NoEdgeNewline(r)
    ensures exists a :: 0 <= a <= |s| - |r| && r == s[a..a + |r|]
                        && AllNewlines(s[..a]) && AllNewlines(s[a + |r|..])
  {
    var a := LeadingNewlines(s);
    var rest := s[a..];
    var n := TrailingNewlines(rest);
    var b := |rest| - n;
    assert |rest[..b]| > 0 ==> rest[..b][0] == s[a] && rest[..b][b - 1] == rest[|rest| - n - 1];
    assert rest[..b] == s[a..a + b];
    assert s[a + b..] == rest[b..];
    assert AllNewlines(s[..a]) && AllNewlines(s[a + b..]);
    rest[..b]
  }

  /** Text without a line feed at either end is left as it is. */
  lemma TrimKeepsTrimmed(s: string)
    requires NoEdgeNewline(s)
    ensures TrimNewlines(s) == s
  {
    assert LeadingNewlines(s) == 0;
    assert TrailingNewlines(s) == 0;
  }

  /** Trimming twice is trimming once. */
  lemma TrimIdempotent(s: string)
    ensures TrimNewlines(TrimNewlines(s)) == TrimNewlines(s)
  {
    TrimKeepsTrimmed(TrimNewlines(s));
  }

  /** One line feed appended to trimmed text is cut off again. */
  lemma TrimDropsAddedNewline(s: string)
    requires NoEdgeNewline(s)
    ensures TrimNewlines(s + "\n") == s
  {
    var t := s + "\n";
    if |s| == 0 {
      assert t[1..] == [];
      assert LeadingNewlines(t) == 1;
    } else {
      assert t[0] == s[0];
      assert LeadingNewlines(t) == 0;
      assert t[0..] == t;
      assert t[..|t| - 1] == s;
      assert s[|s| - 1] != '\n';
      assert TrailingNewlines(s) == 0;
      assert TrailingNewlines(t) == 1;
    }
  }
}
