/**
 * Normalisation of a remote command's output into the text the bot reports:
 * both streams are stripped of surrounding whitespace, and the report is
 * stdout if non-empty, else stderr if non-empty, else the sentinel "OK".
 */
module Output {

  /** The characters Python's `str.isspace` accepts, which `str.strip()`
      removes from both ends. */
  predicate IsSpace(c: char)
  {
    c == ' ' || ('\t' <= c <= '\r') || ('\U{1c}' <= c <= '\U{1f}') ||
    c == '\U{85}' || c == '\U{a0}' || c == '\U{1680}' ||
    ('\U{2000}' <= c <= '\U{200a}') || c == '\U{2028}' || c == '\U{2029}' ||
    c == '\U{202f}' || c == '\U{205f}' || c == '\U{3000}'
  }

  /** Every character of `s` is whitespace. */
  predicate Blank(s: string)
  {
    forall k :: 0 <= k < |s| ==> IsSpace(s[k])
  }

  /** `s` with its leading whitespace removed (see `TrimStartDrops`). */
  function TrimStart(s: string): (r: string)
    ensures r != [] ==> !IsSpace(r[0])
  {
    if s != [] && IsSpace(s[0]) then TrimStart(s[1..]) else s
  }

  /** `s` with its trailing whitespace removed (see `TrimEndDrops`). */
  function TrimEnd(s: string): (r: string)
    ensures r != [] ==> !IsSpace(r[|r| - 1])
  {
    if s != [] && IsSpace(s[|s| - 1]) then TrimEnd(s[..|s| - 1]) else s
  }

  /** `TrimStart` keeps a suffix of `s` and drops only whitespace. */
  lemma {:induction false} TrimStartDrops(s: string)
    ensures |TrimStart(s)| <= |s|
    ensures TrimStart(s) == s[|s| - |TrimStart(s)|..]
    ensures Blank(s[..|s| - |TrimStart(s)|])
  {
    if s != [] && IsSpace(s[0]) {
      TrimStartDrops(s[1..]);
      var n := |s| - |TrimStart(s)|;
      assert s[1..][..n - 1] == s[1..n];
      assert s[1..][n - 1..] == s[n..];
    }
  }

  /** `TrimEnd` keeps a prefix of `s` and drops only whitespace. */
  lemma {:induction false} TrimEndDrops(s: string)
    ensures |TrimEnd(s)| <= |s|
    ensures TrimEnd(s) == s[..|TrimEnd(s)|]
    ensures Blank(s[|TrimEnd(s)|..])
  {
    if s != [] && IsSpace(s[|s| - 1]) {
      TrimEndDrops(s[..|s| - 1]);
      var n := |TrimEnd(s)|;
      assert s[..|s| - 1][n..] + [s[|s| - 1]] == s[n..];
    }
  }

  /** Python's `str.strip()`: `s` without its leading and trailing
      whitespace (see `StripSlice`). */
  function Strip(s: string): (r: string)
    ensures r != [] ==> !IsSpace(r[0]) && !IsSpace(r[|r| - 1])
  {
    var front := TrimStart(s);
    TrimEndDrops(front);
    TrimEnd(front)
  }

  /** What `Strip` keeps is the contiguous middle `s[i..j]` of `s`, and what
      it drops on either side is all whitespace. */
  lemma StripSlice(s: string)
    ensures exists i, j :: 0 <= i <= j <= |s| && Strip(s) == s[i..j] && Blank(s[..i]) && Blank(s[j..])
  {
    var front := TrimStart(s);
    var r := TrimEnd(front);
    var i := |s| - |front|;
    TrimStartDrops(s);
    TrimEndDrops(front);
    assert r == s[i..i + |r|];
    assert s[i + |r|..] == front[|r|..];
  }

  /** Stripping a string that has no surrounding whitespace changes nothing;
      in particular stripping is idempotent. */
  lemma StripTrimmed(s: string)
    requires s != [] ==> !IsSpace(s[0]) && !IsSpace(s[|s| - 1])
    ensures Strip(s) == s
  {
  }

  /** A string strips to empty exactly when it is all whitespace. */
  lemma StripEmptyIffBlank(s: string)
    ensures Strip(s) == [] <==> Blank(s)
  {
    var front := TrimStart(s);
    TrimStartDrops(s);
    TrimEndDrops(front);
    var n := |s| - |front|;
    if Strip(s) == [] {
      assert front[0..] == front;
      assert s[..n] == s;
    }
  }

  /** The reported text `out or err or 'OK'` over the stripped streams. */
  function ResultText(stdout: string, stderr: string): (text: string)
    ensures text != []
    ensures !IsSpace(text[0]) && !IsSpace(text[|text| - 1])
    ensures Strip(stdout) != [] ==> text == Strip(stdout)
    ensures Strip(stdout) == [] && Strip(stderr) != [] ==> text == Strip(stderr)
    ensures Strip(stdout) == [] && Strip(stderr) == [] ==> text == "OK"
  {
    var out := Strip(stdout);
    var err := Strip(stderr);
    if out != [] then out
    else if err != [] then err
    else "OK"
  }

  /** Output precedence in terms of the raw streams: stdout wins unless it is
      blank, stderr is reported only when stdout is blank, and "OK" only when
      both are. */
  lemma ResultPrecedence(stdout: string, stderr: string)
    ensures !Blank(stdout) ==> ResultText(stdout, stderr) == Strip(stdout)
    ensures Blank(stdout) && !Blank(stderr) ==> ResultText(stdout, stderr) == Strip(stderr)
    ensures Blank(stdout) && Blank(stderr) ==> ResultText(stdout, stderr) == "OK"
  {
    StripEmptyIffBlank(stdout);
    StripEmptyIffBlank(stderr);
  }
}
