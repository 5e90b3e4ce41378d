/** Character classes and string transformations used by both the server and the widget. */
module Text {

  /** The characters Python's `str.isspace` accepts, which `str.strip()` removes. */
  const PythonWhitespace: set<char> :=
    {'\t', '\n', '\U{0B}', '\U{0C}', '\r', ' ', '\U{A0}', '\U{1680}',
      '\U{2000}', '\U{2001}', '\U{2002}', '\U{2003}', '\U{2004}', '\U{2005}', '\U{2006}',
      '\U{2007}', '\U{2008}', '\U{2009}', '\U{200A}', '\U{2028}', '\U{2029}', '\U{202F}',
      '\U{205F}', '\U{3000}',
      '\U{1C}', '\U{1D}', '\U{1E}', '\U{1F}', '\U{85}'}

  /** The white space and line terminators JavaScript's `String.prototype.trim` removes. */
  const JavaScriptWhitespace: set<char> :=
    {'\t', '\n', '\U{0B}', '\U{0C}', '\r', ' ', '\U{A0}', '\U{1680}',
      '\U{2000}', '\U{2001}', '\U{2002}', '\U{2003}', '\U{2004}', '\U{2005}', '\U{2006}',
      '\U{2007}', '\U{2008}', '\U{2009}', '\U{200A}', '\U{2028}', '\U{2029}', '\U{202F}',
      '\U{205F}', '\U{3000}',
      '\U{FEFF}'}

  /** The index of the first character of `s` at or after `i` that is not in `ws`. */
  function LeadingEnd(s: string, ws: set<char>, i: nat): (n: nat)
    requires i <= |s|
    ensures i <= n <= |s|
    ensures forall j :: i <= j < n ==> s[j] in ws
    ensures n < |s| ==> s[n] !in ws
    decreases |s| - i
  {
    if i < |s| && s[i] in ws then LeadingEnd(s, ws, i + 1) else i
  }

  /** The index just past the last character of `s[lo..j]` that is not in `ws`. */
  function TrailingStart(s: string, ws: set<char>, lo: nat, j: nat): (n: nat)
    requires lo <= j <= |s|
    ensures lo <= n <= j
    ensures forall m :: n <= m < j ==> s[m] in ws
    ensures n > lo ==> s[n - 1] !in ws
  {
    if j > lo && s[j - 1] in ws then TrailingStart(s, ws, lo, j - 1) else j
  }

  /**
   * Removal of the characters of `ws` at both ends: Python's `str.strip()` with
   * `PythonWhitespace`, JavaScript's `trim()` with `JavaScriptWhitespace`. The result is
   * the infix of `s` that starts after the leading run of `ws` and ends before the
   * trailing one, and it is empty exactly when `s` is all `ws`.
   */
  function Strip(s: string, ws: set<char>): (r: string)
    ensures var k := LeadingEnd(s, ws, 0);
      k + |r| <= |s| && r == s[k..k + |r|]
      && (forall i :: 0 <= i < k ==> s[i] in ws)
      && (forall i :: k + |r| <= i < |s| ==> s[i] in ws)
    ensures r != [] ==> r[0] !in ws && r[|r| - 1] !in ws
    ensures r == [] <==> forall i :: 0 <= i < |s| ==> s[i] in ws
  {
    var a := LeadingEnd(s, ws, 0);
    var b := TrailingStart(s, ws, a, |s|);
    assert a < b ==> s[a] !in ws;
    s[a..b]
  }

  /** Stripping is idempotent: a stripped string has nothing left to strip. */
  lemma StripIdempotent(s: string, ws: set<char>)
    ensures Strip(Strip(s, ws), ws) == Strip(s, ws)
  {
    var r := Strip(s, ws);
    assert LeadingEnd(r, ws, 0) == 0;
    assert TrailingStart(r, ws, 0, |r|) == |r|;
  }

  /** Whether `s` contains no character `c`. */
  predicate Lacks(s: string, c: char)
  {
    forall i :: 0 <= i < |s| ==> s[i] != c
  }

  /** JavaScript's `s.replace(/\n/g, '<br>')`: every line feed becomes a `<br>` tag. */
  function ReplaceNewlines(s: string): (r: string)
    ensures Lacks(r, '\n')
    ensures Lacks(s, '\n') ==> r == s
    ensures |r| >= |s|
  {
    if s == [] then []
    else
      var rest := ReplaceNewlines(s[1..]);
      assert Lacks(s, '\n') ==> Lacks(s[1..], '\n') by {
        if Lacks(s, '\n') {
          forall i | 0 <= i < |s[1..]| ensures s[1..][i] != '\n' { assert s[1..][i] == s[i + 1]; }
        }
      }
      (if s[0] == '\n' then "<br>" else [s[0]]) + rest
  }

  /** A single character: a line feed becomes `<br>`, any other character is kept. */
  lemma ReplaceNewlinesChar(c: char)
    ensures ReplaceNewlines([c]) == if c == '\n' then "<br>" else [c]
  {
    assert [c][1..] == [];
  }

  /** The replacement works character by character, so it distributes over concatenation. */
  lemma {:induction false} ReplaceNewlinesAppend(a: string, b: string)
    ensures ReplaceNewlines(a + b) == ReplaceNewlines(a) + ReplaceNewlines(b)
  {
    if a == [] {
      assert a + b == b;
    } else {
      assert (a + b)[0] == a[0] && (a + b)[1..] == a[1..] + b;
      ReplaceNewlinesAppend(a[1..], b);
    }
  }

  /** The reverse reading of `ReplaceNewlines`: every `<br>` tag becomes a line feed. */
  function RestoreNewlines(r: string): (s: string)
    decreases |r|
  {
    if r == [] then []
    else if |r| >= 4 && r[..4] == "<br>" then "\n" + RestoreNewlines(r[4..])
    else [r[0]] + RestoreNewlines(r[1..])
  }

  /**
   * For a text without `<` the `<br>` tags of the rendered panel are exactly its line feeds,
   * so the text can be recovered from what is injected.
   */
  lemma {:induction false} RestoreReplaceNewlines(s: string)
    requires Lacks(s, '<')
    ensures RestoreNewlines(ReplaceNewlines(s)) == s
  {
    if s != [] {
      assert Lacks(s[1..], '<') by {
        forall i | 0 <= i < |s[1..]| ensures s[1..][i] != '<' { assert s[1..][i] == s[i + 1]; }
      }
      RestoreReplaceNewlines(s[1..]);
      var rest := ReplaceNewlines(s[1..]);
      if s[0] == '\n' {
        assert ReplaceNewlines(s) == "<br>" + rest;
        assert ("<br>" + rest)[..4] == "<br>";
        assert ("<br>" + rest)[4..] == rest;
      } else {
        assert ReplaceNewlines(s) == [s[0]] + rest;
        assert ([s[0]] + rest)[0] == s[0] != '<';
        assert ([s[0]] + rest)[1..] == rest;
      }
    }
  }
}
