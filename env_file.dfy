/** The end-to-end test runner's reader for `.env.testing`: one `KEY=value`
    setting per line, blank lines and `#` comments skipped, one quote
    stripped from each end of the value, and the last line for a key
    winning. */
module EnvFile {
  import opened Common

  predicate IsQuote(c: char) {
    c == '"' || c == '\''
  }

  /** `value.replace(/^["']|["']$/g, "")`: a quote at the start and a quote
      at the end are removed independently of each other (they need not
      match). A lone quote is one match, and it is removed once. */
  function StripQuotes(v: string): (r: string)
    ensures v != [] && IsQuote(v[0]) && |v| >= 2 && IsQuote(v[|v| - 1]) ==> r == v[1..|v| - 1]
    ensures v != [] && IsQuote(v[0]) && (|v| < 2 || !IsQuote(v[|v| - 1])) ==> r == v[1..]
    ensures v != [] && !IsQuote(v[0]) && IsQuote(v[|v| - 1]) ==> r == v[..|v| - 1]
    ensures (v == [] || (!IsQuote(v[0]) && !IsQuote(v[|v| - 1]))) ==> r == v
  {
    var s := if v != [] && IsQuote(v[0]) then v[1..] else v;
    if s != [] && IsQuote(s[|s| - 1]) then s[..|s| - 1] else s
  }

  /** The setting a line holds, if any: the trimmed line is skipped when it
      is empty or starts with `#`; otherwise the key is the text before its
      first `=` and the value everything after it. */
  function LineEntry(line: string): (e: Option<(string, string)>)
    ensures e.Some? ==> '=' !in e.value.0 && e.value.0 != ""
  {
    var trimmedLine := Trim(line);
    if trimmedLine == "" || StartsWith(trimmedLine, "#") then None
    else
      var parts := Split(trimmedLine, '=');
      HeadRestOfSplit(trimmedLine, '=');
      var key := parts[0];
      if key != "" && |parts[1..]| > 0 then Some((key, StripQuotes(Join(parts[1..], '='))))
      else None
  }

  /** A line sets something exactly when its trimmed text is neither empty
      nor a `#` comment, and has an `=` with a non-empty key before it; the
      key is the text before the first `=` and the value the text after it,
      quotes stripped, further `=` kept. Nothing else is trimmed, so spaces
      around `=` stay in the key and the value. */
  lemma LineEntryMeaning(line: string)
    ensures var t := Trim(line); var (key, rest) := SplitAtFirst(t, '=');
      LineEntry(line).Some? <==> (t != "" && !StartsWith(t, "#") && key != "" && rest.Some?)
    ensures var t := Trim(line); var (key, rest) := SplitAtFirst(t, '=');
      LineEntry(line).Some? ==> LineEntry(line).value == (key, StripQuotes(rest.value))
  {
    HeadRestOfSplit(Trim(line), '=');
  }

  /** The setting of each line, in order. */
  function Entries(lines: seq<string>): (es: seq<Option<(string, string)>>)
    ensures |es| == |lines|
    ensures forall i :: 0 <= i < |lines| ==> es[i] == LineEntry(lines[i])
  {
    if lines == [] then [] else [LineEntry(lines[0])] + Entries(lines[1..])
  }

  /** Settings collected in order into a dictionary, a later setting of a
      key replacing an earlier one. */
  function Collect(es: seq<Option<(string, string)>>): map<string, string>
  {
    if es == [] then map[]
    else
      var before := Collect(es[..|es| - 1]);
      var e := es[|es| - 1];
      if e.Some? then before[e.value.0 := e.value.1] else before
  }

  /** The settings a file's lines hold. */
  function Settings(lines: seq<string>): map<string, string> {
    Collect(Entries(lines))
  }

  /** Whether setting `i` is for `key`. */
  predicate SetsKey(es: seq<Option<(string, string)>>, i: int, key: string)
    requires 0 <= i < |es|
  {
    es[i].Some? && es[i].value.0 == key
  }

  /** A key is set exactly when some line sets it. */
  lemma {:induction false} KeySetIff(es: seq<Option<(string, string)>>, key: string)
    ensures key in Collect(es) <==> exists i :: 0 <= i < |es| && SetsKey(es, i, key)
  {
    if es != [] {
      var init := es[..|es| - 1];
      KeySetIff(init, key);
      assert forall i :: 0 <= i < |init| ==> SetsKey(init, i, key) == SetsKey(es, i, key);
      if SetsKey(es, |es| - 1, key) {
        assert key in Collect(es);
      }
    }
  }

  /** The value of a key is the one the last line setting it gives. */
  lemma {:induction false} LastLineWins(es: seq<Option<(string, string)>>, key: string, i: int)
    requires 0 <= i < |es| && SetsKey(es, i, key)
    requires forall j :: i < j < |es| ==> !SetsKey(es, j, key)
    ensures key in Collect(es) && Collect(es)[key] == es[i].value.1
  {
    var init := es[..|es| - 1];
    if i < |es| - 1 {
      assert forall j :: i < j < |init| ==> SetsKey(init, j, key) == SetsKey(es, j, key);
      assert SetsKey(init, i, key);
      LastLineWins(init, key, i);
      assert !SetsKey(es, |es| - 1, key);
    }
  }

  /** Collecting one more setting. */
  lemma CollectStep(es: seq<Option<(string, string)>>, i: int)
    requires 0 <= i < |es|
    ensures Collect(es[..i + 1]) ==
      if es[i].Some? then Collect(es[..i])[es[i].value.0 := es[i].value.1] else Collect(es[..i])
  {
    assert es[..i + 1][..i] == es[..i];
  }

  /** `envContent.split("\n").forEach(...)`: the settings collected into a
      dictionary one line at a time. */
  method LoadEnv(content: string) returns (envVars: map<string, string>)
    ensures envVars == Settings(Split(content, '\n'))
  {
    var lines := Split(content, '\n');
    ghost var es := Entries(lines);
    envVars := map[];
    var i := 0;
    while i < |lines|
      invariant 0 <= i <= |lines|
      invariant envVars == Collect(es[..i])
    {
      var line := lines[i];
      var trimmedLine := Trim(line);
      if trimmedLine != "" && !StartsWith(trimmedLine, "#") {
        var parts := Split(trimmedLine, '=');
        var key := parts[0];
        var valueParts := parts[1..];
        if key != "" && |valueParts| > 0 {
          var value := StripQuotes(Join(valueParts, '='));
          envVars := envVars[key := value];
          assert es[i] == Some((key, value));
        } else {
          assert es[i] == None;
        }
      } else {
        assert es[i] == None;
      }
      CollectStep(es, i);
      i := i + 1;
    }
    assert es[..i] == es;
  }

  /** A line with no edge white space, not a comment, and with a key before
      its first `=`, sets that key. */
  lemma PlainLineEntry(line: string, key: string, rest: string)
    requires NoEdgeSpace(line) && line != "" && line[0] != '#' && key != ""
    requires SplitAtFirst(line, '=') == (key, Some(rest))
    ensures LineEntry(line) == Some((key, StripQuotes(rest)))
  {
    TrimIdentity(line);
    LineEntryMeaning(line);
  }

  predicate NoEdgeSpace(s: string) {
    s == [] || (!IsSpace(s[0]) && !IsSpace(s[|s| - 1]))
  }

  lemma SpacedLineSplit()
    ensures SplitAtFirst("K = v", '=') == ("K ", Some(" v"))
  {
    SplitAtFirstGlued("K ", " v", '=');
    assert "K " + "=" + " v" == "K = v";
  }

  lemma SpacedLinePlain()
    ensures NoEdgeSpace("K = v") && "K = v" != "" && "K = v"[0] != '#'
  {
  }

  /** Spaces around `=` stay: `K = v` sets `K ` to ` v`. */
  lemma SpacesAroundEqualsKept()
    ensures LineEntry("K = v") == Some(("K ", " v"))
  {
    SpacedLineSplit();
    SpacedLinePlain();
    PlainLineEntry("K = v", "K ", " v");
    SpacedValueKept();
  }

  lemma SpacedValueKept()
    ensures StripQuotes(" v") == " v"
  {
  }

  /** Quotes are stripped independently: `"abc'` becomes `abc`. */
  lemma MismatchedQuotesStripped()
    ensures StripQuotes("\"abc'") == "abc"
  {
  }

  lemma QuotedLineSplit()
    ensures SplitAtFirst("URL=\"a=b\"", '=') == ("URL", Some("\"a=b\""))
  {
    SplitAtFirstGlued("URL", "\"a=b\"", '=');
    assert "URL" + "=" + "\"a=b\"" == "URL=\"a=b\"";
  }

  lemma QuotedLinePlain()
    ensures NoEdgeSpace("URL=\"a=b\"") && "URL=\"a=b\"" != "" && "URL=\"a=b\""[0] != '#'
  {
  }

  /** A value keeps its inner `=`: `URL="a=b"` sets `URL` to `a=b`. */
  lemma InnerEqualsKept()
    ensures LineEntry("URL=\"a=b\"") == Some(("URL", "a=b"))
  {
    QuotedLineSplit();
    QuotedLinePlain();
    PlainLineEntry("URL=\"a=b\"", "URL", "\"a=b\"");
    QuotedValueStripped();
  }

  lemma QuotedValueStripped()
    ensures StripQuotes("\"a=b\"") == "a=b"
  {
  }

  /** Comment lines and lines without a key set nothing. */
  lemma SkippedLines(rest: string)
    ensures LineEntry("#" + rest) == None
    ensures LineEntry("=" + rest) == None
  {
    CommentSkipped(rest);
    KeylessSkipped(rest);
  }

  lemma CommentSkipped(rest: string)
    ensures LineEntry("#" + rest) == None
  {
    TrimIdentityPrefix(rest, '#');
    LineEntryMeaning("#" + rest);
    var t := Trim("#" + rest);
    assert t[..1] == "#";
    assert StartsWith(t, "#");
  }

  lemma KeylessSkipped(rest: string)
    ensures LineEntry("=" + rest) == None
  {
    TrimIdentityPrefix(rest, '=');
    LineEntryMeaning("=" + rest);
    var t := Trim("=" + rest);
    assert SplitAtFirst(t, '=').0 == "";
  }

  /** Trimming keeps a leading character that is not white space. */
  lemma TrimIdentityPrefix(rest: string, c: char)
    requires !IsSpace(c)
    ensures Trim([c] + rest) != [] && Trim([c] + rest)[0] == c
  {
    var s := [c] + rest;
    assert TrimStart(s) == s;
    assert s[0] == c;
    TrimEndKeepsFirst(s);
  }

  lemma {:induction false} TrimEndKeepsFirst(s: string)
    requires s != [] && !IsSpace(s[0])
    ensures TrimEnd(s) != [] && TrimEnd(s)[0] == s[0]
    decreases |s|
  {
    if IsSpace(s[|s| - 1]) {
      TrimEndKeepsFirst(s[..|s| - 1]);
    }
  }
}
