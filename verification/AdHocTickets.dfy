/** A Ticket handed in as text (src/adhoc_ticket.rs): the default id's slug and the
    split of the text into a title and a body.

    Which characters are whitespace is a parameter `ws`. */
module AdHocTickets {
  import opened Options

  // ----- Slugs -----

  predicate IsAsciiAlphanumeric(c: char) {
    'a' <= c <= 'z' || 'A' <= c <= 'Z' || '0' <= c <= '9'
  }

  function ToAsciiLower(c: char): char {
    if 'A' <= c <= 'Z' then (c as int + 32) as char else c
  }

  function LowerAll(s: string): (r: string)
    ensures |r| == |s|
  {
    if s == "" then "" else [ToAsciiLower(s[0])] + LowerAll(s[1..])
  }

  predicate AllAlphanumeric(s: string) {
    forall i | 0 <= i < |s| :: IsAsciiAlphanumeric(s[i])
  }

  predicate NoneAlphanumeric(s: string) {
    forall i | 0 <= i < |s| :: !IsAsciiAlphanumeric(s[i])
  }

  /** The length of the alphanumeric run that opens `s`. */
  function RunLength(s: string): (n: nat)
    ensures n <= |s|
  {
    if s == "" || !IsAsciiAlphanumeric(s[0]) then 0 else 1 + RunLength(s[1..])
  }

  lemma {:induction false} RunLengthIsMaximal(s: string)
    ensures AllAlphanumeric(s[..RunLength(s)])
    ensures RunLength(s) < |s| ==> !IsAsciiAlphanumeric(s[RunLength(s)])
  {
    if s != "" && IsAsciiAlphanumeric(s[0]) {
      var n := RunLength(s);
      RunLengthIsMaximal(s[1..]);
      forall i | 0 <= i < n
        ensures IsAsciiAlphanumeric(s[..n][i])
      {
        assert i == 0 || s[..n][i] == s[1..][..n - 1][i - 1];
      }
    }
  }

  /** The maximal alphanumeric runs of `s`, in order. */
  function Runs(s: string): seq<string>
    decreases |s|
  {
    if s == "" then []
    else if RunLength(s) == 0 then Runs(s[1..])
    else [s[..RunLength(s)]] + Runs(s[RunLength(s)..])
  }

  /** The runs, lower-cased and joined by single hyphens. */
  function Hyphenated(runs: seq<string>): string {
    if runs == [] then ""
    else if |runs| == 1 then LowerAll(runs[0])
    else LowerAll(runs[0]) + "-" + Hyphenated(runs[1..])
  }

  /** The meaning of a slug. */
  function SlugOf(value: string): string {
    if Runs(value) == [] then "ticket" else Hyphenated(Runs(value))
  }

  /** What the one-pass loop still appends to `buffer` for the characters left. */
  function Pass(buffer: string, pending: bool, rest: string): string
    decreases |rest|
  {
    if rest == "" then buffer
    else if IsAsciiAlphanumeric(rest[0]) then
      var opening := if pending && buffer != "" then buffer + "-" else buffer;
      Pass(opening + [ToAsciiLower(rest[0])], false, rest[1..])
    else Pass(buffer, true, rest[1..])
  }

  lemma AlphanumericTail(s: string)
    requires s != "" && AllAlphanumeric(s)
    ensures AllAlphanumeric(s[1..])
  {
  }

  /** The loop copies the run it stands in, lower-cased. */
  lemma {:induction false} PassCopiesRun(buffer: string, rest: string, n: nat)
    requires n <= |rest| && AllAlphanumeric(rest[..n])
    ensures Pass(buffer, false, rest) == Pass(buffer + LowerAll(rest[..n]), false, rest[n..])
    decreases n
  {
    if n == 0 {
      assert buffer + LowerAll(rest[..0]) == buffer;
    } else {
      var c := ToAsciiLower(rest[0]);
      assert IsAsciiAlphanumeric(rest[..n][0]);
      assert rest[..n][1..] == rest[1..][..n - 1] && rest[1..][n - 1..] == rest[n..];
      AlphanumericTail(rest[..n]);
      PassCopiesRun(buffer + [c], rest[1..], n - 1);
      assert buffer + [c] + LowerAll(rest[1..][..n - 1]) == buffer + LowerAll(rest[..n]);
    }
  }

  /** Standing between runs, the loop appends every run left, each after a hyphen
      unless nothing was written yet. */
  lemma {:induction false} PassMeaning(buffer: string, pending: bool, rest: string)
    requires pending || buffer == "" || RunLength(rest) == 0
    ensures var runs := Runs(rest);
            Pass(buffer, pending, rest)
            == if runs == [] then buffer
               else if buffer == "" then Hyphenated(runs)
               else buffer + "-" + Hyphenated(runs)
    decreases |rest|
  {
    if rest != "" {
      var n := RunLength(rest);
      if n == 0 {
        PassMeaning(buffer, true, rest[1..]);
      } else {
        PassWritesRun(buffer, pending, rest);
        var written := (if buffer != "" then buffer + "-" else buffer) + LowerAll(rest[..n]);
        RunLengthIsMaximal(rest);
        PassMeaning(written, false, rest[n..]);
        HyphenatedFirst(rest[..n], Runs(rest[n..]));
        if Runs(rest[n..]) != [] {
          AppendAssociates(if buffer != "" then buffer + "-" else buffer, LowerAll(rest[..n]), Hyphenated(Runs(rest[n..])));
        }
      }
    }
  }

  lemma PassWritesRun(buffer: string, pending: bool, rest: string)
    requires RunLength(rest) > 0 && (pending || buffer == "")
    ensures var opening := if buffer != "" then buffer + "-" else buffer;
            Pass(buffer, pending, rest)
            == Pass(opening + LowerAll(rest[..RunLength(rest)]), false, rest[RunLength(rest)..])
  {
    var opening := if buffer != "" then buffer + "-" else buffer;
    assert Pass(buffer, pending, rest) == Pass(opening, false, rest);
    RunLengthIsMaximal(rest);
    PassCopiesRun(opening, rest, RunLength(rest));
  }

  lemma HyphenatedFirst(run: string, later: seq<string>)
    ensures Hyphenated([run] + later)
         == if later == [] then LowerAll(run) else LowerAll(run) + "-" + Hyphenated(later)
  {
    assert ([run] + later)[1..] == later;
  }

  lemma AppendAssociates(a: string, b: string, c: string)
    ensures a + b + "-" + c == a + (b + "-" + c)
  {
  }

  method Slug(value: string) returns (slug: string)
    ensures slug == SlugOf(value)
  {
    slug := "";
    var pendingSeparator := false;
    for i := 0 to |value|
      invariant Pass(slug, pendingSeparator, value[i..]) == Pass("", false, value)
      invariant slug == "" <==> NoneAlphanumeric(value[..i])
    {
      var character := value[i];
      assert value[i..][0] == character && value[i..][1..] == value[i + 1..];
      assert value[..i + 1] == value[..i] + [character];
      if IsAsciiAlphanumeric(character) {
        if pendingSeparator && slug != "" {
          slug := slug + "-";
        }
        pendingSeparator := false;
        slug := slug + [ToAsciiLower(character)];
        assert IsAsciiAlphanumeric(value[..i + 1][i]);
      } else {
        pendingSeparator := true;
      }
    }
    PassMeaning("", false, value);
    assert value[..|value|] == value;
    RunsEmptyIff(value);
    if slug == "" {
      slug := "ticket";
    }
  }

  lemma {:induction false} RunsEmptyIff(s: string)
    ensures Runs(s) == [] <==> NoneAlphanumeric(s)
    decreases |s|
  {
    if s != "" && RunLength(s) == 0 {
      assert !IsAsciiAlphanumeric(s[0]);
      RunsEmptyIff(s[1..]);
      assert forall i | 1 <= i < |s| :: s[i] == s[1..][i - 1];
    }
  }

  /** Runs do not cross a character that is not alphanumeric. */
  lemma {:induction false} RunsSplit(a: string, b: string)
    requires a == "" || b == "" || !IsAsciiAlphanumeric(a[|a| - 1]) || !IsAsciiAlphanumeric(b[0])
    ensures Runs(a + b) == Runs(a) + Runs(b)
    decreases |a|
  {
    if a == "" {
      assert a + b == b;
    } else if b == "" {
      assert a + b == a;
    } else {
      var n := RunLength(a);
      var step := if n == 0 then 1 else n;
      RunLengthSplit(a, b);
      assert (a + b)[..step] == a[..step] && (a + b)[step..] == a[step..] + b;
      assert step < |a| ==> a[step..][|a[step..]| - 1] == a[|a| - 1];
      RunsSplit(a[step..], b);
      RunsAssociate(a[..step], Runs(a[step..]), Runs(b));
    }
  }

  lemma RunsAssociate(run: string, later: seq<string>, more: seq<string>)
    ensures [run] + (later + more) == [run] + later + more
  {
  }

  lemma {:induction false} RunLengthSplit(a: string, b: string)
    requires a != "" && b != "" && (!IsAsciiAlphanumeric(a[|a| - 1]) || !IsAsciiAlphanumeric(b[0]))
    ensures RunLength(a + b) == RunLength(a)
  {
    assert (a + b)[1..] == a[1..] + b;
    if IsAsciiAlphanumeric(a[0]) {
      if |a| == 1 {
        assert a[1..] + b == b;
      } else {
        RunLengthSplit(a[1..], b);
      }
    }
  }

  lemma {:induction false} HyphenatedAppend(a: seq<string>, b: seq<string>)
    requires a != [] && b != []
    ensures Hyphenated(a + b) == Hyphenated(a) + "-" + Hyphenated(b)
  {
    assert (a + b)[1..] == a[1..] + b;
    if |a| == 1 {
      assert a[1..] + b == b;
    } else {
      HyphenatedAppend(a[1..], b);
      var head, tail := LowerAll(a[0]) + "-", Hyphenated(a[1..]);
      assert head + (tail + "-" + Hyphenated(b)) == (head + tail) + "-" + Hyphenated(b);
    }
  }

  /** A slug is taken piecewise wherever the text is separated. */
  lemma SlugOfSeparated(a: string, sep: string, b: string)
    requires !NoneAlphanumeric(a) && !NoneAlphanumeric(b) && sep != "" && NoneAlphanumeric(sep)
    ensures SlugOf(a + sep + b) == SlugOf(a) + "-" + SlugOf(b)
  {
    RunsEmptyIff(a);
    RunsEmptyIff(sep);
    RunsEmptyIff(b);
    RunsSplit(a, sep);
    RunsSplit(a + sep, b);
    assert Runs(a) + [] == Runs(a);
    HyphenatedAppend(Runs(a), Runs(b));
  }

  /** A lower-cased run is its own single run. */
  lemma {:induction false} RunOfRun(run: string)
    requires run != "" && AllAlphanumeric(run)
    ensures Runs(LowerAll(run)) == [LowerAll(run)]
    ensures LowerAll(LowerAll(run)) == LowerAll(run)
    ensures AllAlphanumeric(LowerAll(run))
  {
    var lower := LowerAll(run);
    LowerAllKeeps(run);
    RunLengthWhole(lower);
    assert lower[|lower|..] == "" && lower[..|lower|] == lower;
  }

  lemma {:induction false} LowerAllKeeps(run: string)
    requires AllAlphanumeric(run)
    ensures AllAlphanumeric(LowerAll(run)) && LowerAll(LowerAll(run)) == LowerAll(run)
  {
    if run != "" {
      LowerAllKeeps(run[1..]);
      assert LowerAll(run)[1..] == LowerAll(run[1..]);
      assert IsAsciiAlphanumeric(ToAsciiLower(run[0]));
      forall i | 0 <= i < |run|
        ensures IsAsciiAlphanumeric(LowerAll(run)[i])
      {
        assert i == 0 || LowerAll(run)[i] == LowerAll(run[1..])[i - 1];
      }
    }
  }

  lemma {:induction false} RunLengthWhole(s: string)
    requires AllAlphanumeric(s)
    ensures RunLength(s) == |s|
  {
    if s != "" {
      RunLengthWhole(s[1..]);
    }
  }

  predicate AreRuns(runs: seq<string>) {
    forall i | 0 <= i < |runs| :: runs[i] != "" && AllAlphanumeric(runs[i])
  }

  lemma {:induction false} RunsAreRuns(s: string)
    ensures AreRuns(Runs(s))
    decreases |s|
  {
    if s != "" {
      var n := RunLength(s);
      if n == 0 {
        RunsAreRuns(s[1..]);
      } else {
        RunLengthIsMaximal(s);
        RunsAreRuns(s[n..]);
      }
    }
  }

  lemma {:induction false} HyphenatedIsFixed(runs: seq<string>)
    requires AreRuns(runs)
    ensures Hyphenated(Runs(Hyphenated(runs))) == Hyphenated(runs)
    ensures runs != [] ==> Runs(Hyphenated(runs)) != []
  {
    if |runs| == 1 {
      RunOfRun(runs[0]);
    } else if |runs| > 1 {
      var first, rest := LowerAll(runs[0]), Hyphenated(runs[1..]);
      RunOfRun(runs[0]);
      HyphenatedIsFixed(runs[1..]);
      RunsSplit(first, "-");
      RunsSplit(first + "-", rest);
      assert Runs("-") == Runs("-"[1..]) == [];
      assert [first] + [] == [first];
      assert Hyphenated([first]) == first;
      HyphenatedAppend([first], Runs(rest));
    }
  }

  /** Slugging a slug changes nothing. */
  lemma SlugIsIdempotent(value: string)
    ensures SlugOf(SlugOf(value)) == SlugOf(value)
  {
    if Runs(value) == [] {
      assert AllAlphanumeric("ticket");
      RunOfRun("ticket");
      assert LowerAll("ticket") == "ticket" by {
        assert "ticket"[1..] == "icket" && "icket"[1..] == "cket" && "cket"[1..] == "ket";
        assert "ket"[1..] == "et" && "et"[1..] == "t" && "t"[1..] == "";
      }
    } else {
      RunsAreRuns(value);
      HyphenatedIsFixed(Runs(value));
    }
  }

  predicate IsSlugChar(c: char) {
    c == '-' || 'a' <= c <= 'z' || '0' <= c <= '9'
  }

  predicate AllSlugChars(s: string) {
    forall i | 0 <= i < |s| :: IsSlugChar(s[i])
  }

  lemma {:induction false} HyphenatedSlugChars(runs: seq<string>)
    requires AreRuns(runs)
    ensures AllSlugChars(Hyphenated(runs)) && (runs != [] ==> Hyphenated(runs) != "")
  {
    if runs != [] {
      LowerSlugChars(runs[0]);
      HyphenatedSlugChars(runs[1..]);
    }
  }

  lemma {:induction false} LowerSlugChars(run: string)
    requires AllAlphanumeric(run)
    ensures AllSlugChars(LowerAll(run))
  {
    if run != "" {
      LowerSlugChars(run[1..]);
    }
  }

  /** A slug is never empty and holds only lower-case letters, digits and hyphens. */
  lemma SlugIsSafe(value: string)
    ensures SlugOf(value) != "" && AllSlugChars(SlugOf(value))
  {
    RunsAreRuns(value);
    HyphenatedSlugChars(Runs(value));
  }

  // ----- Title and body -----

  type Whitespace = char -> bool

  /** What the split needs of a whitespace table. */
  predicate Plausible(ws: Whitespace) {
    ws(' ') && ws('\n') && ws('\r') && !ws('#')
  }

  function TrimStart(ws: Whitespace, s: string): string {
    if s != "" && ws(s[0]) then TrimStart(ws, s[1..]) else s
  }

  function TrimEnd(ws: Whitespace, s: string): string {
    if s != "" && ws(s[|s| - 1]) then TrimEnd(ws, s[..|s| - 1]) else s
  }

  function Trim(ws: Whitespace, s: string): string {
    TrimEnd(ws, TrimStart(ws, s))
  }

  predicate Blank(ws: Whitespace, s: string) {
    forall i | 0 <= i < |s| :: ws(s[i])
  }

  predicate Trimmed(ws: Whitespace, s: string) {
    s == "" || (!ws(s[0]) && !ws(s[|s| - 1]))
  }

  /** The position of the first newline, or the length. */
  function LineEnd(s: string): (n: nat)
    ensures n <= |s| && (n < |s| ==> s[n] == '\n')
    ensures forall i | 0 <= i < n :: s[i] != '\n'
  {
    if s == "" || s[0] == '\n' then 0 else 1 + LineEnd(s[1..])
  }

  /** A line without the carriage return of a two-character line ending. */
  function WithoutReturn(line: string, terminated: bool): string {
    if terminated && line != "" && line[|line| - 1] == '\r' then line[..|line| - 1] else line
  }

  /** The first line that is not blank, or the empty string. */
  function FirstLine(ws: Whitespace, s: string): string
    decreases |s|
  {
    var end := LineEnd(s);
    var line := WithoutReturn(s[..end], end < |s|);
    if Trim(ws, line) != "" then line
    else if end < |s| then FirstLine(ws, s[end + 1..])
    else ""
  }

  function SplitTitleAndBody(ws: Whitespace, content: string): (string, string) {
    var leading := TrimStart(ws, content);
    if "# " <= leading then
      var rest := leading[2..];
      var end := LineEnd(rest);
      if end < |rest| then (Trim(ws, rest[..end]), Trim(ws, rest[end + 1..]))
      else (Trim(ws, rest), "")
    else (Trim(ws, FirstLine(ws, leading)), Trim(ws, content))
  }

  lemma {:induction false} TrimOfPadded(ws: Whitespace, pad: string, s: string)
    requires Blank(ws, pad) && Trimmed(ws, s)
    ensures Trim(ws, pad + s) == s
  {
    if pad == "" {
      assert pad + s == s;
    } else {
      assert ws(pad[0]) && (pad + s)[0] == pad[0] && (pad + s)[1..] == pad[1..] + s;
      TrimOfPadded(ws, pad[1..], s);
    }
  }

  /** Splitting a heading, a blank line and a body gives the two back. */
  lemma HeadingRoundTrip(ws: Whitespace, title: string, body: string)
    requires Plausible(ws)
    requires title != "" && Trimmed(ws, title) && '\n' !in title
    requires Trimmed(ws, body)
    ensures SplitTitleAndBody(ws, "# " + title + "\n\n" + body) == (title, body)
  {
    var content := "# " + title + "\n\n" + body;
    var rest := content[2..];
    assert content[0] == '#' && "# " <= content;
    assert TrimStart(ws, content) == content;
    RestOfHeading(ws, title, body, rest);
  }

  lemma RestOfHeading(ws: Whitespace, title: string, body: string, rest: string)
    requires ws('\n') && Trimmed(ws, title) && '\n' !in title && Trimmed(ws, body)
    requires rest == title + "\n\n" + body
    ensures LineEnd(rest) == |title| < |rest|
    ensures Trim(ws, rest[..|title|]) == title && Trim(ws, rest[|title| + 1..]) == body
  {
    hide Trim, Trimmed, LineEnd;
    assert rest == title + ("\n\n" + body);
    LineEndAt(title, "\n\n" + body);
    TrimOfPadded(ws, "", title);
    TrimOfPadded(ws, "\n", body);
    HalvesOf(title, body, rest);
  }

  lemma HalvesOf(title: string, body: string, rest: string)
    requires rest == title + "\n\n" + body
    ensures rest[..|title|] == "" + title && rest[|title| + 1..] == "\n" + body
  {
  }

  lemma {:induction false} LineEndAt(line: string, rest: string)
    requires '\n' !in line && rest != "" && rest[0] == '\n'
    ensures LineEnd(line + rest) == |line|
  {
    if line == "" {
      assert line + rest == rest;
    } else {
      assert line[0] in line && (line + rest)[1..] == line[1..] + rest;
      LineEndAt(line[1..], rest);
    }
  }

  lemma {:induction false} TrimEmptyIffBlank(ws: Whitespace, s: string)
    ensures Trim(ws, s) == "" <==> Blank(ws, s)
  {
    if s != "" && ws(s[0]) {
      TrimEmptyIffBlank(ws, s[1..]);
      assert forall i | 1 <= i < |s| :: s[i] == s[1..][i - 1];
    } else if s != "" {
      TrimEndKeepsHead(ws, s);
    }
  }

  lemma {:induction false} TrimEndKeepsHead(ws: Whitespace, s: string)
    requires s != "" && !ws(s[0])
    ensures TrimEnd(ws, s) != "" && TrimEnd(ws, s)[0] == s[0]
  {
    if ws(s[|s| - 1]) {
      TrimEndKeepsHead(ws, s[..|s| - 1]);
    }
  }

  lemma {:induction false} TrimStartMeaning(ws: Whitespace, s: string)
    ensures Blank(ws, TrimStart(ws, s)) <==> Blank(ws, s)
    ensures var t := TrimStart(ws, s); t == "" || !ws(t[0])
  {
    if s != "" && ws(s[0]) {
      TrimStartMeaning(ws, s[1..]);
      assert forall i | 1 <= i < |s| :: s[i] == s[1..][i - 1];
    }
  }

  lemma {:induction false} FirstLineBlankIff(ws: Whitespace, s: string)
    requires Plausible(ws)
    ensures Trim(ws, FirstLine(ws, s)) == "" <==> Blank(ws, s)
    decreases |s|
  {
    var end := LineEnd(s);
    var line := WithoutReturn(s[..end], end < |s|);
    hide Trim, Blank, WithoutReturn, LineEnd;
    TrimEmptyIffBlank(ws, line);
    TrimEmptyIffBlank(ws, "");
    BlankWithoutReturn(ws, s[..end], end < |s|);
    assert s == s[..end] + s[end..];
    BlankSplit(ws, s[..end], s[end..]);
    assert FirstLine(ws, s)
        == if Trim(ws, line) != "" then line else if end < |s| then FirstLine(ws, s[end + 1..]) else "";
    hide FirstLine;
    if end < |s| {
      FirstLineBlankIff(ws, s[end + 1..]);
      NewlineIsBlank(ws, s, end);
    }
  }

  lemma NewlineIsBlank(ws: Whitespace, s: string, end: nat)
    requires end < |s| && ws(s[end])
    ensures Blank(ws, s[end..]) <==> Blank(ws, s[end + 1..])
  {
    assert s[end..] == [s[end]] + s[end + 1..];
    BlankSplit(ws, [s[end]], s[end + 1..]);
  }

  lemma BlankWithoutReturn(ws: Whitespace, line: string, terminated: bool)
    requires Plausible(ws)
    ensures Blank(ws, WithoutReturn(line, terminated)) <==> Blank(ws, line)
  {
    var short := WithoutReturn(line, terminated);
    if short != line {
      assert line == short + ['\r'];
      BlankSplit(ws, short, ['\r']);
    }
  }

  lemma BlankSplit(ws: Whitespace, a: string, b: string)
    ensures Blank(ws, a + b) <==> Blank(ws, a) && Blank(ws, b)
  {
    if Blank(ws, a + b) {
      assert forall i | 0 <= i < |a| :: a[i] == (a + b)[i];
      assert forall i | 0 <= i < |b| :: b[i] == (a + b)[|a| + i];
    }
  }

  /** The text is refused as empty exactly when it is blank, or opens with a
      heading whose own line is blank, whatever follows that line. */
  lemma TitleIsEmptyIff(ws: Whitespace, content: string)
    requires Plausible(ws)
    ensures var leading := TrimStart(ws, content);
            SplitTitleAndBody(ws, content).0 == "" <==>
            Blank(ws, content) || ("# " <= leading && Blank(ws, leading[2..][..LineEnd(leading[2..])]))
  {
    var leading := TrimStart(ws, content);
    TrimStartMeaning(ws, content);
    if "# " <= leading {
      var rest := leading[2..];
      TrimEmptyIffBlank(ws, rest[..LineEnd(rest)]);
      assert rest[..|rest|] == rest;
      assert !ws(leading[0]) && !Blank(ws, leading);
    } else {
      FirstLineBlankIff(ws, leading);
    }
  }

  // ----- Parsing -----

  datatype TicketError = EmptyText | BadId(id: string)

  datatype AdHocTicket = AdHocTicket(id: string, title: string, body: string)

  const ID_WORDS: nat := 6
  const ID_PREFIX := "ad-hoc--"

  /** The length of the word that opens `s`. */
  function WordLength(ws: Whitespace, s: string): (n: nat)
    ensures n <= |s| && (s != "" && !ws(s[0]) ==> n > 0)
  {
    if s == "" || ws(s[0]) then 0 else 1 + WordLength(ws, s[1..])
  }

  /** The first `count` whitespace-separated words, joined by single spaces. */
  function FirstWords(ws: Whitespace, value: string, count: nat): string
    decreases |value|
  {
    if value == "" || count == 0 then ""
    else if ws(value[0]) then FirstWords(ws, value[1..], count)
    else
      var n := WordLength(ws, value);
      var more := FirstWords(ws, value[n..], count - 1);
      value[..n] + (if more == "" then "" else " " + more)
  }

  /** `valid` is the identifier contract: a single, non-empty filename component. */
  function Parse(
    ws: Whitespace, valid: string -> bool, content: string, defaultSlug: Option<string>, id: Option<string>
  ): Result<AdHocTicket, TicketError> {
    var (title, body) := SplitTitleAndBody(ws, content);
    if title == "" then Err(EmptyText)
    else
      var chosen :=
        if id.Some? then id.value
        else if defaultSlug.Some? then ID_PREFIX + defaultSlug.value
        else ID_PREFIX + SlugOf(FirstWords(ws, title, ID_WORDS));
      if valid(chosen) then Ok(AdHocTicket(chosen, title, body)) else Err(BadId(chosen))
  }

  /** With no `--id`, a Ticket read from text is refused only when its title is
      empty: the derived id is always a name of letters, digits and hyphens that
      starts as every derived id does. */
  lemma DerivedIdIsAccepted(ws: Whitespace, valid: string -> bool, content: string)
    requires forall id | id != "" && AllSlugChars(id) :: valid(id)
    ensures var parsed := Parse(ws, valid, content, None, None);
            && (parsed.Err? <==> SplitTitleAndBody(ws, content).0 == "")
            && (parsed.Ok? ==> ID_PREFIX <= parsed.value.id && AllSlugChars(parsed.value.id))
  {
    var words := FirstWords(ws, SplitTitleAndBody(ws, content).0, ID_WORDS);
    SlugIsSafe(words);
    assert AllSlugChars(ID_PREFIX);
    assert AllSlugChars(ID_PREFIX + SlugOf(words));
  }

  /** A well-formed heading, an explicit id and nothing else decide the Ticket. */
  lemma ParseRoundTrip(ws: Whitespace, valid: string -> bool, ticket: AdHocTicket)
    requires Plausible(ws) && valid(ticket.id)
    requires ticket.title != "" && Trimmed(ws, ticket.title) && '\n' !in ticket.title
    requires Trimmed(ws, ticket.body)
    ensures Parse(ws, valid, "# " + ticket.title + "\n\n" + ticket.body, None, Some(ticket.id)) == Ok(ticket)
  {
    HeadingRoundTrip(ws, ticket.title, ticket.body);
  }

  // ----- What is read where there is no heading, and which identifier -----

  /** Trimming leaves the middle of a text, without white space at either end. */
  lemma TrimMeaning(ws: Whitespace, s: string) returns (before: string, after: string)
    ensures s == before + Trim(ws, s) + after && Blank(ws, before) && Blank(ws, after)
    ensures Trimmed(ws, Trim(ws, s))
  {
    before := TrimStartCuts(ws, s);
    TrimStartMeaning(ws, s);
    after := TrimEndCuts(ws, TrimStart(ws, s));
    if TrimStart(ws, s) != "" {
      TrimEndKeepsHead(ws, TrimStart(ws, s));
    }
    hide TrimStart, TrimEnd;
  }

  lemma {:induction false} TrimStartCuts(ws: Whitespace, s: string) returns (before: string)
    ensures s == before + TrimStart(ws, s) && Blank(ws, before)
  {
    if s != "" && ws(s[0]) {
      var more := TrimStartCuts(ws, s[1..]);
      before := [s[0]] + more;
      assert s == [s[0]] + s[1..];
    } else {
      before := "";
    }
  }

  lemma {:induction false} TrimEndCuts(ws: Whitespace, s: string) returns (after: string)
    ensures s == TrimEnd(ws, s) + after && Blank(ws, after)
    ensures TrimEnd(ws, s) == "" || !ws(TrimEnd(ws, s)[|TrimEnd(ws, s)| - 1])
  {
    if s != "" && ws(s[|s| - 1]) {
      var front := s[..|s| - 1];
      var more := TrimEndCuts(ws, front);
      after := more + [s[|s| - 1]];
      assert s == front + [s[|s| - 1]];
    } else {
      after := "";
    }
  }

  /** The lines of a text: cut at newlines, a return before one left out. */
  function LinesIn(s: string): seq<string>
    decreases |s|
  {
    var end := LineEnd(s);
    if end == |s| then [s] else [WithoutReturn(s[..end], true)] + LinesIn(s[end + 1..])
  }

  /** Line `i` is `line`, and the first that is not blank. */
  predicate FirstUnblank(ws: Whitespace, lines: seq<string>, i: nat, line: string) {
    i < |lines| && lines[i] == line && !Blank(ws, line) && forall j | 0 <= j < i :: Blank(ws, lines[j])
  }

  /** The first line that is not blank, or no text. */
  lemma {:induction false} FirstLineMeaning(ws: Whitespace, s: string) returns (at: nat)
    ensures at <= |LinesIn(s)|
    ensures at < |LinesIn(s)| ==> FirstUnblank(ws, LinesIn(s), at, FirstLine(ws, s))
    ensures at == |LinesIn(s)| ==> FirstLine(ws, s) == "" && forall i | 0 <= i < |LinesIn(s)| :: Blank(ws, LinesIn(s)[i])
    decreases |s|
  {
    var end := LineEnd(s);
    var line := WithoutReturn(s[..end], end < |s|);
    TrimEmptyIffBlank(ws, line);
    assert s[..|s|] == s;
    assert LinesIn(s)[0] == line;
    if Trim(ws, line) != "" {
      at := 0;
    } else if end < |s| {
      var later := FirstLineMeaning(ws, s[end + 1..]);
      assert LinesIn(s) == [line] + LinesIn(s[end + 1..]);
      at := later + 1;
    } else {
      at := 1;
    }
  }

  /** Without a heading the whole text is the body, and its first line that is not blank,
      trimmed, is the title too. */
  lemma HeadlessMeaning(ws: Whitespace, content: string)
    requires !("# " <= TrimStart(ws, content))
    ensures SplitTitleAndBody(ws, content) == (Trim(ws, FirstLine(ws, TrimStart(ws, content))), Trim(ws, content))
    ensures SplitTitleAndBody(ws, content).1 == "" <==> Blank(ws, content)
  {
    TrimEmptyIffBlank(ws, content);
  }

  /** A value with no letter or digit still has a slug. */
  lemma SlugOfNothing(value: string)
    requires NoneAlphanumeric(value)
    ensures SlugOf(value) == "ticket"
  {
    RunsEmptyIff(value);
  }

  /** The words of a text: its maximal stretches without white space. */
  function Words(ws: Whitespace, s: string): seq<string>
    decreases |s|
  {
    if s == "" then []
    else if ws(s[0]) then Words(ws, s[1..])
    else [s[..WordLength(ws, s)]] + Words(ws, s[WordLength(ws, s)..])
  }

  function Spaced(words: seq<string>): string {
    if words == [] then ""
    else if |words| == 1 then words[0]
    else words[0] + " " + Spaced(words[1..])
  }

  function Take(words: seq<string>, count: nat): seq<string> {
    if |words| <= count then words else words[..count]
  }

  lemma {:induction false} WordsAreWords(ws: Whitespace, s: string)
    ensures forall i | 0 <= i < |Words(ws, s)| ::
      Words(ws, s)[i] != "" && forall k | 0 <= k < |Words(ws, s)[i]| :: !ws(Words(ws, s)[i][k])
    decreases |s|
  {
    if s != "" {
      if ws(s[0]) {
        WordsAreWords(ws, s[1..]);
      } else {
        WordHasNoSpace(ws, s);
        WordsAreWords(ws, s[WordLength(ws, s)..]);
      }
    }
  }

  lemma {:induction false} WordHasNoSpace(ws: Whitespace, s: string)
    ensures forall k | 0 <= k < WordLength(ws, s) :: !ws(s[k])
    ensures WordLength(ws, s) < |s| ==> ws(s[WordLength(ws, s)])
  {
    if s != "" && !ws(s[0]) {
      WordHasNoSpace(ws, s[1..]);
    }
  }

  /** The first words are the words, no more than asked for, with single spaces between. */
  lemma {:induction false} FirstWordsMeaning(ws: Whitespace, value: string, count: nat)
    ensures FirstWords(ws, value, count) == Spaced(Take(Words(ws, value), count))
    decreases |value|
  {
    if value != "" && count > 0 {
      if ws(value[0]) {
        FirstWordsMeaning(ws, value[1..], count);
      } else {
        var n := WordLength(ws, value);
        var first, rest := value[..n], value[n..];
        FirstWordsMeaning(ws, rest, count - 1);
        var more := Take(Words(ws, rest), count - 1);
        assert Take(Words(ws, value), count) == [first] + more;
        assert ([first] + more)[1..] == more;
        WordsAreWords(ws, rest);
        SpacedIsEmptyIff(more);
      }
    }
  }

  lemma SpacedIsEmptyIff(words: seq<string>)
    requires forall i | 0 <= i < |words| :: words[i] != ""
    ensures Spaced(words) == "" <==> words == []
  {
  }

  /** A Ticket's identifier: the one given, else one made from the file's name, else one
      made from the first six words of its title. */
  lemma IdMeaning(
    ws: Whitespace, valid: string -> bool, content: string, defaultSlug: Option<string>, id: Option<string>)
    ensures var (title, body) := SplitTitleAndBody(ws, content);
            var chosen := match id
              case Some(given) => given
              case None => "ad-hoc--" + match defaultSlug
                case Some(slug) => slug
                case None => SlugOf(Spaced(Take(Words(ws, title), 6)));
      Parse(ws, valid, content, defaultSlug, id)
      == if title == "" then Err(EmptyText) else if valid(chosen) then Ok(AdHocTicket(chosen, title, body)) else Err(BadId(chosen))
  {
    FirstWordsMeaning(ws, SplitTitleAndBody(ws, content).0, 6);
    hide SplitTitleAndBody, FirstWords, SlugOf;
  }
}
