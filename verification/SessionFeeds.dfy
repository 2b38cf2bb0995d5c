/** The incremental session feed of `logs` (src/cli.rs): what each pass over a page
    of messages still has to print. */
module SessionFeeds {

  /** One message of a page, with its activity rendered as lines. */
  datatype Message = Message(id: string, lines: seq<string>)

  /** A line printed, with the message it belongs to. */
  datatype Printed = Printed(id: string, line: string)

  type Seen = map<string, seq<string>>

  function LinesSeen(seen: Seen, id: string): seq<string> {
    if id in seen then seen[id] else []
  }

  /** The lines of `rendered` from `at` on that are not what was printed there. */
  function NewLines(previous: seq<string>, rendered: seq<string>, at: nat): seq<string>
    requires at <= |rendered|
    decreases |rendered| - at
  {
    if at == |rendered| then []
    else
      (if at < |previous| && previous[at] == rendered[at] then [] else [rendered[at]])
      + NewLines(previous, rendered, at + 1)
  }

  function Tagged(id: string, lines: seq<string>): seq<Printed> {
    seq(|lines|, i requires 0 <= i < |lines| => Printed(id, lines[i]))
  }

  function Texts(printed: seq<Printed>): seq<string> {
    seq(|printed|, i requires 0 <= i < |printed| => printed[i].line)
  }

  /** What a stretch of messages prints, and what has been seen after it. */
  function Print(seen: Seen, messages: seq<Message>): seq<Printed>
    decreases |messages|
  {
    if messages == [] then []
    else
      var m := messages[0];
      Tagged(m.id, NewLines(LinesSeen(seen, m.id), m.lines, 0)) + Print(seen[m.id := m.lines], messages[1..])
  }

  function After(seen: Seen, messages: seq<Message>): Seen
    decreases |messages|
  {
    if messages == [] then seen else After(seen[messages[0].id := messages[0].lines], messages[1..])
  }

  class SessionFeed {
    var seen: Seen

    constructor ()
      ensures seen == map[]
    {
      seen := map[];
    }

    method Fresh(messages: seq<Message>) returns (unseen: seq<string>)
      modifies this
      ensures seen == After(old(seen), messages)
      ensures unseen == Texts(Print(old(seen), messages))
    {
      unseen := [];
      ghost var printed: seq<Printed> := [];
      for i := 0 to |messages|
        invariant unseen == Texts(printed)
        invariant printed + Print(seen, messages[i..]) == Print(old(seen), messages)
        invariant After(seen, messages[i..]) == After(old(seen), messages)
      {
        var message := messages[i];
        assert messages[i..][0] == message && messages[i..][1..] == messages[i + 1..];
        var previous := LinesSeen(seen, message.id);
        var news := FreshLines(previous, message.lines);
        ghost var more := Tagged(message.id, news);
        assert printed + (more + Print(seen[message.id := message.lines], messages[i + 1..]))
            == printed + more + Print(seen[message.id := message.lines], messages[i + 1..]);
        unseen := unseen + news;
        printed := printed + more;
        seen := seen[message.id := message.lines];
      }
    }
  }

  method FreshLines(previous: seq<string>, rendered: seq<string>) returns (lines: seq<string>)
    ensures lines == NewLines(previous, rendered, 0)
  {
    lines := [];
    for index := 0 to |rendered|
      invariant lines + NewLines(previous, rendered, index) == NewLines(previous, rendered, 0)
    {
      assert [] + NewLines(previous, rendered, index + 1) == NewLines(previous, rendered, index + 1);
      var line := rendered[index];
      assert lines + ([line] + NewLines(previous, rendered, index + 1))
          == lines + [line] + NewLines(previous, rendered, index + 1);
      if !(index < |previous| && previous[index] == rendered[index]) {
        lines := lines + [rendered[index]];
      }
    }
  }

  // ----- Printed exactly once -----

  /** The pages of a session, one after the other. */
  function Flatten(pages: seq<seq<Message>>): seq<Message> {
    if pages == [] then [] else pages[0] + Flatten(pages[1..])
  }

  /** The output of reading the pages one pass at a time. */
  function PrintPages(seen: Seen, pages: seq<seq<Message>>): seq<Printed>
    decreases |pages|
  {
    if pages == [] then [] else Print(seen, pages[0]) + PrintPages(After(seen, pages[0]), pages[1..])
  }

  lemma {:induction false} PrintAppend(seen: Seen, a: seq<Message>, b: seq<Message>)
    ensures Print(seen, a + b) == Print(seen, a) + Print(After(seen, a), b)
    ensures After(seen, a + b) == After(After(seen, a), b)
    decreases |a|
  {
    if a == [] {
      assert a + b == b;
    } else {
      assert (a + b)[1..] == a[1..] + b;
      PrintAppend(seen[a[0].id := a[0].lines], a[1..], b);
    }
  }

  lemma {:induction false} PassesAreOneStretch(seen: Seen, pages: seq<seq<Message>>)
    ensures PrintPages(seen, pages) == Print(seen, Flatten(pages))
    decreases |pages|
  {
    if pages != [] {
      PassesAreOneStretch(After(seen, pages[0]), pages[1..]);
      PrintAppend(seen, pages[0], Flatten(pages[1..]));
    }
  }

  /** The position in the page of the message each printed line belongs to. */
  function Origins(seen: Seen, messages: seq<Message>, base: nat): seq<nat>
    decreases |messages|
  {
    if messages == [] then []
    else
      var m := messages[0];
      seq(|Tagged(m.id, NewLines(LinesSeen(seen, m.id), m.lines, 0))|, _ => base)
      + Origins(seen[m.id := m.lines], messages[1..], base + 1)
  }

  /** One reading prints in message order. */
  lemma {:induction false} PrintsInMessageOrder(seen: Seen, messages: seq<Message>, base: nat)
    ensures var printed, origins := Print(seen, messages), Origins(seen, messages, base);
      && |origins| == |printed|
      && (forall i | 0 <= i < |printed| ::
            base <= origins[i] < base + |messages| && printed[i].id == messages[origins[i] - base].id)
      && (forall i, j | 0 <= i < j < |printed| :: origins[i] <= origins[j])
    decreases |messages|
  {
    if messages != [] {
      var m := messages[0];
      var next, front := seen[m.id := m.lines], Tagged(m.id, NewLines(LinesSeen(seen, m.id), m.lines, 0));
      PrintsInMessageOrder(next, messages[1..], base + 1);
      var printed, origins := Print(seen, messages), Origins(seen, messages, base);
      var later, tail := Print(next, messages[1..]), Origins(next, messages[1..], base + 1);
      assert printed == front + later;
      assert origins == seq(|front|, _ => base) + tail;
      hide NewLines, Print, Origins;
      OriginsJoin(messages, base, front, later, tail);
    }
  }

  lemma OriginsJoin(messages: seq<Message>, base: nat, front: seq<Printed>, later: seq<Printed>, tail: seq<nat>)
    requires messages != [] && |tail| == |later|
    requires forall i | 0 <= i < |front| :: front[i].id == messages[0].id
    requires forall i | 0 <= i < |later| ::
      base + 1 <= tail[i] < base + |messages| && later[i].id == messages[1..][tail[i] - base - 1].id
    requires forall i, j | 0 <= i < j < |later| :: tail[i] <= tail[j]
    ensures var printed, origins := front + later, seq(|front|, _ => base) + tail;
      && |origins| == |printed|
      && (forall i | 0 <= i < |printed| ::
            base <= origins[i] < base + |messages| && printed[i].id == messages[origins[i] - base].id)
      && (forall i, j | 0 <= i < j < |printed| :: origins[i] <= origins[j])
  {
  }

  /** Every message only ever extends what was last seen of it. */
  predicate OnlyExtends(seen: Seen, messages: seq<Message>)
    decreases |messages|
  {
    messages == []
    || (LinesSeen(seen, messages[0].id) <= messages[0].lines
        && OnlyExtends(seen[messages[0].id := messages[0].lines], messages[1..]))
  }

  /** The lines printed for one message, in order. */
  function LinesOf(printed: seq<Printed>, id: string): seq<string> {
    if printed == [] then []
    else (if printed[0].id == id then [printed[0].line] else []) + LinesOf(printed[1..], id)
  }

  lemma {:induction false} LinesOfAppend(a: seq<Printed>, b: seq<Printed>, id: string)
    ensures LinesOf(a + b, id) == LinesOf(a, id) + LinesOf(b, id)
  {
    if a == [] {
      assert a + b == b;
    } else {
      assert (a + b)[1..] == a[1..] + b;
      LinesOfAppend(a[1..], b, id);
    }
  }

  lemma {:induction false} LinesOfTagged(id: string, lines: seq<string>, other: string)
    ensures LinesOf(Tagged(id, lines), other) == if id == other then lines else []
  {
    if lines != [] {
      assert Tagged(id, lines)[1..] == Tagged(id, lines[1..]);
      LinesOfTagged(id, lines[1..], other);
    }
  }

  lemma {:induction false} ExtensionIsNew(previous: seq<string>, rendered: seq<string>, at: nat)
    requires previous <= rendered && at <= |rendered|
    ensures NewLines(previous, rendered, at) == rendered[if at <= |previous| then |previous| else at..]
    decreases |rendered| - at
  {
    if at < |rendered| {
      ExtensionIsNew(previous, rendered, at + 1);
    }
  }

  lemma {:induction false} PrintedOnceFrom(seen: Seen, messages: seq<Message>, id: string)
    requires OnlyExtends(seen, messages)
    ensures LinesSeen(seen, id) + LinesOf(Print(seen, messages), id) == LinesSeen(After(seen, messages), id)
    decreases |messages|
  {
    if messages != [] {
      var m := messages[0];
      var next := seen[m.id := m.lines];
      var news := NewLines(LinesSeen(seen, m.id), m.lines, 0);
      var rest := Print(next, messages[1..]);
      PrintedOnceFrom(next, messages[1..], id);
      assert Print(seen, messages) == Tagged(m.id, news) + rest;
      assert After(seen, messages) == After(next, messages[1..]);
      hide NewLines, LinesOf, Tagged, OnlyExtends, Print, After;
      ExtensionIsNew(LinesSeen(seen, m.id), m.lines, 0);
      LinesOfAppend(Tagged(m.id, news), rest, id);
      LinesOfTagged(m.id, news, id);
      ExtendsThenMore(LinesSeen(seen, m.id), m.lines, LinesOf(rest, id));
    }
  }

  lemma ExtendsThenMore(earlier: seq<string>, lines: seq<string>, more: seq<string>)
    requires earlier <= lines
    ensures earlier + (lines[|earlier|..] + more) == lines + more
    ensures [] + more == more
  {
  }

  /** The lines a message last showed. */
  function FinalLines(messages: seq<Message>, id: string): seq<string> {
    if messages == [] then []
    else if messages[|messages| - 1].id == id then messages[|messages| - 1].lines
    else FinalLines(messages[..|messages| - 1], id)
  }

  predicate Shows(messages: seq<Message>, id: string) {
    exists i | 0 <= i < |messages| :: messages[i].id == id
  }

  /** What is remembered of a message is what it last showed. */
  lemma {:induction false} AfterMeaning(seen: Seen, messages: seq<Message>, id: string)
    ensures id in After(seen, messages) <==> id in seen || Shows(messages, id)
    ensures LinesSeen(After(seen, messages), id)
         == if Shows(messages, id) then FinalLines(messages, id) else LinesSeen(seen, id)
    ensures !Shows(messages, id) ==> FinalLines(messages, id) == []
  {
    if messages != [] {
      var front, last := messages[..|messages| - 1], messages[|messages| - 1];
      assert messages == front + [last];
      PrintAppend(seen, front, [last]);
      assert [last][1..] == [];
      AfterMeaning(seen, front, id);
      assert Shows(messages, id) <==> Shows(front, id) || last.id == id;
    }
  }

  /** If messages only extend, then over all passes each message's lines are printed
      exactly once and in order, making up its final text, however its snapshots are
      split into pages and even when it leaves a page and comes back. */
  lemma PrintedOnce(pages: seq<seq<Message>>, id: string)
    requires OnlyExtends(map[], Flatten(pages))
    ensures LinesOf(PrintPages(map[], pages), id) == FinalLines(Flatten(pages), id)
  {
    PassesAreOneStretch(map[], pages);
    PrintedOnceFrom(map[], Flatten(pages), id);
    AfterMeaning(map[], Flatten(pages), id);
    assert LinesSeen(map[], id) == [];
  }

  /** A snapshot prints at least the lines it has more than the one before it, and no
      more than those exactly when it extends it. */
  lemma {:induction false} PrintsAtLeast(previous: seq<string>, rendered: seq<string>, at: nat)
    requires at <= |rendered|
    ensures |NewLines(previous, rendered, at)| >= |rendered| - (if at <= |previous| then |previous| else at)
    ensures at <= |previous| && |NewLines(previous, rendered, at)| == |rendered| - |previous|
            ==> |previous| <= |rendered| && previous[at..] == rendered[at..|previous|]
    decreases |rendered| - at
  {
    if at < |rendered| {
      PrintsAtLeast(previous, rendered, at + 1);
      if at < |previous| {
        assert previous[at..] == [previous[at]] + previous[at + 1..];
        if |previous| <= |rendered| {
          assert rendered[at..|previous|] == [rendered[at]] + rendered[at + 1..|previous|];
        }
      }
    }
  }

  lemma {:induction false} PrintedAtLeast(seen: Seen, messages: seq<Message>, id: string)
    ensures |LinesOf(Print(seen, messages), id)| >= |LinesSeen(After(seen, messages), id)| - |LinesSeen(seen, id)|
    decreases |messages|
  {
    if messages != [] {
      var m := messages[0];
      PrintedAtLeast(seen[m.id := m.lines], messages[1..], id);
      PrintsAtLeast(LinesSeen(seen, m.id), m.lines, 0);
      PrintSplits(seen, messages, id);
      hide Print, LinesOf, NewLines;
    }
  }

  /** The lines of one message, first those of the page's first entry. */
  lemma PrintSplits(seen: Seen, messages: seq<Message>, id: string)
    requires messages != []
    ensures var m := messages[0];
            var news := NewLines(LinesSeen(seen, m.id), m.lines, 0);
      LinesOf(Print(seen, messages), id)
      == (if m.id == id then news else []) + LinesOf(Print(seen[m.id := m.lines], messages[1..]), id)
  {
    var m := messages[0];
    var news := NewLines(LinesSeen(seen, m.id), m.lines, 0);
    LinesOfAppend(Tagged(m.id, news), Print(seen[m.id := m.lines], messages[1..]), id);
    LinesOfTagged(m.id, news, id);
  }

  /** Where some snapshot does not extend the one before it, its message is printed more
      often than it grew. */
  lemma {:induction false} SomePrintedTwice(seen: Seen, messages: seq<Message>) returns (id: string)
    requires !OnlyExtends(seen, messages)
    ensures |LinesOf(Print(seen, messages), id)| > |LinesSeen(After(seen, messages), id)| - |LinesSeen(seen, id)|
    decreases |messages|
  {
    var m := messages[0];
    var previous, next := LinesSeen(seen, m.id), seen[m.id := m.lines];
    PrintsAtLeast(previous, m.lines, 0);
    if previous <= m.lines {
      id := SomePrintedTwice(next, messages[1..]);
    } else {
      id := m.id;
      PrintedAtLeast(next, messages[1..], id);
      assert |NewLines(previous, m.lines, 0)| != |m.lines| - |previous| by {
        assert previous[0..] == previous;
      }
    }
    PrintSplits(seen, messages, id);
    hide Print, LinesOf, NewLines, OnlyExtends;
  }

  /** Exactly when every message is printed once: when every snapshot of every message
      extends the one before it. */
  lemma PrintedOnceIff(pages: seq<seq<Message>>)
    ensures (forall id :: LinesOf(PrintPages(map[], pages), id) == FinalLines(Flatten(pages), id))
       <==> OnlyExtends(map[], Flatten(pages))
  {
    var messages := Flatten(pages);
    if OnlyExtends(map[], messages) {
      forall id
        ensures LinesOf(PrintPages(map[], pages), id) == FinalLines(messages, id)
      {
        PrintedOnce(pages, id);
      }
    } else {
      var id := SomePrintedTwice(map[], messages);
      PassesAreOneStretch(map[], pages);
      AfterMeaning(map[], messages, id);
      assert LinesOf(PrintPages(map[], pages), id) != FinalLines(messages, id);
    }
    hide Flatten, PrintPages, LinesOf, FinalLines, OnlyExtends;
  }

  // ----- Reading a page again -----

  /** A page shows each message in one state. */
  predicate Consistent(page: seq<Message>) {
    forall i, j | 0 <= i < j < |page| && page[i].id == page[j].id :: page[i].lines == page[j].lines
  }

  lemma {:induction false} FinalIsShown(page: seq<Message>, id: string) returns (i: nat)
    requires Shows(page, id)
    ensures i < |page| && page[i].id == id && page[i].lines == FinalLines(page, id)
  {
    var front, last := page[..|page| - 1], page[|page| - 1];
    if last.id == id {
      i := |page| - 1;
    } else {
      var at :| 0 <= at < |page| && page[at].id == id;
      assert front[at].id == id;
      i := FinalIsShown(front, id);
    }
  }

  /** A page is consistent exactly when each entry shows its message's final lines. */
  lemma ConsistentIff(page: seq<Message>)
    ensures Consistent(page) <==> forall i | 0 <= i < |page| :: page[i].lines == FinalLines(page, page[i].id)
  {
    if Consistent(page) {
      forall i | 0 <= i < |page|
        ensures page[i].lines == FinalLines(page, page[i].id)
      {
        var last := FinalIsShown(page, page[i].id);
        assert i == last || page[i].lines == page[last].lines;
      }
    }
  }

  /** Reading what was just read leaves what is remembered as it is. */
  lemma AfterIsIdempotent(seen: Seen, page: seq<Message>)
    ensures After(After(seen, page), page) == After(seen, page)
  {
    var once, twice := After(seen, page), After(After(seen, page), page);
    forall id
      ensures id in once <==> id in twice
      ensures LinesSeen(once, id) == LinesSeen(twice, id)
    {
      AfterMeaning(seen, page, id);
      AfterMeaning(once, page, id);
    }
    hide After;
    assert forall id | id in once :: once[id] == LinesSeen(once, id) && twice[id] == LinesSeen(twice, id);
  }

  lemma {:induction false} ShownPrintsNothing(seen: Seen, page: seq<Message>)
    requires forall i | 0 <= i < |page| :: page[i].id in seen && seen[page[i].id] == page[i].lines
    ensures Print(seen, page) == []
    decreases |page|
  {
    if page != [] {
      assert seen[page[0].id := page[0].lines] == seen;
      ExtensionIsNew(page[0].lines, page[0].lines, 0);
      assert forall i | 0 <= i < |page[1..]| :: page[1..][i] == page[i + 1];
      ShownPrintsNothing(seen, page[1..]);
    }
  }

  lemma {:induction false} SilentIsPrefix(previous: seq<string>, rendered: seq<string>, at: nat)
    requires at <= |rendered| && NewLines(previous, rendered, at) == []
    ensures at <= |previous| ==> |rendered| <= |previous| && rendered[at..] == previous[at..|rendered|]
    ensures at > |previous| ==> at == |rendered|
    decreases |rendered| - at
  {
    if at < |rendered| {
      SilentIsPrefix(previous, rendered, at + 1);
      assert rendered[at..] == [rendered[at]] + rendered[at + 1..];
      if at < |previous| && |rendered| <= |previous| {
        assert previous[at..|rendered|] == [previous[at]] + previous[at + 1..|rendered|];
      }
    }
  }

  /** A reading that prints nothing only ever finds snapshots that shorten what was seen,
      and what is remembered in the end is no longer than any of them. */
  lemma {:induction false} SilentShrinks(seen: Seen, page: seq<Message>, i: nat)
    requires Print(seen, page) == [] && i < |page|
    ensures page[i].lines <= LinesSeen(seen, page[i].id)
    ensures LinesSeen(After(seen, page), page[i].id) <= page[i].lines
    decreases |page|
  {
    var m, rest := page[0], page[1..];
    var next := seen[m.id := m.lines];
    var news := NewLines(LinesSeen(seen, m.id), m.lines, 0);
    assert |Tagged(m.id, news)| == |news|;
    assert news == [] && Print(next, rest) == [];
    SilentIsPrefix(LinesSeen(seen, m.id), m.lines, 0);
    assert m.lines <= LinesSeen(seen, m.id) by {
      assert m.lines[0..] == m.lines;
    }
    if i > 0 {
      SilentShrinks(next, rest, i - 1);
    } else if j :| 0 <= j < |rest| && rest[j].id == m.id {
      SilentShrinks(next, rest, j);
    } else {
      AfterMeaning(next, rest, m.id);
    }
  }

  lemma SecondReadingIff(seen: Seen, page: seq<Message>)
    ensures Print(After(seen, page), page) == [] <==> Consistent(page)
  {
    var once := After(seen, page);
    ConsistentIff(page);
    forall i | 0 <= i < |page|
      ensures page[i].id in once && once[page[i].id] == FinalLines(page, page[i].id)
    {
      AfterMeaning(seen, page, page[i].id);
    }
    if Consistent(page) {
      ShownPrintsNothing(once, page);
    }
    if Print(once, page) == [] {
      AfterIsIdempotent(seen, page);
      forall i | 0 <= i < |page|
        ensures page[i].lines == FinalLines(page, page[i].id)
      {
        SilentShrinks(once, page, i);
      }
    }
  }

  /** What is remembered after reading one page `n` times. */
  function Readings(seen: Seen, page: seq<Message>, n: nat): Seen {
    if n == 0 then seen else After(Readings(seen, page, n - 1), page)
  }

  lemma {:induction false} ReadingsAreOne(seen: Seen, page: seq<Message>, n: nat)
    requires n >= 1
    ensures Readings(seen, page, n) == After(seen, page)
  {
    if n > 1 {
      ReadingsAreOne(seen, page, n - 1);
      AfterIsIdempotent(seen, page);
    }
  }

  /** Whatever was seen before, every further reading of an unchanged page prints nothing
      exactly when the page shows each message in one state, as one of distinct messages
      does, and otherwise every one of them prints again. */
  lemma RereadPrintsNothingIff(seen: Seen, page: seq<Message>, n: nat)
    requires n >= 1
    ensures Print(Readings(seen, page, n), page) == [] <==> Consistent(page)
  {
    ReadingsAreOne(seen, page, n);
    SecondReadingIff(seen, page);
    hide Print, Consistent;
  }

  /** The smallest such page: one message twice, in two states. */
  lemma InconsistentPageReprints(seen: Seen, page: seq<Message>)
    requires page == [Message("m", ["a"]), Message("m", ["b"])]
    ensures Print(After(seen, page), page) != []
  {
    SecondReadingIff(seen, page);
    assert page[0].id == page[1].id && "a"[0] != "b"[0] && page[0].lines[0] != page[1].lines[0];
  }

  // ----- Exactly which lines are printed -----

  /** What entry `k` of a page is compared with: the last snapshot of its message before it
      in the page, else what was seen of it earlier. */
  function Previous(seen: Seen, page: seq<Message>, k: nat): seq<string>
    requires k < |page|
  {
    if Shows(page[..k], page[k].id) then FinalLines(page[..k], page[k].id)
    else if page[k].id in seen then seen[page[k].id]
    else []
  }

  /** Line `i` of entry `k` is new or changed. */
  predicate IsNew(seen: Seen, page: seq<Message>, k: nat, i: nat)
    requires k < |page|
  {
    && i < |page[k].lines|
    && (i >= |Previous(seen, page, k)| || Previous(seen, page, k)[i] != page[k].lines[i])
  }

  /** Line `line` of entry `entry` of a page. */
  datatype Position = Position(entry: nat, line: nat)

  predicate Precedes(p: Position, q: Position) {
    p.entry < q.entry || (p.entry == q.entry && p.line < q.line)
  }

  predicate OnlyNew(seen: Seen, page: seq<Message>, positions: seq<Position>) {
    forall p | 0 <= p < |positions| :: positions[p].entry < |page| && IsNew(seen, page, positions[p].entry, positions[p].line)
  }

  predicate InReadingOrder(positions: seq<Position>) {
    forall p, q | 0 <= p < q < |positions| :: Precedes(positions[p], positions[q])
  }

  ghost predicate AllNew(seen: Seen, page: seq<Message>, positions: seq<Position>) {
    forall k: nat, i: nat | k < |page| && IsNew(seen, page, k, i) :: Position(k, i) in positions
  }

  /** `positions` are the new and changed lines of a page, each once and in reading order. */
  ghost predicate ArePositions(seen: Seen, page: seq<Message>, positions: seq<Position>) {
    OnlyNew(seen, page, positions) && InReadingOrder(positions) && AllNew(seen, page, positions)
  }

  /** `printed` holds the texts at those positions, under their messages. */
  ghost predicate AreTexts(page: seq<Message>, positions: seq<Position>, printed: seq<Printed>) {
    && |printed| == |positions|
    && forall p | 0 <= p < |printed| ::
         && positions[p].entry < |page| && positions[p].line < |page[positions[p].entry].lines|
         && printed[p] == Printed(page[positions[p].entry].id, page[positions[p].entry].lines[positions[p].line])
  }

  /** The indices from `at` on at which a snapshot differs from the one before it. */
  lemma {:induction false} NewLinesAre(previous: seq<string>, rendered: seq<string>, at: nat) returns (indices: seq<nat>)
    requires at <= |rendered|
    ensures |indices| == |NewLines(previous, rendered, at)|
    ensures forall p | 0 <= p < |indices| ::
      at <= indices[p] < |rendered| && NewLines(previous, rendered, at)[p] == rendered[indices[p]]
    ensures forall p, q | 0 <= p < q < |indices| :: indices[p] < indices[q]
    ensures forall i: nat :: i in indices <==>
      at <= i < |rendered| && (i >= |previous| || previous[i] != rendered[i])
    decreases |rendered| - at
  {
    if at == |rendered| {
      indices := [];
    } else {
      var later := NewLinesAre(previous, rendered, at + 1);
      if at < |previous| && previous[at] == rendered[at] {
        indices := later;
        assert NewLines(previous, rendered, at) == NewLines(previous, rendered, at + 1);
      } else {
        indices := [at] + later;
        assert NewLines(previous, rendered, at) == [rendered[at]] + NewLines(previous, rendered, at + 1);
        assert forall i: nat :: i in indices <==> i == at || i in later;
      }
    }
  }

  lemma PreviousSnoc(seen: Seen, front: seq<Message>, last: Message, k: nat)
    requires k <= |front|
    ensures k < |front| ==> Previous(seen, front + [last], k) == Previous(seen, front, k)
    ensures k == |front| ==> Previous(seen, front + [last], k) == LinesSeen(After(seen, front), last.id)
  {
    assert (front + [last])[..k] == front[..k];
    if k == |front| {
      assert front[..k] == front;
      AfterMeaning(seen, front, last.id);
    }
  }

  /** What one reading prints, without a word on how: exactly the new and changed lines, as
      the messages now show them, in the order of the page and of each message. */
  lemma {:induction false} ReadingPrints(seen: Seen, page: seq<Message>) returns (positions: seq<Position>)
    ensures ArePositions(seen, page, positions)
    ensures AreTexts(page, positions, Print(seen, page))
    decreases |page|
  {
    if page == [] {
      positions := [];
    } else {
      var front, last := page[..|page| - 1], page[|page| - 1];
      assert page == front + [last];
      var before := LinesSeen(After(seen, front), last.id);
      var earlier := ReadingPrints(seen, front);
      var indices := NewLinesAre(before, last.lines, 0);
      var own := seq(|indices|, p requires 0 <= p < |indices| => Position(|front|, indices[p]));
      positions := earlier + own;
      PrintSnoc(seen, front, last);
      LastEntryPositions(seen, front, last, earlier, indices, own);
      LastEntryTexts(seen, front, last, earlier, indices, own);
    }
  }

  lemma PrintSnoc(seen: Seen, front: seq<Message>, last: Message)
    ensures Print(seen, front + [last])
         == Print(seen, front) + Tagged(last.id, NewLines(LinesSeen(After(seen, front), last.id), last.lines, 0))
  {
    PrintAppend(seen, front, [last]);
    assert [last][1..] == [];
    var more := Tagged(last.id, NewLines(LinesSeen(After(seen, front), last.id), last.lines, 0));
    assert Print(After(seen, front), [last]) == more + [];
  }

  /** Earlier entries are compared with what they were compared with before. */
  lemma NewSnoc(seen: Seen, front: seq<Message>, last: Message, k: nat, i: nat)
    requires k <= |front|
    ensures var page, before := front + [last], LinesSeen(After(seen, front), last.id);
      && (k < |front| ==> (IsNew(seen, page, k, i) <==> IsNew(seen, front, k, i)))
      && (k == |front| ==>
            (IsNew(seen, page, k, i) <==> i < |last.lines| && (i >= |before| || before[i] != last.lines[i])))
  {
    PreviousSnoc(seen, front, last, k);
    hide Previous, After;
  }

  lemma LastEntryPositions(
    seen: Seen, front: seq<Message>, last: Message, earlier: seq<Position>, indices: seq<nat>, own: seq<Position>)
    requires ArePositions(seen, front, earlier)
    requires var before := LinesSeen(After(seen, front), last.id);
      forall i: nat :: i in indices <==> i < |last.lines| && (i >= |before| || before[i] != last.lines[i])
    requires forall p, q | 0 <= p < q < |indices| :: indices[p] < indices[q]
    requires |own| == |indices| && forall p | 0 <= p < |own| :: own[p] == Position(|front|, indices[p])
    ensures ArePositions(seen, front + [last], earlier + own)
  {
    LastEntryOnlyNew(seen, front, last, earlier, indices, own);
    LastEntryAllNew(seen, front, last, earlier, indices, own);
    assert InReadingOrder(earlier + own) by {
      assert forall p | 0 <= p < |earlier| :: earlier[p].entry < |front|;
      hide IsNew, After;
    }
    hide OnlyNew, InReadingOrder, AllNew, After;
  }

  lemma LastEntryOnlyNew(
    seen: Seen, front: seq<Message>, last: Message, earlier: seq<Position>, indices: seq<nat>, own: seq<Position>)
    requires OnlyNew(seen, front, earlier)
    requires var before := LinesSeen(After(seen, front), last.id);
      forall i: nat :: i in indices <==> i < |last.lines| && (i >= |before| || before[i] != last.lines[i])
    requires |own| == |indices| && forall p | 0 <= p < |own| :: own[p] == Position(|front|, indices[p])
    ensures OnlyNew(seen, front + [last], earlier + own)
  {
    hide IsNew, After;
    var positions := earlier + own;
    forall p | 0 <= p < |positions|
      ensures positions[p].entry <= |front| && IsNew(seen, front + [last], positions[p].entry, positions[p].line)
    {
      if p < |earlier| {
        NewSnoc(seen, front, last, earlier[p].entry, earlier[p].line);
      } else {
        assert indices[p - |earlier|] in indices;
        NewSnoc(seen, front, last, |front|, indices[p - |earlier|]);
      }
    }
  }

  lemma LastEntryAllNew(
    seen: Seen, front: seq<Message>, last: Message, earlier: seq<Position>, indices: seq<nat>, own: seq<Position>)
    requires AllNew(seen, front, earlier)
    requires var before := LinesSeen(After(seen, front), last.id);
      forall i: nat :: i in indices <==> i < |last.lines| && (i >= |before| || before[i] != last.lines[i])
    requires |own| == |indices| && forall p | 0 <= p < |own| :: own[p] == Position(|front|, indices[p])
    ensures AllNew(seen, front + [last], earlier + own)
  {
    hide IsNew, After;
    forall k: nat, i: nat | k < |front + [last]| && IsNew(seen, front + [last], k, i)
      ensures Position(k, i) in earlier + own
    {
      NewSnoc(seen, front, last, k, i);
      if k == |front| {
        var p :| 0 <= p < |indices| && indices[p] == i;
        assert own[p] == Position(k, i);
      }
    }
  }

  lemma LastEntryTexts(
    seen: Seen, front: seq<Message>, last: Message, earlier: seq<Position>, indices: seq<nat>, own: seq<Position>)
    requires AreTexts(front, earlier, Print(seen, front))
    requires var news := NewLines(LinesSeen(After(seen, front), last.id), last.lines, 0);
      && |indices| == |news|
      && forall p | 0 <= p < |indices| :: indices[p] < |last.lines| && news[p] == last.lines[indices[p]]
    requires |own| == |indices| && forall p | 0 <= p < |own| :: own[p] == Position(|front|, indices[p])
    ensures AreTexts(front + [last], earlier + own, Print(seen, front + [last]))
  {
    PrintSnoc(seen, front, last);
    var page, positions, printed := front + [last], earlier + own, Print(seen, front + [last]);
    var before := Print(seen, front);
    var more := Tagged(last.id, NewLines(LinesSeen(After(seen, front), last.id), last.lines, 0));
    assert printed == before + more;
    hide Print, After, NewLines;
    forall p | 0 <= p < |printed|
      ensures positions[p].entry < |page| && positions[p].line < |page[positions[p].entry].lines|
      ensures printed[p] == Printed(page[positions[p].entry].id, page[positions[p].entry].lines[positions[p].line])
    {
      if p < |earlier| {
        assert printed[p] == before[p] && positions[p] == earlier[p];
      } else {
        assert printed[p] == more[p - |earlier|] && positions[p] == own[p - |earlier|];
      }
    }
  }

  /** Whenever a reading ends, the last text printed at each line of a message is the one
      the message shows there. */
  lemma {:induction false} LastPrintedIsShown(messages: seq<Message>, id: string, i: nat) returns (k: nat)
    requires Shows(messages, id) && i < |FinalLines(messages, id)|
    ensures k < |messages| && messages[k].id == id && IsNew(map[], messages, k, i)
    ensures messages[k].lines[i] == FinalLines(messages, id)[i]
    ensures forall later: nat | k < later < |messages| && messages[later].id == id :: !IsNew(map[], messages, later, i)
    decreases |messages|
  {
    var front, last := messages[..|messages| - 1], messages[|messages| - 1];
    assert messages == front + [last];
    forall j: nat | j < |front|
      ensures front[j] == messages[j] && (IsNew(map[], messages, j, i) <==> IsNew(map[], front, j, i))
    {
      PreviousSnoc(map[], front, last, j);
    }
    assert messages[..|front|] == front;
    if last.id == id && IsNew(map[], messages, |front|, i) {
      k := |front|;
    } else {
      assert Shows(front, id) && FinalLines(front, id)[..] == FinalLines(front, id);
      k := LastPrintedIsShown(front, id, i);
    }
  }
}
