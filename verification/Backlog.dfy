/** The backlog `ticket list` reports (src/cli.rs): entries in discovery order with a
    position index beside them, merged across lanes. */
module Backlog {
  import opened Options
  import opened Lanes

  datatype TicketVerdict = Ready | Blocked(reason: string) | NotReady(reason: string) | Done

  datatype Entry = Entry(
    ticket: string, title: Option<string>, status: Option<string>, verdict: TicketVerdict, blockers: seq<string>)

  // ----- What the list means -----

  /** The Tickets inserted, each once, in the order of first insertion. */
  function Tickets(inserted: seq<Entry>): seq<string> {
    if inserted == [] then []
    else
      var earlier, last := Tickets(inserted[..|inserted| - 1]), inserted[|inserted| - 1];
      if last.ticket in earlier then earlier else earlier + [last.ticket]
  }

  /** The first insertion for `ticket` that satisfies the readiness asked for. */
  function First(inserted: seq<Entry>, ticket: string, ready: bool): (r: Option<Entry>)
    ensures r.Some? ==> r.value in inserted && r.value.ticket == ticket && (ready ==> r.value.verdict.Ready?)
    ensures r.None? ==> forall e | e in inserted :: e.ticket == ticket ==> ready && !e.verdict.Ready?
  {
    if inserted == [] then None
    else if inserted[0].ticket == ticket && (ready ==> inserted[0].verdict.Ready?) then Some(inserted[0])
    else First(inserted[1..], ticket, ready)
  }

  predicate Known(inserted: seq<Entry>, ticket: string) {
    First(inserted, ticket, false).Some?
  }

  predicate EverReady(inserted: seq<Entry>, ticket: string) {
    First(inserted, ticket, true).Some?
  }

  /** The entry a Ticket is listed by: its first ready one if any lane readied it,
      else its first one. */
  function Pick(inserted: seq<Entry>, ticket: string): (entry: Entry)
    requires Known(inserted, ticket)
    ensures entry in inserted && entry.ticket == ticket
    ensures entry.verdict.Ready? <==> EverReady(inserted, ticket)
  {
    if EverReady(inserted, ticket) then First(inserted, ticket, true).value else First(inserted, ticket, false).value
  }

  /** `entries` is the list those insertions mean. */
  ghost predicate Lists(entries: seq<Entry>, inserted: seq<Entry>) {
    && |entries| == |Tickets(inserted)|
    && (forall i | 0 <= i < |entries| ::
          Known(inserted, Tickets(inserted)[i]) && entries[i] == Pick(inserted, Tickets(inserted)[i]))
  }

  lemma {:induction false} TicketsMeaning(inserted: seq<Entry>)
    ensures forall t :: t in Tickets(inserted) <==> Known(inserted, t)
    ensures forall i, j | 0 <= i < j < |Tickets(inserted)| :: Tickets(inserted)[i] != Tickets(inserted)[j]
  {
    if inserted != [] {
      var front, last := inserted[..|inserted| - 1], inserted[|inserted| - 1];
      assert inserted == front + [last];
      TicketsMeaning(front);
      forall t
        ensures t in Tickets(inserted) <==> Known(inserted, t)
      {
        FirstSnoc(front, last, t, false);
        assert [last][1..] == [];
      }
    }
  }

  /** Some insertion of `x` comes before every insertion of `y`. */
  predicate InsertedBefore(inserted: seq<Entry>, x: string, y: string) {
    exists a | 0 <= a < |inserted| ::
      inserted[a].ticket == x && forall b | 0 <= b <= a :: inserted[b].ticket != y
  }

  lemma BeforeSnoc(front: seq<Entry>, last: Entry, x: string, y: string)
    requires InsertedBefore(front, x, y)
    ensures InsertedBefore(front + [last], x, y)
  {
    var a :| 0 <= a < |front| && front[a].ticket == x && forall b | 0 <= b <= a :: front[b].ticket != y;
    assert (front + [last])[a].ticket == x;
    assert forall b | 0 <= b <= a :: (front + [last])[b] == front[b];
  }

  lemma BeforeLast(front: seq<Entry>, last: Entry, x: string)
    requires Known(front, x) && !Known(front, last.ticket)
    ensures InsertedBefore(front + [last], x, last.ticket)
  {
    var e := First(front, x, false).value;
    var a :| 0 <= a < |front| && front[a] == e;
    assert forall b | 0 <= b <= a :: front[b] in front && (front + [last])[b] == front[b];
    assert (front + [last])[a].ticket == x;
  }

  /** The Tickets are listed in the order in which they were first inserted. */
  lemma {:induction false} TicketsInFirstOrder(inserted: seq<Entry>)
    ensures forall i, j | 0 <= i < j < |Tickets(inserted)| ::
      InsertedBefore(inserted, Tickets(inserted)[i], Tickets(inserted)[j])
  {
    if inserted != [] {
      var front, last := inserted[..|inserted| - 1], inserted[|inserted| - 1];
      var tickets, earlier := Tickets(inserted), Tickets(front);
      assert inserted == front + [last];
      assert tickets == if last.ticket in earlier then earlier else earlier + [last.ticket];
      TicketsInFirstOrder(front);
      TicketsMeaning(front);
      hide Known;
      forall i, j | 0 <= i < j < |tickets|
        ensures InsertedBefore(inserted, tickets[i], tickets[j])
      {
        if j < |earlier| {
          BeforeSnoc(front, last, earlier[i], earlier[j]);
        } else {
          BeforeLast(front, last, earlier[i]);
        }
      }
    }
  }

  lemma {:induction false} FirstSnoc(inserted: seq<Entry>, last: Entry, ticket: string, ready: bool)
    ensures First(inserted + [last], ticket, ready)
         == if First(inserted, ticket, ready).Some? then First(inserted, ticket, ready)
            else First([last], ticket, ready)
  {
    if inserted == [] {
      assert inserted + [last] == [last];
    } else {
      assert (inserted + [last])[1..] == inserted[1..] + [last];
      FirstSnoc(inserted[1..], last, ticket, ready);
    }
  }

  /** How one more insertion changes what a Ticket is listed by. */
  lemma PickSnoc(inserted: seq<Entry>, last: Entry, ticket: string)
    requires Known(inserted, ticket) || last.ticket == ticket
    ensures Known(inserted + [last], ticket)
    ensures Known(inserted, ticket) ==>
      Pick(inserted + [last], ticket)
      == if last.ticket == ticket && last.verdict.Ready? && !Pick(inserted, ticket).verdict.Ready? then last
         else Pick(inserted, ticket)
    ensures !Known(inserted, ticket) ==> Pick(inserted + [last], ticket) == last
  {
    FirstSnoc(inserted, last, ticket, true);
    FirstSnoc(inserted, last, ticket, false);
    assert [last][1..] == [];
    assert !Known(inserted, ticket) ==> !EverReady(inserted, ticket);
  }

  /** The entries are what the insertions mean, and the index maps each Ticket to
      the one position that holds it. */
  ghost predicate Indexed(entries: seq<Entry>, index: map<string, nat>, inserted: seq<Entry>) {
    && Lists(entries, inserted)
    && (forall t :: t in index <==> t in Tickets(inserted))
    && (forall t | t in index :: index[t] < |entries| && Tickets(inserted)[index[t]] == t)
  }

  lemma InsertNew(entries: seq<Entry>, index: map<string, nat>, inserted: seq<Entry>, entry: Entry)
    requires Indexed(entries, index, inserted) && entry.ticket !in index
    ensures Indexed(entries + [entry], index[entry.ticket := |entries|], inserted + [entry])
  {
    var after := inserted + [entry];
    assert after[..|inserted|] == inserted;
    TicketsMeaning(inserted);
    assert Tickets(after) == Tickets(inserted) + [entry.ticket];
    forall i | 0 <= i <= |entries|
      ensures Known(after, Tickets(after)[i]) && (entries + [entry])[i] == Pick(after, Tickets(after)[i])
    {
      PickSnoc(inserted, entry, Tickets(after)[i]);
    }
  }

  lemma InsertKnown(entries: seq<Entry>, index: map<string, nat>, inserted: seq<Entry>, entry: Entry)
    requires Indexed(entries, index, inserted) && entry.ticket in index
    ensures var position := index[entry.ticket];
            var improves := entry.verdict.Ready? && !entries[position].verdict.Ready?;
            Indexed(if improves then entries[position := entry] else entries, index, inserted + [entry])
  {
    hide Tickets, Lists;
    KnownTicketAdds(inserted, entry);
    InListKnown(entries, inserted, entry, index[entry.ticket]);
  }

  lemma InListKnown(entries: seq<Entry>, inserted: seq<Entry>, entry: Entry, position: nat)
    requires Lists(entries, inserted) && position < |entries| && Tickets(inserted)[position] == entry.ticket
    ensures var improves := entry.verdict.Ready? && !entries[position].verdict.Ready?;
            Lists(if improves then entries[position := entry] else entries, inserted + [entry])
  {
    var after := inserted + [entry];
    var improves := entry.verdict.Ready? && !entries[position].verdict.Ready?;
    var updated := if improves then entries[position := entry] else entries;
    hide Tickets, Pick, Known, First;
    KnownTicketAdds(inserted, entry);
    TicketsMeaning(inserted);
    forall i | 0 <= i < |entries|
      ensures Known(after, Tickets(after)[i]) && updated[i] == Pick(after, Tickets(after)[i])
    {
      PickSnoc(inserted, entry, Tickets(inserted)[i]);
    }
  }

  lemma KnownTicketAdds(inserted: seq<Entry>, entry: Entry)
    requires entry.ticket in Tickets(inserted)
    ensures Tickets(inserted + [entry]) == Tickets(inserted)
  {
    assert (inserted + [entry])[..|inserted|] == inserted;
  }

  // ----- The accumulator -----

  /** A local Ticket's readiness, as its source computed it. */
  datatype Readiness = Readiness(id: string, title: string, status: string, blockers: seq<string>)

  function NonEmpty(text: string): Option<string> {
    if text != "" then Some(text) else None
  }

  function FindDiagnostic(diagnostics: seq<Diagnostic>, subject: string): Option<Diagnostic> {
    if Mentions(diagnostics, subject) then Some(diagnostics[FirstAt(diagnostics, subject)]) else None
  }

  /** The lane's verdict on one local Ticket. */
  function Verdict(readiness: Readiness, ready: ReadyTickets, expectedStatus: string): TicketVerdict {
    if Takes(ready, readiness.id) then Ready
    else
      match FindDiagnostic(ready.diagnostics, readiness.id)
      case Some(diagnostic) =>
        if readiness.status != expectedStatus then NotReady(diagnostic.reason) else Blocked(diagnostic.reason)
      case None => Done
  }

  function LocalEntry(readiness: Readiness, ready: ReadyTickets, expectedStatus: string): Entry {
    Entry(readiness.id, NonEmpty(readiness.title), NonEmpty(readiness.status),
          Verdict(readiness, ready, expectedStatus), readiness.blockers)
  }

  function ReadyEntry(ticket: ReadyTicket): Entry {
    Entry(ticket.id, Some(ticket.title), Some(ticket.status), Ready, ticket.blockers)
  }

  function DiagnosedEntry(diagnostic: Diagnostic): Entry {
    Entry(diagnostic.subject, None, None, Blocked(diagnostic.reason), [])
  }

  function ReadyEntries(tickets: seq<ReadyTicket>): seq<Entry> {
    seq(|tickets|, i requires 0 <= i < |tickets| => ReadyEntry(tickets[i]))
  }

  function DiagnosedEntries(diagnostics: seq<Diagnostic>): seq<Entry> {
    seq(|diagnostics|, i requires 0 <= i < |diagnostics| => DiagnosedEntry(diagnostics[i]))
  }

  /** The entries one lane's discovery is folded in as, when nothing richer is known. */
  function DiscoveryEntries(ready: ReadyTickets): seq<Entry> {
    ReadyEntries(ready.tickets) + DiagnosedEntries(ready.diagnostics)
  }

  /** A local Ticket is ready when the lane takes it, finished when the lane says nothing of
      it, and otherwise stopped for the lane's first reason: as not this lane's work when
      its status is another, as blocked when it is the lane's own. */
  lemma LocalVerdictMeaning(readiness: Readiness, ready: ReadyTickets, expectedStatus: string)
    ensures var verdict := LocalEntry(readiness, ready, expectedStatus).verdict;
            var taken := exists t | t in ready.tickets :: t.id == readiness.id;
            var explained := exists d | d in ready.diagnostics :: d.subject == readiness.id;
      && (verdict.Ready? <==> taken)
      && (verdict.Done? <==> !taken && !explained)
      && (verdict.NotReady? <==> !taken && explained && readiness.status != expectedStatus)
      && (verdict.Blocked? <==> !taken && explained && readiness.status == expectedStatus)
      && (verdict.NotReady? || verdict.Blocked? ==>
            exists i | 0 <= i < |ready.diagnostics| ::
              && ready.diagnostics[i] == Diagnostic(readiness.id, verdict.reason)
              && forall j | 0 <= j < i :: ready.diagnostics[j].subject != readiness.id)
  {
    var at := FirstAt(ready.diagnostics, readiness.id);
    if at < |ready.diagnostics| {
      assert ready.diagnostics[at] in ready.diagnostics;
    }
    hide FirstAt;
  }

  class TicketBacklog {
    var entries: seq<Entry>
    var index: map<string, nat>
    /** Every insertion so far. */
    ghost var inserted: seq<Entry>

    ghost predicate Valid()
      reads this
    {
      Indexed(entries, index, inserted)
    }

    constructor ()
      ensures Valid() && inserted == []
    {
      entries, index, inserted := [], map[], [];
    }

    method Insert(entry: Entry)
      requires Valid()
      modifies this
      ensures Valid() && inserted == old(inserted) + [entry]
    {
      if entry.ticket in index {
        InsertKnown(entries, index, inserted, entry);
        inserted := inserted + [entry];
        var position := index[entry.ticket];
        if entry.verdict.Ready? && !entries[position].verdict.Ready? {
          entries := entries[position := entry];
        }
        return;
      }
      InsertNew(entries, index, inserted, entry);
      inserted := inserted + [entry];
      index := index[entry.ticket := |entries|];
      entries := entries + [entry];
    }

    /** Folds one local Ticket in, with the lane's verdict. */
    method Record(readiness: Readiness, ready: ReadyTickets, expectedStatus: string)
      requires Valid()
      modifies this
      ensures Valid() && inserted == old(inserted) + [LocalEntry(readiness, ready, expectedStatus)]
    {
      var verdict := Done;
      if Takes(ready, readiness.id) {
        verdict := Ready;
      } else {
        var diagnostic := FindDiagnostic(ready.diagnostics, readiness.id);
        if diagnostic.Some? {
          if readiness.status != expectedStatus {
            verdict := NotReady(diagnostic.value.reason);
          } else {
            verdict := Blocked(diagnostic.value.reason);
          }
        }
      }
      Insert(Entry(readiness.id, NonEmpty(readiness.title), NonEmpty(readiness.status), verdict, readiness.blockers));
    }

    /** Folds one lane's discovery in, for a source with no richer backlog. */
    method RecordDiscovery(ready: ReadyTickets)
      requires Valid()
      modifies this
      ensures Valid() && inserted == old(inserted) + DiscoveryEntries(ready)
    {
      hide Indexed;
      for i := 0 to |ready.tickets|
        invariant Valid() && inserted == old(inserted) + ReadyEntries(ready.tickets[..i])
      {
        assert ReadyEntries(ready.tickets[..i + 1]) == ReadyEntries(ready.tickets[..i]) + [ReadyEntry(ready.tickets[i])];
        Insert(ReadyEntry(ready.tickets[i]));
      }
      assert ready.tickets[..|ready.tickets|] == ready.tickets;
      ghost var taken := inserted;
      for i := 0 to |ready.diagnostics|
        invariant Valid() && inserted == taken + DiagnosedEntries(ready.diagnostics[..i])
      {
        assert DiagnosedEntries(ready.diagnostics[..i + 1])
            == DiagnosedEntries(ready.diagnostics[..i]) + [DiagnosedEntry(ready.diagnostics[i])];
        Insert(DiagnosedEntry(ready.diagnostics[i]));
      }
      assert ready.diagnostics[..|ready.diagnostics|] == ready.diagnostics;
    }
  }

  // ----- Agreement with the fan-out -----

  /** The insertions a listing over these lanes makes. */
  function Discovered(lanes: seq<ReadyTickets>): seq<Entry> {
    if lanes == [] then [] else Discovered(lanes[..|lanes| - 1]) + DiscoveryEntries(lanes[|lanes| - 1])
  }

  method ListDiscovery(lanes: seq<ReadyTickets>) returns (backlog: TicketBacklog)
    ensures fresh(backlog) && backlog.Valid() && backlog.inserted == Discovered(lanes)
  {
    backlog := new TicketBacklog();
    for i := 0 to |lanes|
      invariant fresh(backlog) && backlog.Valid() && backlog.inserted == Discovered(lanes[..i])
    {
      assert lanes[..i + 1][..i] == lanes[..i];
      backlog.RecordDiscovery(lanes[i]);
    }
    assert lanes[..|lanes|] == lanes;
  }

  lemma {:induction false} FirstAppend(a: seq<Entry>, b: seq<Entry>, ticket: string, ready: bool)
    ensures First(a + b, ticket, ready)
         == if First(a, ticket, ready).Some? then First(a, ticket, ready) else First(b, ticket, ready)
  {
    if a == [] {
      assert a + b == b;
    } else {
      assert (a + b)[1..] == a[1..] + b;
      FirstAppend(a[1..], b, ticket, ready);
    }
  }

  lemma {:induction false} FirstOfTickets(tickets: seq<ReadyTicket>, ticket: string, ready: bool)
    ensures First(ReadyEntries(tickets), ticket, ready).Some? <==> exists t | t in tickets :: t.id == ticket
  {
    if tickets != [] {
      assert ReadyEntries(tickets)[1..] == ReadyEntries(tickets[1..]);
      assert forall t :: t in tickets <==> t == tickets[0] || t in tickets[1..];
      FirstOfTickets(tickets[1..], ticket, ready);
    }
  }

  lemma {:induction false} FirstOfDiagnostics(diagnostics: seq<Diagnostic>, ticket: string)
    ensures First(DiagnosedEntries(diagnostics), ticket, true).None?
    ensures First(DiagnosedEntries(diagnostics), ticket, false)
         == match FindDiagnostic(diagnostics, ticket) case Some(d) => Some(DiagnosedEntry(d)) case None => None
  {
    if diagnostics != [] {
      assert DiagnosedEntries(diagnostics)[1..] == DiagnosedEntries(diagnostics[1..]);
      FirstOfDiagnostics(diagnostics[1..], ticket);
    }
  }

  lemma FirstOfLane(ready: ReadyTickets, ticket: string)
    ensures First(DiscoveryEntries(ready), ticket, true).Some? <==> Takes(ready, ticket)
    ensures !Takes(ready, ticket) ==>
      First(DiscoveryEntries(ready), ticket, false)
      == match FindDiagnostic(ready.diagnostics, ticket) case Some(d) => Some(DiagnosedEntry(d)) case None => None
  {
    hide First;
    FirstOfTickets(ready.tickets, ticket, true);
    FirstOfTickets(ready.tickets, ticket, false);
    FirstOfDiagnostics(ready.diagnostics, ticket);
    FirstAppend(ReadyEntries(ready.tickets), DiagnosedEntries(ready.diagnostics), ticket, true);
    FirstAppend(ReadyEntries(ready.tickets), DiagnosedEntries(ready.diagnostics), ticket, false);
  }

  lemma {:induction false} ReadyEntryIffRouted(lanes: seq<ReadyTickets>, ticket: string)
    ensures EverReady(Discovered(lanes), ticket) <==> Routes(lanes, ticket)
  {
    if lanes != [] {
      var front, last := lanes[..|lanes| - 1], lanes[|lanes| - 1];
      assert lanes == front + [last];
      ReadyEntryIffRouted(front, ticket);
      RoutesSnoc(front, last);
      FirstOfLane(last, ticket);
      FirstAppend(Discovered(front), DiscoveryEntries(last), ticket, true);
      hide First, DiscoveryEntries, Routes;
    }
  }

  lemma {:induction false} FindAppend(a: seq<Diagnostic>, b: seq<Diagnostic>, subject: string)
    ensures FindDiagnostic(a + b, subject)
         == if FindDiagnostic(a, subject).Some? then FindDiagnostic(a, subject) else FindDiagnostic(b, subject)
  {
    if a == [] {
      assert a + b == b;
    } else {
      assert (a + b)[1..] == a[1..] + b;
      FindAppend(a[1..], b, subject);
    }
  }

  lemma {:induction false} FirstDiscoveredIsFirstReason(lanes: seq<ReadyTickets>, ticket: string)
    requires !Routes(lanes, ticket)
    ensures First(Discovered(lanes), ticket, false)
         == match FindDiagnostic(Diagnosed(lanes), ticket) case Some(d) => Some(DiagnosedEntry(d)) case None => None
  {
    if lanes != [] {
      var front, last := lanes[..|lanes| - 1], lanes[|lanes| - 1];
      assert lanes == front + [last];
      RoutesSnoc(front, last);
      FirstOfLane(last, ticket);
      FirstAppend(Discovered(front), DiscoveryEntries(last), ticket, false);
      FindAppend(Diagnosed(front), last.diagnostics, ticket);
      hide First, DiscoveryEntries, Routes, FindDiagnostic;
      FirstDiscoveredIsFirstReason(front, ticket);
    }
  }

  /** `ticket list` and `dispatch --all` cannot disagree over the same lanes: a
      Ticket is listed ready exactly when the fan-out routes it, listed otherwise
      exactly when the fan-out reports it unrouted, and then with the same reason. */
  lemma ListAgreesWithFanOut(lanes: seq<ReadyTickets>, ticket: string)
    ensures var inserted := Discovered(lanes);
            var unrouted := Unrouted(lanes, FirstReports(Diagnosed(lanes)));
            && (ticket in Tickets(inserted) <==> Known(inserted, ticket))
            && (Known(inserted, ticket) <==> Routes(lanes, ticket) || Mentions(unrouted, ticket))
            && (Known(inserted, ticket) ==>
                  && (Pick(inserted, ticket).verdict.Ready? <==> Routes(lanes, ticket))
                  && (Mentions(unrouted, ticket) ==>
                        Pick(inserted, ticket).verdict == Blocked(unrouted[FirstAt(unrouted, ticket)].reason)))
  {
    var inserted := Discovered(lanes);
    var unrouted := Unrouted(lanes, FirstReports(Diagnosed(lanes)));
    TicketsMeaning(inserted);
    ReadyEntryIffRouted(lanes, ticket);
    FanOutConserves(lanes, unrouted, ticket);
    ReadyIsKnown(inserted, ticket);
    if !Routes(lanes, ticket) {
      FirstDiscoveredIsFirstReason(lanes, ticket);
    }
  }

  lemma {:induction false} ReadyIsKnown(inserted: seq<Entry>, ticket: string)
    ensures EverReady(inserted, ticket) ==> Known(inserted, ticket)
  {
    if inserted != [] {
      ReadyIsKnown(inserted[1..], ticket);
    }
  }
}
