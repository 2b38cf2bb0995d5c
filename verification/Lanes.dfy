/** What the lanes of a `--all` Dispatch discover, and the report of its fan-out
    across them (src/cli.rs): every Ticket some lane took, and every other Ticket
    some lane gave a reason for. */
module Lanes {

  datatype ReadyTicket = ReadyTicket(id: string, title: string, status: string, blockers: seq<string>)

  datatype Diagnostic = Diagnostic(subject: string, reason: string)

  /** One lane's discovery: the Tickets it takes and why it does not take others. */
  datatype ReadyTickets = ReadyTickets(tickets: seq<ReadyTicket>, diagnostics: seq<Diagnostic>)

  predicate Takes(ready: ReadyTickets, id: string) {
    exists ticket | ticket in ready.tickets :: ticket.id == id
  }

  predicate Routes(lanes: seq<ReadyTickets>, id: string) {
    exists ready | ready in lanes :: Takes(ready, id)
  }

  /** Every diagnostic, lane by lane. */
  function Diagnosed(lanes: seq<ReadyTickets>): seq<Diagnostic> {
    if lanes == [] then [] else Diagnosed(lanes[..|lanes| - 1]) + lanes[|lanes| - 1].diagnostics
  }

  /** The position of the first diagnostic of `subject`, or the number of them all. */
  function FirstAt(diagnostics: seq<Diagnostic>, subject: string): (at: nat)
    ensures at <= |diagnostics| && (at < |diagnostics| ==> diagnostics[at].subject == subject)
    ensures forall i | 0 <= i < at :: diagnostics[i].subject != subject
  {
    if diagnostics == [] || diagnostics[0].subject == subject then 0 else 1 + FirstAt(diagnostics[1..], subject)
  }

  predicate Mentions(diagnostics: seq<Diagnostic>, subject: string) {
    FirstAt(diagnostics, subject) < |diagnostics|
  }

  /** The first diagnostic of each subject, in the order they were first made. */
  function FirstReports(diagnostics: seq<Diagnostic>): seq<Diagnostic> {
    if diagnostics == [] then []
    else
      var earlier, last := FirstReports(diagnostics[..|diagnostics| - 1]), diagnostics[|diagnostics| - 1];
      if Mentions(earlier, last.subject) then earlier else earlier + [last]
  }

  /** The reports whose subject no lane took. */
  function Unrouted(lanes: seq<ReadyTickets>, reports: seq<Diagnostic>): seq<Diagnostic> {
    if reports == [] then []
    else
      (if Routes(lanes, reports[0].subject) then [] else [reports[0]]) + Unrouted(lanes, reports[1..])
  }

  /** Folds one lane's diagnostics into the report, one per subject. */
  method FoldReports(reported: seq<Diagnostic>, diagnostics: seq<Diagnostic>, ghost earlier: seq<Diagnostic>)
    returns (folded: seq<Diagnostic>)
    requires reported == FirstReports(earlier)
    ensures folded == FirstReports(earlier + diagnostics)
  {
    folded := reported;
    assert earlier + diagnostics[..0] == earlier;
    for i := 0 to |diagnostics|
      invariant folded == FirstReports(earlier + diagnostics[..i])
    {
      ghost var next := earlier + diagnostics[..i + 1];
      assert next[..|next| - 1] == earlier + diagnostics[..i] && next[|next| - 1] == diagnostics[i];
      hide Mentions;
      if !Mentions(folded, diagnostics[i].subject) {
        folded := folded + [diagnostics[i]];
      }
    }
    assert diagnostics[..|diagnostics|] == diagnostics;
  }

  lemma RoutesSnoc(lanes: seq<ReadyTickets>, ready: ReadyTickets)
    ensures forall id :: Routes(lanes + [ready], id) <==> Routes(lanes, id) || Takes(ready, id)
  {
    forall id
      ensures Routes(lanes + [ready], id) <==> Routes(lanes, id) || Takes(ready, id)
    {
      assert forall lane :: lane in lanes + [ready] <==> lane in lanes || lane == ready;
    }
  }

  lemma NothingReported()
    ensures FirstReports(Diagnosed([])) == []
  {
  }

  /** The reporting part of the fan-out. */
  method FanOut(lanes: seq<ReadyTickets>) returns (routed: set<string>, unrouted: seq<Diagnostic>)
    ensures forall id :: id in routed <==> Routes(lanes, id)
    ensures unrouted == Unrouted(lanes, FirstReports(Diagnosed(lanes)))
  {
    hide FirstReports;
    routed := {};
    var reported := [];
    assert FirstReports(Diagnosed([])) == [] by { NothingReported(); }
    for i := 0 to |lanes|
      invariant forall id :: id in routed <==> Routes(lanes[..i], id)
      invariant reported == FirstReports(Diagnosed(lanes[..i]))
    {
      var ready := lanes[i];
      assert lanes[..i + 1] == lanes[..i] + [ready] && lanes[..i + 1][..i] == lanes[..i];
      RoutesSnoc(lanes[..i], ready);
      reported := FoldReports(reported, ready.diagnostics, Diagnosed(lanes[..i]));
      if ready.tickets == [] {
        continue;
      }
      routed := routed + (set ticket | ticket in ready.tickets :: ticket.id);
    }
    assert lanes[..|lanes|] == lanes;
    unrouted := [];
    for i := 0 to |reported|
      invariant unrouted + Unrouted(lanes, reported[i..]) == Unrouted(lanes, reported)
    {
      assert reported[i..][0] == reported[i] && reported[i..][1..] == reported[i + 1..];
      if reported[i].subject !in routed {
        unrouted := unrouted + [reported[i]];
      }
    }
  }

  // ----- Conservation -----

  /** `reports` holds, once each and in the order of first mention, the first
      diagnostic of each of its subjects. */
  ghost predicate InFirstOrder(reports: seq<Diagnostic>, diagnostics: seq<Diagnostic>) {
    && (forall i | 0 <= i < |reports| ::
          Mentions(diagnostics, reports[i].subject)
          && reports[i] == diagnostics[FirstAt(diagnostics, reports[i].subject)])
    && (forall i, j | 0 <= i < j < |reports| ::
          FirstAt(diagnostics, reports[i].subject) < FirstAt(diagnostics, reports[j].subject))
  }

  lemma {:induction false} FirstAtSnoc(diagnostics: seq<Diagnostic>, last: Diagnostic, subject: string)
    ensures FirstAt(diagnostics + [last], subject)
         == if Mentions(diagnostics, subject) || last.subject == subject then FirstAt(diagnostics, subject)
            else |diagnostics| + 1
  {
    if diagnostics == [] {
      assert diagnostics + [last] == [last];
    } else {
      assert (diagnostics + [last])[1..] == diagnostics[1..] + [last];
      FirstAtSnoc(diagnostics[1..], last, subject);
    }
  }

  lemma OrderKeptBySnoc(reports: seq<Diagnostic>, diagnostics: seq<Diagnostic>, last: Diagnostic)
    requires InFirstOrder(reports, diagnostics)
    ensures InFirstOrder(reports, diagnostics + [last])
    ensures !Mentions(diagnostics, last.subject) ==> InFirstOrder(reports + [last], diagnostics + [last])
  {
    forall i | 0 <= i < |reports|
      ensures FirstAt(diagnostics + [last], reports[i].subject) == FirstAt(diagnostics, reports[i].subject)
    {
      FirstAtSnoc(diagnostics, last, reports[i].subject);
    }
    FirstAtSnoc(diagnostics, last, last.subject);
  }

  lemma {:induction false} FirstReportsMeaning(diagnostics: seq<Diagnostic>)
    ensures InFirstOrder(FirstReports(diagnostics), diagnostics)
    ensures forall subject :: Mentions(FirstReports(diagnostics), subject) <==> Mentions(diagnostics, subject)
  {
    if diagnostics != [] {
      var front, last := diagnostics[..|diagnostics| - 1], diagnostics[|diagnostics| - 1];
      assert diagnostics == front + [last];
      var earlier := FirstReports(front);
      FirstReportsMeaning(front);
      OrderKeptBySnoc(earlier, front, last);
      forall subject
        ensures Mentions(FirstReports(diagnostics), subject) <==> Mentions(diagnostics, subject)
      {
        FirstAtSnoc(front, last, subject);
        FirstAtSnoc(earlier, last, subject);
      }
    }
  }

  lemma {:induction false} UnroutedMembers(lanes: seq<ReadyTickets>, reports: seq<Diagnostic>, report: Diagnostic)
    ensures report in Unrouted(lanes, reports) <==> report in reports && !Routes(lanes, report.subject)
  {
    if reports != [] {
      assert reports == [reports[0]] + reports[1..];
      UnroutedMembers(lanes, reports[1..], report);
    }
  }

  lemma PrependKeepsOrder(first: Diagnostic, later: seq<Diagnostic>, diagnostics: seq<Diagnostic>)
    requires InFirstOrder(later, diagnostics) && InFirstOrder([first], diagnostics)
    requires forall j | 0 <= j < |later| ::
      FirstAt(diagnostics, first.subject) < FirstAt(diagnostics, later[j].subject)
    ensures InFirstOrder([first] + later, diagnostics)
  {
    assert [first][0] == first;
  }

  lemma {:induction false} UnroutedKeepsOrder(lanes: seq<ReadyTickets>, reports: seq<Diagnostic>, diagnostics: seq<Diagnostic>)
    requires InFirstOrder(reports, diagnostics)
    ensures InFirstOrder(Unrouted(lanes, reports), diagnostics)
  {
    if reports != [] {
      var first, rest := reports[0], reports[1..];
      assert reports == [first] + rest;
      UnroutedKeepsOrder(lanes, rest, diagnostics);
      var kept := Unrouted(lanes, rest);
      forall j | 0 <= j < |kept|
        ensures FirstAt(diagnostics, first.subject) < FirstAt(diagnostics, kept[j].subject)
      {
        UnroutedMembers(lanes, rest, kept[j]);
        var k :| 0 <= k < |rest| && rest[k] == kept[j];
        assert reports[k + 1] == kept[j] && reports[0] == first;
      }
      PrependKeepsOrder(first, kept, diagnostics);
    }
  }

  /** Nothing is lost and nothing is said twice: a Ticket ready or diagnosed in some
      lane is either routed or unrouted and not both, and the unrouted ones stand
      in first-report order, each with the first lane's reason. */
  lemma FanOutConserves(lanes: seq<ReadyTickets>, unrouted: seq<Diagnostic>, subject: string)
    requires unrouted == Unrouted(lanes, FirstReports(Diagnosed(lanes)))
    ensures Routes(lanes, subject) || Mentions(Diagnosed(lanes), subject)
            <==> Routes(lanes, subject) || Mentions(unrouted, subject)
    ensures !(Routes(lanes, subject) && Mentions(unrouted, subject))
    ensures InFirstOrder(unrouted, Diagnosed(lanes))
  {
    var diagnostics := Diagnosed(lanes);
    FirstReportsMeaning(diagnostics);
    UnroutedKeepsOrder(lanes, FirstReports(diagnostics), diagnostics);
    var reports := FirstReports(diagnostics);
    if Mentions(diagnostics, subject) && !Routes(lanes, subject) {
      var report := reports[FirstAt(reports, subject)];
      UnroutedMembers(lanes, reports, report);
      assert report in unrouted;
      var i :| 0 <= i < |unrouted| && unrouted[i] == report;
    }
    if Mentions(unrouted, subject) {
      var report := unrouted[FirstAt(unrouted, subject)];
      UnroutedMembers(lanes, reports, report);
      var i :| 0 <= i < |reports| && reports[i] == report;
    }
  }
}
