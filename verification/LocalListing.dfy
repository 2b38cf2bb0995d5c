/** `ticket list` over a local source (src/cli.rs): each lane's backlog folded in with
    that lane's verdict, against what the fan-out reports of the same lanes. */
module LocalListing {
  import opened Options
  import opened Lanes
  import opened Backlog

  /** One lane: every Ticket the local source holds, the Ready set the lane draws from
      it, and the status it draws by. */
  datatype LocalLane = LocalLane(backlog: seq<Readiness>, ready: ReadyTickets, status: string)

  predicate ListsTicket(lane: LocalLane, ticket: string) {
    exists r | r in lane.backlog :: r.id == ticket
  }

  /** The Ready set is drawn from the backlog: it takes or explains nothing else. */
  ghost predicate Covers(lane: LocalLane) {
    forall ticket :: Takes(lane.ready, ticket) || Mentions(lane.ready.diagnostics, ticket) ==> ListsTicket(lane, ticket)
  }

  function LaneEntries(lane: LocalLane): seq<Entry> {
    seq(|lane.backlog|, i requires 0 <= i < |lane.backlog| => LocalEntry(lane.backlog[i], lane.ready, lane.status))
  }

  /** The insertions a listing over these lanes makes. */
  function Recorded(lanes: seq<LocalLane>): seq<Entry> {
    if lanes == [] then [] else Recorded(lanes[..|lanes| - 1]) + LaneEntries(lanes[|lanes| - 1])
  }

  function ReadySets(lanes: seq<LocalLane>): seq<ReadyTickets> {
    seq(|lanes|, i requires 0 <= i < |lanes| => lanes[i].ready)
  }

  method ListLocal(lanes: seq<LocalLane>) returns (backlog: TicketBacklog)
    ensures fresh(backlog) && backlog.Valid() && backlog.inserted == Recorded(lanes)
  {
    hide Indexed;
    backlog := new TicketBacklog();
    for i := 0 to |lanes|
      invariant fresh(backlog) && backlog.Valid() && backlog.inserted == Recorded(lanes[..i])
    {
      assert lanes[..i + 1][..i] == lanes[..i];
      var lane := lanes[i];
      ghost var entries := LaneEntries(lane);
      for j := 0 to |lane.backlog|
        invariant fresh(backlog) && backlog.Valid() && backlog.inserted == Recorded(lanes[..i]) + entries[..j]
      {
        assert entries[..j + 1] == entries[..j] + [entries[j]];
        backlog.Record(lane.backlog[j], lane.ready, lane.status);
      }
      assert entries[..|entries|] == entries;
    }
    assert lanes[..|lanes|] == lanes;
  }

  /** The first lane whose backlog holds the Ticket. */
  function FirstListing(lanes: seq<LocalLane>, ticket: string): Option<LocalLane> {
    if lanes == [] then None
    else
      var earlier := FirstListing(lanes[..|lanes| - 1], ticket);
      if earlier.Some? then earlier
      else if ListsTicket(lanes[|lanes| - 1], ticket) then Some(lanes[|lanes| - 1])
      else None
  }

  /** Why a verdict is not ready. */
  function ReasonOf(verdict: TicketVerdict): Option<string> {
    match verdict
    case Blocked(reason) => Some(reason)
    case NotReady(reason) => Some(reason)
    case _ => None
  }

  /** What one lane's entries say of a Ticket. */
  lemma {:induction false} FirstOfReadinesses(
    backlog: seq<Readiness>, ready: ReadyTickets, status: string, ticket: string, needReady: bool)
    ensures var lane := LocalLane(backlog, ready, status);
            var first := First(LaneEntries(lane), ticket, needReady);
      && (first.Some? <==> ListsTicket(lane, ticket) && (needReady ==> Takes(ready, ticket)))
      && (first.Some? && !Takes(ready, ticket) ==>
            match FindDiagnostic(ready.diagnostics, ticket)
            case None => first.value.verdict.Done?
            case Some(d) => ReasonOf(first.value.verdict) == Some(d.reason))
    decreases |backlog|
  {
    if backlog != [] {
      var lane, rest := LocalLane(backlog, ready, status), LocalLane(backlog[1..], ready, status);
      assert backlog == [backlog[0]] + backlog[1..];
      assert LaneEntries(lane)[1..] == LaneEntries(rest);
      FirstOfReadinesses(backlog[1..], ready, status, ticket, needReady);
      assert ListsTicket(lane, ticket) <==> backlog[0].id == ticket || ListsTicket(rest, ticket);
    }
  }

  lemma {:induction false} ReadyIffRouted(lanes: seq<LocalLane>, ticket: string)
    requires forall i | 0 <= i < |lanes| :: Covers(lanes[i])
    ensures EverReady(Recorded(lanes), ticket) <==> Routes(ReadySets(lanes), ticket)
  {
    if lanes != [] {
      var front, last := lanes[..|lanes| - 1], lanes[|lanes| - 1];
      assert ReadySets(lanes) == ReadySets(front) + [last.ready];
      ReadyIffRouted(front, ticket);
      RoutesSnoc(ReadySets(front), last.ready);
      FirstOfReadinesses(last.backlog, last.ready, last.status, ticket, true);
      FirstAppend(Recorded(front), LaneEntries(last), ticket, true);
      assert Covers(last);
      hide First, LaneEntries, Routes;
    }
  }

  lemma {:induction false} FirstReasonGiven(lanes: seq<LocalLane>, ticket: string)
    requires forall i | 0 <= i < |lanes| :: Covers(lanes[i])
    requires !Routes(ReadySets(lanes), ticket)
    ensures var first, listing := First(Recorded(lanes), ticket, false), FirstListing(lanes, ticket);
            var reported := FindDiagnostic(Diagnosed(ReadySets(lanes)), ticket);
      && (first.Some? <==> listing.Some?)
      && (listing.None? ==> reported.None?)
      && (listing.Some? ==>
            match FindDiagnostic(listing.value.ready.diagnostics, ticket)
            case None => first.value.verdict.Done?
            case Some(d) => reported == Some(d) && ReasonOf(first.value.verdict) == Some(d.reason))
  {
    if lanes != [] {
      var front, last := lanes[..|lanes| - 1], lanes[|lanes| - 1];
      assert ReadySets(lanes) == ReadySets(front) + [last.ready];
      assert ReadySets(lanes)[..|front|] == ReadySets(front);
      RoutesSnoc(ReadySets(front), last.ready);
      FirstReasonGiven(front, ticket);
      FirstOfReadinesses(last.backlog, last.ready, last.status, ticket, false);
      FirstAppend(Recorded(front), LaneEntries(last), ticket, false);
      FindAppend(Diagnosed(ReadySets(front)), last.ready.diagnostics, ticket);
      assert Covers(last);
      hide First, LaneEntries, Routes, ListsTicket, ReasonOf;
    }
  }

  /** Over a local source `ticket list` shows ready exactly what the fan-out routes. A
      Ticket the fan-out reports unrouted is listed, and shown with the reported reason
      exactly when the first lane that lists it is one that explains it: a lane that
      neither takes nor explains it counts it as finished. */
  lemma LocalListAgreesWithFanOut(lanes: seq<LocalLane>, ticket: string)
    requires forall i | 0 <= i < |lanes| :: Covers(lanes[i])
    ensures var inserted, listing := Recorded(lanes), FirstListing(lanes, ticket);
            var unrouted := Unrouted(ReadySets(lanes), FirstReports(Diagnosed(ReadySets(lanes))));
      && (Known(inserted, ticket) <==> listing.Some?)
      && (Routes(ReadySets(lanes), ticket) || Mentions(unrouted, ticket) ==> Known(inserted, ticket))
      && (Known(inserted, ticket) ==>
            && (Pick(inserted, ticket).verdict.Ready? <==> Routes(ReadySets(lanes), ticket))
            && (Mentions(unrouted, ticket) ==>
                  (ReasonOf(Pick(inserted, ticket).verdict) == Some(unrouted[FirstAt(unrouted, ticket)].reason)
                   <==> Mentions(listing.value.ready.diagnostics, ticket)))
            && (!Routes(ReadySets(lanes), ticket) && !Mentions(listing.value.ready.diagnostics, ticket) ==>
                  Pick(inserted, ticket).verdict.Done?))
  {
    var inserted := Recorded(lanes);
    var diagnosed := Diagnosed(ReadySets(lanes));
    var unrouted := Unrouted(ReadySets(lanes), FirstReports(diagnosed));
    hide Recorded, Diagnosed, Unrouted, FirstReports, Routes, First, FirstAt, FirstListing, Covers, ReadySets;
    ReadyIffRouted(lanes, ticket);
    KnownIffListed(lanes, ticket);
    ReadyIsKnown(inserted, ticket);
    ReportedReason(ReadySets(lanes), ticket);
    if !Routes(ReadySets(lanes), ticket) {
      FirstReasonGiven(lanes, ticket);
    }
  }

  lemma ReportedReason(ready: seq<ReadyTickets>, ticket: string)
    ensures var unrouted := Unrouted(ready, FirstReports(Diagnosed(ready)));
      && !(Routes(ready, ticket) && Mentions(unrouted, ticket))
      && (!Routes(ready, ticket) ==> FindDiagnostic(unrouted, ticket) == FindDiagnostic(Diagnosed(ready), ticket))
  {
    var unrouted := Unrouted(ready, FirstReports(Diagnosed(ready)));
    FanOutConserves(ready, unrouted, ticket);
    hide Diagnosed, Unrouted, FirstReports, Routes, FirstAt;
  }

  /** The list and the fan-out do part where the first lane counts as finished what
      another explains. */
  lemma FinishedHereBlockedThere(r: Readiness, lanes: seq<LocalLane>)
    requires r == Readiness("t", "T", "done", [])
    requires lanes == [LocalLane([r], ReadyTickets([], []), "open"),
                       LocalLane([r], ReadyTickets([], [Diagnostic("t", "waits")]), "done")]
    ensures Covers(lanes[0]) && Covers(lanes[1])
    ensures Known(Recorded(lanes), "t") && Pick(Recorded(lanes), "t").verdict.Done?
    ensures Mentions(Unrouted(ReadySets(lanes), FirstReports(Diagnosed(ReadySets(lanes)))), "t")
  {
    var ready := ReadySets(lanes);
    SoleDiagnostic(Diagnostic("t", "waits"));
    assert r in lanes[0].backlog && r in lanes[1].backlog;
    assert ready == [lanes[0].ready, lanes[1].ready];
    BothLanes(lanes, "t");
    hide FirstListing, Diagnosed, FirstAt, Recorded, LaneEntries, First, ReadySets, Unrouted, FirstReports;
    LocalListAgreesWithFanOut(lanes, "t");
    ReportedReason(ready, "t");
  }

  lemma SoleDiagnostic(d: Diagnostic)
    ensures forall id :: Mentions([d], id) <==> id == d.subject
    ensures forall id :: !Mentions([], id)
  {
    assert [d][1..] == [];
  }

  lemma BothLanes(lanes: seq<LocalLane>, ticket: string)
    requires |lanes| == 2 && ListsTicket(lanes[0], ticket)
    ensures FirstListing(lanes, ticket) == Some(lanes[0])
    ensures Diagnosed(ReadySets(lanes)) == lanes[0].ready.diagnostics + lanes[1].ready.diagnostics
  {
    assert lanes[..1] == [lanes[0]] && lanes[..1][..0] == [];
    assert FirstListing(lanes[..1], ticket) == Some(lanes[0]);
    var ready := ReadySets(lanes);
    assert ready[..1] == [lanes[0].ready] && ready[..1][..0] == [];
    assert Diagnosed(ready[..1]) == [] + lanes[0].ready.diagnostics;
  }

  lemma {:induction false} KnownIffListed(lanes: seq<LocalLane>, ticket: string)
    ensures Known(Recorded(lanes), ticket) <==> FirstListing(lanes, ticket).Some?
  {
    if lanes != [] {
      var front, last := lanes[..|lanes| - 1], lanes[|lanes| - 1];
      KnownIffListed(front, ticket);
      FirstOfReadinesses(last.backlog, last.ready, last.status, ticket, false);
      FirstAppend(Recorded(front), LaneEntries(last), ticket, false);
      hide First, LaneEntries, ListsTicket;
    }
  }
}
