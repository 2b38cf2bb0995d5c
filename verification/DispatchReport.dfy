/** The machine-readable Dispatch batch of src/cli.rs. */
module DispatchReport {
  import opened Options
  import opened Json
  import opened Text

  datatype DispatchEntry =
    | Dispatched(ticket: string, worker: string, pid: Option<nat>, detail: string)
    | Failed(ticket: string, failedWorker: Option<string>, phase: string, detail: string)
    | Waiting(ticket: string, detail: string)
    | Skipped(ticket: string, detail: string)
    | Search(searchLabel: string, root: Option<string>, detail: string)
    | Orchestrating(ticket: string, detail: string)
  {
    function Ticket(): Option<string> {
      if Search? then None else Some(ticket)
    }

    function Outcome(): string {
      match this
      case Dispatched(_, _, _, _) => "dispatched"
      case Failed(_, _, _, _) => "failed"
      case Waiting(_, _) => "waiting"
      case Skipped(_, _) => "skipped"
      case Search(_, _, _) => "skipped"
      case Orchestrating(_, _) => "orchestrating"
    }

    function Worker(): Option<string> {
      match this
      case Dispatched(_, worker, _, _) => Some(worker)
      case Failed(_, worker, _, _) => worker
      case _ => None
    }

    function Phase(): Option<string> {
      if Failed? then Some(phase) else None
    }

    function Pid(): Option<nat> {
      if Dispatched? then pid else None
    }
  }

  function OptionalText(value: Option<string>): Value {
    match value
    case Some(text) => Str(text)
    case None => Null
  }

  predicate IsField(member: Member) {
    IsPlain(member.key) && (member.value.Null? || member.value.Str? || member.value.Num?)
  }

  /** The members one entry reports, in their fixed order. */
  function Fields(entry: DispatchEntry): (fields: seq<Member>)
    ensures forall i | 0 <= i < |fields| :: IsField(fields[i])
  {
    [ Member("ticket", OptionalText(entry.Ticket())),
      Member("outcome", Str(entry.Outcome())),
      Member("worker", OptionalText(entry.Worker())),
      Member("phase", OptionalText(entry.Phase())),
      Member("pid", if entry.Pid().Some? then Num(entry.Pid().value) else Null) ]
    + (if entry.Search? then [Member("label", Str(entry.searchLabel)), Member("root", OptionalText(entry.root))] else [])
    + [Member("detail", Str(entry.detail))]
  }

  function FieldText(member: Member): string
    requires IsField(member)
  {
    "\"" + member.key + "\": " + Scalar(member.value)
  }

  function FieldTexts(fields: seq<Member>): seq<string>
    requires forall i | 0 <= i < |fields| :: IsField(fields[i])
  {
    seq(|fields|, i requires 0 <= i < |fields| => FieldText(fields[i]))
  }

  function EntryText(entry: DispatchEntry): string {
    "{" + ("\n    " + Joined(FieldTexts(Fields(entry)), ",\n    ")) + ("\n  " + "}")
  }

  function EntryTexts(entries: seq<DispatchEntry>): seq<string> {
    seq(|entries|, i requires 0 <= i < |entries| => EntryText(entries[i]))
  }

  function BatchText(entries: seq<DispatchEntry>): string {
    if entries == [] then "[]"
    else "[" + ("\n  " + Joined(EntryTexts(entries), ",\n  ")) + ("\n" + "]")
  }

  /** One scalar, encoded as the field writers do. */
  method JsonScalar(value: Value) returns (out: string)
    requires value.Null? || value.Str? || value.Num?
    ensures out == Scalar(value)
  {
    match value {
      case Null => out := "null";
      case Str(text) => out := JsonString(text);
      case Num(number) => out := Decimal(number);
    }
  }

  /** What a writer has put out after some of its lines: each on a line of its own,
      indented, with a comma between two. */
  function Lines(open: string, indent: string, texts: seq<string>): string {
    open + (if texts == [] then "" else indent + Joined(texts, ",\n" + indent))
  }

  lemma LinesSnoc(open: string, indent: string, texts: seq<string>, text: string)
    ensures Lines(open, indent, texts + [text])
         == Lines(open, indent, texts) + (if texts == [] then "" else ",\n") + indent + text
  {
    JoinedSnoc(texts, text, ",\n" + indent);
  }

  /** Puts one more line out, after a comma unless it is the first. */
  method WriteLine(out: string, first: bool, indent: string, text: string, ghost open: string, ghost texts: seq<string>)
    returns (grown: string)
    requires out == Lines(open, indent, texts) && first == (texts == [])
    ensures grown == Lines(open, indent, texts + [text])
  {
    LinesSnoc(open, indent, texts, text);
    grown := out;
    if !first {
      grown := grown + ",\n";
    }
    grown := grown + indent + text;
  }

  lemma LinesClose(bracket: string, indent: string, texts: seq<string>, close: string)
    requires texts != []
    ensures Lines(bracket + "\n", indent, texts) + close
         == bracket + ("\n" + indent + Joined(texts, ",\n" + indent)) + close
  {
  }

  method DispatchJson(entries: seq<DispatchEntry>) returns (out: string)
    ensures out == BatchText(entries)
  {
    if entries == [] {
      return "[]";
    }
    out := "[\n";
    for index := 0 to |entries|
      invariant out == Lines("[\n", "  ", EntryTexts(entries[..index]))
    {
      EntryTextsSnoc(entries, index);
      var text := EntryJson(entries[index]);
      out := WriteLine(out, index == 0, "  ", text, "[\n", EntryTexts(entries[..index]));
    }
    assert entries[..|entries|] == entries;
    BatchCloses(entries);
    out := out + "\n]";
  }

  lemma EntryTextsSnoc(entries: seq<DispatchEntry>, index: nat)
    requires index < |entries|
    ensures EntryTexts(entries[..index + 1]) == EntryTexts(entries[..index]) + [EntryText(entries[index])]
    ensures EntryTexts(entries[..index]) == [] <==> index == 0
  {
  }

  lemma BatchCloses(entries: seq<DispatchEntry>)
    requires entries != []
    ensures Lines("[\n", "  ", EntryTexts(entries)) + "\n]" == BatchText(entries)
  {
    LinesClose("[", "  ", EntryTexts(entries), "\n]");
    assert "[" + "\n" == "[\n" && "\n" + "  " == "\n  " && ",\n" + "  " == ",\n  ";
  }

  method EntryJson(entry: DispatchEntry) returns (out: string)
    ensures out == EntryText(entry)
  {
    hide EntryText, FieldText;
    var fields := Fields(entry);
    ghost var texts := FieldTexts(fields);
    out := "{\n";
    for i := 0 to |fields|
      invariant out == Lines("{\n", "    ", texts[..i])
    {
      assert texts[..i + 1] == texts[..i] + [texts[i]];
      var text := FieldJson(fields[i]);
      out := WriteLine(out, i == 0, "    ", text, "{\n", texts[..i]);
    }
    assert texts[..|fields|] == texts;
    EntryCloses(entry);
    out := out + "\n  }";
  }

  method FieldJson(field: Member) returns (out: string)
    requires IsField(field)
    ensures out == FieldText(field)
  {
    var value := JsonScalar(field.value);
    out := "\"" + field.key + "\": " + value;
  }

  lemma EntryCloses(entry: DispatchEntry)
    ensures Lines("{\n", "    ", FieldTexts(Fields(entry))) + "\n  }" == EntryText(entry)
  {
    LinesClose("{", "    ", FieldTexts(Fields(entry)), "\n  }");
    assert "{" + "\n" == "{\n" && "\n" + "    " == "\n    " && ",\n" + "    " == ",\n    ";
  }

  lemma EntryReads(entry: DispatchEntry)
    ensures Reads(EntryText(entry), Obj(Fields(entry)))
  {
    var fields := Fields(entry);
    forall i | 0 <= i < |fields|
      ensures ReadsMember(FieldTexts(fields)[i], fields[i])
    {
      MemberReads(fields[i]);
    }
    ObjectReads(FieldTexts(fields), fields, "\n    ", "\n    ", "\n  ");
    assert "," + "\n    " == ",\n    ";
  }

  /** The batch decodes to one object per entry, in request order, each with its
      fields in their fixed order: the separators stand where RFC 8259 wants them,
      for every batch and whatever text the fields carry. */
  lemma BatchRoundTrip(entries: seq<DispatchEntry>)
    ensures Decode(BatchText(entries))
         == Some(Arr(seq(|entries|, i requires 0 <= i < |entries| => Obj(Fields(entries[i])))))
  {
    var objects := seq(|entries|, i requires 0 <= i < |entries| => Obj(Fields(entries[i])));
    if entries == [] {
      EmptyArrayDecodes();
      assert objects == [];
    } else {
      forall i | 0 <= i < |entries|
        ensures Reads(EntryTexts(entries)[i], objects[i])
      {
        EntryReads(entries[i]);
      }
      ArrayReads(EntryTexts(entries), objects, "\n  ", "\n  ", "\n");
      assert "," + "\n  " == ",\n  ";
      ReadsDecodes(BatchText(entries), Arr(objects));
    }
  }

  // ----- What an entry says -----

  /** What an entry of each kind says under every key. */
  predicate Says(
    entry: DispatchEntry, ticket: Value, outcome: string, worker: Value, phase: Value, pid: Value, detail: string)
  {
    Fields(entry)[..5] + [Fields(entry)[|Fields(entry)| - 1]]
    == [ Member("ticket", ticket), Member("outcome", Str(outcome)), Member("worker", worker), Member("phase", phase),
         Member("pid", pid), Member("detail", Str(detail)) ]
  }

  lemma DispatchedSays(ticket: string, worker: string, pid: Option<nat>, detail: string)
    ensures Says(Dispatched(ticket, worker, pid, detail), Str(ticket), "dispatched", Str(worker), Null,
                 if pid.Some? then Num(pid.value) else Null, detail)
  {
  }

  lemma FailedSays(ticket: string, worker: Option<string>, phase: string, detail: string)
    ensures Says(Failed(ticket, worker, phase, detail), Str(ticket), "failed",
                 if worker.Some? then Str(worker.value) else Null, Str(phase), Null, detail)
  {
  }

  lemma HeldSays(ticket: string, detail: string)
    ensures Says(Waiting(ticket, detail), Str(ticket), "waiting", Null, Null, Null, detail)
    ensures Says(Skipped(ticket, detail), Str(ticket), "skipped", Null, Null, Null, detail)
    ensures Says(Orchestrating(ticket, detail), Str(ticket), "orchestrating", Null, Null, Null, detail)
  {
  }

  lemma SearchSays(searched: string, root: Option<string>, detail: string)
    ensures Says(Search(searched, root, detail), Null, "skipped", Null, Null, Null, detail)
    ensures Fields(Search(searched, root, detail))[5..7]
         == [Member("label", Str(searched)), Member("root", if root.Some? then Str(root.value) else Null)]
    ensures |Fields(Search(searched, root, detail))| == 8
  {
  }

  /** No two entries read alike: what a reader gets back decides the entry. */
  lemma FieldsDecideTheEntry(a: DispatchEntry, b: DispatchEntry)
    requires Fields(a) == Fields(b)
    ensures a == b
  {
    assert Fields(a)[0] == Fields(b)[0] && Fields(a)[1] == Fields(b)[1] && Fields(a)[2] == Fields(b)[2];
    assert Fields(a)[3] == Fields(b)[3] && Fields(a)[4] == Fields(b)[4] && |Fields(a)| == |Fields(b)|;
    assert Fields(a)[|Fields(a)| - 1] == Fields(b)[|Fields(b)| - 1];
    assert a.Search? <==> |Fields(a)| == 8;
    assert b.Search? <==> |Fields(b)| == 8;
    if a.Search? {
      assert Fields(a)[5] == Fields(b)[5] && Fields(a)[6] == Fields(b)[6];
    } else {
      OutcomesDiffer(a, b);
    }
  }

  lemma OutcomesDiffer(a: DispatchEntry, b: DispatchEntry)
    requires !a.Search? && !b.Search? && a.Outcome() == b.Outcome()
    ensures a.Dispatched? <==> b.Dispatched?
    ensures a.Failed? <==> b.Failed?
    ensures a.Waiting? <==> b.Waiting?
    ensures a.Skipped? <==> b.Skipped?
  {
    assert "dispatched"[0] == 'd' && "failed"[0] == 'f' && "waiting"[0] == 'w' && "skipped"[0] == 's';
    assert "orchestrating"[0] == 'o';
  }
}
