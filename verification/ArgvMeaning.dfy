/** What a `dispatch` command line means, told by its words alone: for any line, when it is
    accepted, what is then parsed, and that every refusal is true of the line. */
module ArgvMeaning {
  import opened Options
  import opened Text
  import opened AdHocSources
  import opened Argv

  // ----- The line as options and plain words -----

  /** The options that take the next word as their value. */
  predicate TakesValue(word: string) {
    || word == "--text" || word == "--from-file" || word == "--id" || word == "--provider"
    || word == "--model" || word == "--label" || word == "--budget" || word == "--pool"
  }

  predicate Standalone(word: string) {
    || word == "--fg" || word == "--bg" || word == "--all" || word == "--no-orchestrate"
    || word == "--force" || word == "--json" || word == "-"
  }

  /** One word that is not consumed as a value, with the value it consumes. */
  datatype Item = Item(word: string, value: Option<string>)

  function Items(args: seq<string>): seq<Item>
    decreases |args|
  {
    if args == [] then []
    else if TakesValue(args[0]) && |args| > 1 then [Item(args[0], Some(args[1]))] + Items(args[2..])
    else [Item(args[0], None)] + Items(args[1..])
  }

  predicate Has(items: seq<Item>, word: string) {
    exists i | 0 <= i < |items| :: items[i].word == word
  }

  /** The value of the last such option. */
  function LastOf(items: seq<Item>, word: string): Option<string> {
    if items == [] then None
    else if items[|items| - 1].word == word then items[|items| - 1].value
    else LastOf(items[..|items| - 1], word)
  }

  /** The words that start with no dash, in order. */
  function Plain(items: seq<Item>): seq<string> {
    if items == [] then []
    else
      var last := items[|items| - 1];
      Plain(items[..|items| - 1]) + (if StartsWithDash(last.word) then [] else [last.word])
  }

  predicate IsMode(item: Item) {
    item.word == "--fg" || item.word == "--bg"
  }

  predicate IsSource(item: Item) {
    item.word == "--text" || item.word == "--from-file" || item.word == "-"
  }

  /** Where the Ticket comes from, by the last option that says. */
  function SourceOf(items: seq<Item>): Option<AdHocSource> {
    if items == [] then None
    else
      var last := items[|items| - 1];
      if last.word == "--text" && last.value.Some? then Some(FreeText(last.value.value))
      else if last.word == "-" || (last.word == "--from-file" && last.value == Some("-")) then Some(Stdin)
      else if last.word == "--from-file" && last.value.Some? then Some(File(last.value.value))
      else SourceOf(items[..|items| - 1])
  }

  predicate IsBudget(value: string) {
    ParseU32(value).Some? && ParseU32(value).value > 0
  }

  /** A word that may stand on a line by itself: a plain word, a known option, and with it
      a value that starts with no dash, except for a file, and that is a number for a
      budget. */
  predicate Allowed(item: Item) {
    if TakesValue(item.word) then
      && item.value.Some?
      && (item.word == "--from-file" || !StartsWithDash(item.value.value))
      && (item.word == "--budget" ==> IsBudget(item.value.value))
    else Standalone(item.word) || !StartsWithDash(item.word)
  }

  /** And beside the others: one mode and one source at most. */
  predicate Proper(items: seq<Item>) {
    && (forall i | 0 <= i < |items| :: Allowed(items[i]))
    && (forall i, j | 0 <= i < j < |items| :: !(IsMode(items[i]) && IsMode(items[j])))
    && (forall i, j | 0 <= i < j < |items| :: !(IsSource(items[i]) && IsSource(items[j])))
  }

  /** Exactly one of Tickets, `--all` and a source; `--id` only with a source; a budget for a
      single Ticket only without orchestration. */
  predicate Exclusive(items: seq<Item>) {
    && (Plain(items) != [] ==> !Has(items, "--all") && SourceOf(items).None?)
    && (Has(items, "--all") ==> SourceOf(items).None?)
    && (Has(items, "--id") ==> SourceOf(items).Some?)
    && (Plain(items) != [] || Has(items, "--all") || SourceOf(items).Some?)
    && (Has(items, "--budget") && |Plain(items)| == 1 ==> Has(items, "--no-orchestrate"))
  }

  function Meant(items: seq<Item>): DispatchArgs {
    DispatchArgs(
      Plain(items),
      Has(items, "--all"),
      if Has(items, "--fg") then Foreground else Background,
      LastOf(items, "--provider"),
      LastOf(items, "--model"),
      BudgetMeant(items),
      LastOf(items, "--label"),
      LastOf(items, "--pool"),
      Has(items, "--no-orchestrate"),
      Has(items, "--force"),
      Has(items, "--json"),
      if SourceOf(items).Some? then Some(AdHocInput(SourceOf(items).value, LastOf(items, "--id"))) else None)
  }

  function BudgetMeant(items: seq<Item>): Option<nat> {
    match LastOf(items, "--budget")
    case Some(value) => ParseU32(value)
    case None => None
  }

  // ----- The loop, item by item -----

  function StepItem(draft: Draft, item: Item): Result<Draft, ParseError> {
    var token := Lex(item.word);
    if IsValued(token) then
      if item.value.None? then Err(MissingValue(Spell(token))) else TakeValue(draft, token, item.value.value)
    else TakeSwitch(draft, token, item.word)
  }

  function FoldItems(items: seq<Item>): Result<Draft, ParseError> {
    if items == [] then Ok(EMPTY_DRAFT)
    else
      match FoldItems(items[..|items| - 1])
      case Err(error) => Err(error)
      case Ok(draft) => StepItem(draft, items[|items| - 1])
  }

  lemma {:induction false} RefusalStands(items: seq<Item>, more: seq<Item>)
    requires FoldItems(items).Err?
    ensures FoldItems(items + more) == FoldItems(items)
    decreases |more|
  {
    if more == [] {
      assert items + more == items;
    } else {
      var front := more[..|more| - 1];
      assert (items + more)[..|items + more| - 1] == items + front;
      RefusalStands(items, front);
    }
  }

  lemma ValuedWords(word: string)
    ensures IsValued(Lex(word)) <==> TakesValue(word)
    ensures Lex(word).Word? <==> !StartsWithDash(word)
  {
    LexesAs(word);
  }

  /** The loop's match arms, by the words they spell. */
  lemma LexesAs(word: string)
    ensures Lex(word) == Fg <==> word == "--fg"
    ensures Lex(word) == Bg <==> word == "--bg"
    ensures Lex(word) == All <==> word == "--all"
    ensures Lex(word) == NoOrchestrate <==> word == "--no-orchestrate"
    ensures Lex(word) == Force <==> word == "--force"
    ensures Lex(word) == Json <==> word == "--json"
    ensures Lex(word) == Dash <==> word == "-"
    ensures Lex(word) == TextFlag <==> word == "--text"
    ensures Lex(word) == FromFile <==> word == "--from-file"
    ensures Lex(word) == Id <==> word == "--id"
    ensures Lex(word) == Provider <==> word == "--provider"
    ensures Lex(word) == Model <==> word == "--model"
    ensures Lex(word) == Label <==> word == "--label"
    ensures Lex(word) == Budget <==> word == "--budget"
    ensures Lex(word) == Pool <==> word == "--pool"
    ensures Lex(word) == Help <==> word == "--help" || word == "-h"
    ensures Lex(word) == Word <==> !StartsWithDash(word)
  {
    SpellingOfLex(word);
    LexOfSpelling(Fg);
    LexOfSpelling(Bg);
    LexOfSpelling(All);
    LexOfSpelling(NoOrchestrate);
    LexOfSpelling(Force);
    LexOfSpelling(Json);
    LexOfSpelling(Dash);
    LexOfSpelling(TextFlag);
    LexOfSpelling(FromFile);
    LexOfSpelling(Id);
    LexOfSpelling(Provider);
    LexOfSpelling(Model);
    LexOfSpelling(Label);
    LexOfSpelling(Budget);
    LexOfSpelling(Pool);
    LexesRest(word);
    hide Lex;
  }

  lemma LexesRest(word: string)
    ensures Lex(word) == Help <==> word == "--help" || word == "-h"
    ensures Lex(word) == Word <==> !StartsWithDash(word)
  {
    assert "--help"[2] == 'h' && "-h"[1] == 'h' && |"-h"| == 2;
    assert "--fg"[2] == 'f' && "--bg"[2] == 'b' && "--id"[2] == 'i' && "--all"[2] == 'a';
    assert "--json"[2] == 'j' && "--text"[2] == 't' && "--pool"[2] == 'p' && "--force"[2] == 'f';
    assert "--from-file"[2] == 'f' && "--no-orchestrate"[2] == 'n' && "--provider"[2] == 'p';
    assert "--model"[2] == 'm' && "--label"[2] == 'l' && "--budget"[2] == 'b' && |"-"| == 1;
  }

  function FirstItem(args: seq<string>): Item
    requires args != []
  {
    if TakesValue(args[0]) && |args| > 1 then Item(args[0], Some(args[1])) else Item(args[0], None)
  }

  function TakenBy(args: seq<string>): (taken: nat)
    requires args != []
    ensures 0 < taken <= |args|
  {
    if TakesValue(args[0]) && |args| > 1 then 2 else 1
  }

  /** One turn of the loop is one item. */
  lemma TurnIsItem(args: seq<string>, draft: Draft)
    requires args != []
    ensures Items(args) == [FirstItem(args)] + Items(args[TakenBy(args)..])
    ensures Turn(args, draft)
         == match StepItem(draft, FirstItem(args))
            case Ok(next) => Ok((next, TakenBy(args)))
            case Err(error) => Err(error)
  {
    ValuedWords(args[0]);
    hide Lex, Spell, TakeValue, TakeSwitch, TakesValue, IsValued;
  }

  lemma FoldSnoc(items: seq<Item>, last: Item)
    ensures FoldItems(items + [last])
         == match FoldItems(items) case Err(error) => Err(error) case Ok(draft) => StepItem(draft, last)
  {
    assert (items + [last])[..|items|] == items;
  }

  /** The loop over words is the loop over items. */
  lemma {:induction false} TurnsAreItems(done: seq<Item>, args: seq<string>)
    requires FoldItems(done).Ok?
    ensures Turns(args, FoldItems(done).value) == FoldItems(done + Items(args))
    decreases |args|
  {
    hide Turn, StepItem, FoldItems, FirstItem, TakenBy;
    if args == [] {
      assert done + Items(args) == done;
    } else {
      var item, rest := FirstItem(args), args[TakenBy(args)..];
      TurnIsItem(args, FoldItems(done).value);
      FoldSnoc(done, item);
      assert done + Items(args) == done + [item] + Items(rest);
      if FoldItems(done + [item]).Ok? {
        TurnsAreItems(done + [item], rest);
      } else {
        RefusalStands(done + [item], Items(rest));
      }
    }
  }

  // ----- What the loop has gathered -----

  /** The draft holds exactly what the items say. */
  predicate Gathers(items: seq<Item>, draft: Draft) {
    GathersSwitches(items, draft) && GathersValues(items, draft)
  }

  predicate GathersSwitches(items: seq<Item>, draft: Draft) {
    && draft.tickets == Plain(items)
    && (draft.all <==> Has(items, "--all"))
    && (draft.noOrchestrate <==> Has(items, "--no-orchestrate"))
    && (draft.force <==> Has(items, "--force"))
    && (draft.json <==> Has(items, "--json"))
    && draft.mode == (if Has(items, "--fg") then Some(Foreground) else if Has(items, "--bg") then Some(Background) else None)
  }

  predicate GathersValues(items: seq<Item>, draft: Draft) {
    && draft.provider == LastOf(items, "--provider")
    && draft.model == LastOf(items, "--model")
    && draft.ticketLabel == LastOf(items, "--label")
    && draft.pool == LastOf(items, "--pool")
    && draft.id == LastOf(items, "--id")
    && draft.budget == BudgetMeant(items)
    && draft.input == SourceOf(items)
  }

  lemma HasSnoc(items: seq<Item>, last: Item, word: string)
    ensures Has(items + [last], word) <==> Has(items, word) || last.word == word
  {
    var grown := items + [last];
    assert grown[|items|] == last;
    assert forall i | 0 <= i < |items| :: grown[i] == items[i];
  }

  lemma PlainSnoc(items: seq<Item>, last: Item)
    ensures Plain(items + [last]) == Plain(items) + (if StartsWithDash(last.word) then [] else [last.word])
  {
    assert (items + [last])[..|items|] == items;
  }

  lemma LastOfSnoc(items: seq<Item>, last: Item, word: string)
    ensures LastOf(items + [last], word) == if last.word == word then last.value else LastOf(items, word)
  {
    assert (items + [last])[..|items|] == items;
  }

  lemma SwitchesSnoc(items: seq<Item>, last: Item)
    ensures var grown := items + [last];
      && (Has(grown, "--all") <==> Has(items, "--all") || last.word == "--all")
      && (Has(grown, "--no-orchestrate") <==> Has(items, "--no-orchestrate") || last.word == "--no-orchestrate")
      && (Has(grown, "--force") <==> Has(items, "--force") || last.word == "--force")
      && (Has(grown, "--json") <==> Has(items, "--json") || last.word == "--json")
      && (Has(grown, "--fg") <==> Has(items, "--fg") || last.word == "--fg")
      && (Has(grown, "--bg") <==> Has(items, "--bg") || last.word == "--bg")
  {
    hide Has;
    HasSnoc(items, last, "--all");
    HasSnoc(items, last, "--no-orchestrate");
    HasSnoc(items, last, "--force");
    HasSnoc(items, last, "--json");
    HasSnoc(items, last, "--fg");
    HasSnoc(items, last, "--bg");
  }

  lemma ValuesSnoc(items: seq<Item>, last: Item)
    ensures var grown := items + [last];
      && LastOf(grown, "--provider") == (if last.word == "--provider" then last.value else LastOf(items, "--provider"))
      && LastOf(grown, "--model") == (if last.word == "--model" then last.value else LastOf(items, "--model"))
      && LastOf(grown, "--label") == (if last.word == "--label" then last.value else LastOf(items, "--label"))
      && LastOf(grown, "--pool") == (if last.word == "--pool" then last.value else LastOf(items, "--pool"))
      && LastOf(grown, "--id") == (if last.word == "--id" then last.value else LastOf(items, "--id"))
      && LastOf(grown, "--budget") == (if last.word == "--budget" then last.value else LastOf(items, "--budget"))
  {
    hide LastOf;
    LastOfSnoc(items, last, "--provider");
    LastOfSnoc(items, last, "--model");
    LastOfSnoc(items, last, "--label");
    LastOfSnoc(items, last, "--pool");
    LastOfSnoc(items, last, "--id");
    LastOfSnoc(items, last, "--budget");
  }

  /** The modes and sources of the items, and nothing beside them. */
  lemma {:induction false} ModeGiven(items: seq<Item>)
    ensures Has(items, "--fg") || Has(items, "--bg") <==> exists i | 0 <= i < |items| :: IsMode(items[i])
  {
    if i :| 0 <= i < |items| && IsMode(items[i]) {
      assert items[i].word == "--fg" || items[i].word == "--bg";
    }
  }

  lemma {:induction false} SourceGiven(items: seq<Item>)
    requires forall i | 0 <= i < |items| :: Allowed(items[i])
    ensures SourceOf(items).Some? <==> exists i | 0 <= i < |items| :: IsSource(items[i])
  {
    if items != [] {
      var front, last := items[..|items| - 1], items[|items| - 1];
      assert forall i | 0 <= i < |front| :: front[i] == items[i];
      SourceGiven(front);
      assert Allowed(last);
    }
  }

  lemma NextSource(items: seq<Item>, last: Item)
    ensures SourceOf(items + [last])
         == if last.word == "--text" && last.value.Some? then Some(FreeText(last.value.value))
            else if last.word == "-" || (last.word == "--from-file" && last.value == Some("-")) then Some(Stdin)
            else if last.word == "--from-file" && last.value.Some? then Some(File(last.value.value))
            else SourceOf(items)
  {
    assert (items + [last])[..|items|] == items;
  }

  lemma StepAccepts(draft: Draft, item: Item)
    ensures StepItem(draft, item).Ok? <==>
              Allowed(item) && (IsMode(item) ==> draft.mode.None?) && (IsSource(item) ==> draft.input.None?)
  {
    LexesAs(item.word);
    hide Lex, Spell, ParseU32;
  }

  lemma SwitchGathers(items: seq<Item>, draft: Draft, last: Item)
    requires Gathers(items, draft) && StepItem(draft, last).Ok? && !IsValued(Lex(last.word))
    ensures Gathers(items + [last], StepItem(draft, last).value)
  {
    SwitchGathersSwitches(items, draft, last);
    SwitchKeepsValues(items, draft, last);
    hide GathersSwitches, GathersValues, StepItem;
  }

  lemma SwitchGathersSwitches(items: seq<Item>, draft: Draft, last: Item)
    requires GathersSwitches(items, draft) && StepItem(draft, last).Ok? && !IsValued(Lex(last.word))
    ensures GathersSwitches(items + [last], StepItem(draft, last).value)
  {
    hide Lex, Spell, Plain, Has, ParseU32, TakeValue;
    LexesAs(last.word);
    PlainSnoc(items, last);
    SwitchesSnoc(items, last);
  }

  lemma SwitchKeepsValues(items: seq<Item>, draft: Draft, last: Item)
    requires GathersValues(items, draft) && StepItem(draft, last).Ok? && !IsValued(Lex(last.word))
    ensures GathersValues(items + [last], StepItem(draft, last).value)
  {
    hide Lex, Spell, LastOf, SourceOf, ParseU32, TakeValue;
    LexesAs(last.word);
    ValuesSnoc(items, last);
    NextSource(items, last);
  }

  lemma ModesExclude(items: seq<Item>, draft: Draft)
    requires Gathers(items, draft)
    ensures draft.mode.None? <==> !Has(items, "--fg") && !Has(items, "--bg")
  {
    hide Has, Plain, LastOf, SourceOf;
  }

  lemma ValueGathers(items: seq<Item>, draft: Draft, last: Item)
    requires Gathers(items, draft) && StepItem(draft, last).Ok? && IsValued(Lex(last.word))
    ensures Gathers(items + [last], StepItem(draft, last).value)
  {
    ValueKeepsSwitches(items, draft, last);
    ValueGathersValues(items, draft, last);
    hide GathersSwitches, GathersValues, StepItem;
  }

  lemma ValueKeepsSwitches(items: seq<Item>, draft: Draft, last: Item)
    requires GathersSwitches(items, draft) && StepItem(draft, last).Ok? && IsValued(Lex(last.word))
    ensures GathersSwitches(items + [last], StepItem(draft, last).value)
  {
    hide Lex, Spell, Plain, Has, ParseU32, TakeSwitch;
    LexesAs(last.word);
    PlainSnoc(items, last);
    SwitchesSnoc(items, last);
  }

  lemma ValueGathersValues(items: seq<Item>, draft: Draft, last: Item)
    requires GathersValues(items, draft) && StepItem(draft, last).Ok? && IsValued(Lex(last.word))
    ensures GathersValues(items + [last], StepItem(draft, last).value)
  {
    hide Lex, Spell, LastOf, SourceOf, ParseU32, TakeSwitch;
    LexesAs(last.word);
    ValuesSnoc(items, last);
    NextSource(items, last);
  }

  /** Exactly the proper lines are taken, and then all they say is gathered. */
  lemma {:induction false} FoldMeaning(items: seq<Item>)
    ensures FoldItems(items).Ok? <==> Proper(items)
    ensures FoldItems(items).Ok? ==> Gathers(items, FoldItems(items).value)
  {
    if items != [] {
      var front, last := items[..|items| - 1], items[|items| - 1];
      assert items == front + [last];
      FoldMeaning(front);
      FoldSnoc(front, last);
      ProperSnoc(front, last);
      if FoldItems(front).Ok? {
        var draft := FoldItems(front).value;
        StepAccepts(draft, last);
        ModesExclude(front, draft);
        ModeGiven(front);
        SourceGiven(front);
        if StepItem(draft, last).Ok? {
          if IsValued(Lex(last.word)) {
            ValueGathers(front, draft, last);
          } else {
            SwitchGathers(front, draft, last);
          }
        }
        GatheredSource(front, draft);
      }
      hide Gathers, StepItem, Allowed, IsMode, IsSource, FoldItems, SourceOf, Has, Lex;
    }
  }

  lemma GatheredSource(items: seq<Item>, draft: Draft)
    requires Gathers(items, draft)
    ensures draft.input == SourceOf(items)
  {
  }

  lemma ProperSnoc(front: seq<Item>, last: Item)
    ensures Proper(front + [last]) <==>
              && Proper(front) && Allowed(last)
              && (IsMode(last) ==> forall i | 0 <= i < |front| :: !IsMode(front[i]))
              && (IsSource(last) ==> forall i | 0 <= i < |front| :: !IsSource(front[i]))
  {
    var items := front + [last];
    hide Allowed, IsMode, IsSource;
    assert forall i | 0 <= i < |front| :: items[i] == front[i];
    assert items[|front|] == last;
    if Proper(items) {
      assert forall i | 0 <= i < |front| :: Allowed(front[i]) && !(IsMode(items[i]) && IsMode(items[|front|]));
      assert forall i | 0 <= i < |front| :: !(IsSource(items[i]) && IsSource(items[|front|]));
    }
  }

  // ----- The line -----

  /** A line is accepted exactly when its words are proper and exclude each other as the
      rules say, and then it is parsed to what its words mean: the mode is foreground when
      `--fg` is there and background otherwise, each switch is set when it is there, each
      option has the last value given, and the Tickets are the plain words in order. */
  lemma DispatchMeaning(args: seq<string>)
    ensures var items := Items(args);
      && (Dispatch(args).Ok? <==> Proper(items) && Exclusive(items))
      && (Dispatch(args).Ok? ==> Dispatch(args).value == Meant(items))
  {
    var items := Items(args);
    TurnsAreItems([], args);
    assert [] + items == items;
    FoldMeaning(items);
    CheckPassesWhatLoopTakes(args);
    if FoldItems(items).Ok? {
      FinishMeaning(items, FoldItems(items).value);
    }
    hide Turns, UnknownFlag, FoldItems, Items, Proper, Exclusive, Finish, Meant, Gathers;
  }

  lemma FinishMeaning(items: seq<Item>, draft: Draft)
    requires Gathers(items, draft) && Proper(items)
    ensures Finish(draft).Ok? <==> Exclusive(items)
    ensures Finish(draft).Ok? ==> Finish(draft).value == Meant(items)
  {
    GivenHasValue(items, "--id");
    GivenHasValue(items, "--budget");
    BudgetIsParsed(items);
    hide Has, Plain, LastOf, SourceOf, ParseU32, Proper;
  }

  lemma {:induction false} GivenHasValue(items: seq<Item>, word: string)
    requires Proper(items) && TakesValue(word)
    ensures Has(items, word) <==> LastOf(items, word).Some?
    ensures LastOf(items, word).Some? ==> Allowed(Item(word, LastOf(items, word)))
  {
    if items != [] {
      var front, last := items[..|items| - 1], items[|items| - 1];
      assert items == front + [last];
      ProperSnoc(front, last);
      HasSnoc(front, last, word);
      GivenHasValue(front, word);
    }
  }

  lemma BudgetIsParsed(items: seq<Item>)
    requires Proper(items)
    ensures BudgetMeant(items).Some? <==> LastOf(items, "--budget").Some?
  {
    GivenHasValue(items, "--budget");
    hide ParseU32;
  }

  // ----- Refusals -----

  predicate LacksValue(item: Item) {
    && TakesValue(item.word)
    && (item.value.None? || (item.word != "--from-file" && StartsWithDash(item.value.value)))
  }

  /** What an error says of the line. */
  predicate Complains(items: seq<Item>, error: ParseError) {
    match error
    case NotAFlag(word) => Has(items, word) && (word == "--help" || word == "-h")
    case UnknownOption(word) => Has(items, word) && StartsWithDash(word) && !TakesValue(word) && !Standalone(word)
    case MissingValue(option) => exists i | 0 <= i < |items| :: items[i].word == option && LacksValue(items[i])
    case InvalidBudget(value) => !IsBudget(value) && exists i | 0 <= i < |items| :: items[i] == Item("--budget", Some(value))
    case TwoModes => exists i, j | 0 <= i < j < |items| :: IsMode(items[i]) && IsMode(items[j])
    case TwoSources => exists i, j | 0 <= i < j < |items| :: IsSource(items[i]) && IsSource(items[j])
    case AllWithTickets => Has(items, "--all") && Plain(items) != []
    case InputWithAll => SourceOf(items).Some? && Has(items, "--all")
    case InputWithTickets => SourceOf(items).Some? && Plain(items) != []
    case IdWithoutInput => Has(items, "--id") && SourceOf(items).None?
    case Usage => Plain(items) == [] && !Has(items, "--all") && SourceOf(items).None?
    case BudgetNeedsNoOrchestrate =>
      Has(items, "--budget") && |Plain(items)| == 1 && !Has(items, "--no-orchestrate")
    case Duplicate(_) => false
  }

  /** The complaints a single word or a pair of words is enough for. */
  predicate OfWords(error: ParseError) {
    || error.NotAFlag? || error.UnknownOption? || error.MissingValue? || error.InvalidBudget?
    || error.TwoModes? || error.TwoSources?
  }

  lemma ComplaintStays(items: seq<Item>, before: seq<Item>, after: seq<Item>, error: ParseError)
    requires OfWords(error) && Complains(items, error)
    ensures Complains(before + items + after, error)
  {
    var all := before + items + after;
    assert forall i | 0 <= i < |items| :: all[|before| + i] == items[i];
    hide LacksValue, IsMode, IsSource, Plain, SourceOf, IsBudget, TakesValue, Standalone;
    match error
    case NotAFlag(word) =>
      var i :| 0 <= i < |items| && items[i].word == word;
      assert all[|before| + i].word == word;
    case UnknownOption(word) =>
      var i :| 0 <= i < |items| && items[i].word == word;
      assert all[|before| + i].word == word;
    case MissingValue(option) =>
      var i :| 0 <= i < |items| && items[i].word == option && LacksValue(items[i]);
      assert all[|before| + i] == items[i];
    case InvalidBudget(value) =>
      var i :| 0 <= i < |items| && items[i] == Item("--budget", Some(value));
      assert all[|before| + i] == items[i];
    case TwoModes =>
      var i, j :| 0 <= i < j < |items| && IsMode(items[i]) && IsMode(items[j]);
      assert IsMode(all[|before| + i]) && IsMode(all[|before| + j]);
    case TwoSources =>
      var i, j :| 0 <= i < j < |items| && IsSource(items[i]) && IsSource(items[j]);
      assert IsSource(all[|before| + i]) && IsSource(all[|before| + j]);
  }

  /** What one item alone is refused for. */
  lemma StepComplains(draft: Draft, item: Item)
    requires StepItem(draft, item).Err?
    ensures match StepItem(draft, item).error
      case TwoModes => IsMode(item) && draft.mode.Some?
      case TwoSources => IsSource(item) && draft.input.Some?
      case error => OfWords(error) && Complains([item], error)
  {
    hide Lex, Spell, ParseU32, Plain, SourceOf;
    LexesAs(item.word);
    assert [item][0] == item;
    if IsValued(Lex(item.word)) {
      SpellingOfLex(item.word);
    }
  }

  lemma {:induction false} FoldComplains(items: seq<Item>)
    ensures FoldItems(items).Err? ==> OfWords(FoldItems(items).error) && Complains(items, FoldItems(items).error)
  {
    if items != [] && FoldItems(items).Err? {
      var front, last := items[..|items| - 1], items[|items| - 1];
      assert items == front + [last];
      FoldSnoc(front, last);
      if FoldItems(front).Err? {
        FoldComplains(front);
        ComplaintStays(front, [], [last], FoldItems(front).error);
        assert [] + front + [last] == items;
      } else {
        var draft := FoldItems(front).value;
        FoldMeaning(front);
        StepComplains(draft, last);
        PairComplains(front, draft, last);
        var error := StepItem(draft, last).error;
        if !error.TwoModes? && !error.TwoSources? {
          ComplaintStays([last], front, [], error);
          assert front + [last] + [] == items;
        }
      }
      hide FoldItems, StepItem, Complains;
    }
  }

  lemma PairComplains(front: seq<Item>, draft: Draft, last: Item)
    requires Gathers(front, draft) && Proper(front)
    ensures IsMode(last) && draft.mode.Some? ==> Complains(front + [last], TwoModes)
    ensures IsSource(last) && draft.input.Some? ==> Complains(front + [last], TwoSources)
  {
    ModesExclude(front, draft);
    ModeGiven(front);
    SourceGiven(front);
    GatheredSource(front, draft);
    hide Gathers, SourceOf, Has, IsMode, IsSource;
    var items := front + [last];
    assert items[|front|] == last;
    assert forall i | 0 <= i < |front| :: items[i] == front[i];
  }

  /** The flag check complains of a word of the line. */
  lemma {:induction false} CheckComplains(flags: seq<Flag>, args: seq<string>)
    requires forall argument :: Agrees(flags, argument)
    ensures UnknownFlag(flags, args).Some? ==>
      OfWords(UnknownFlag(flags, args).value) && Complains(Items(args), UnknownFlag(flags, args).value)
    decreases |args|
  {
    hide Complains, Items, OfWords, Agrees, Turn, StepItem, UnknownFlag, FirstItem, TakenBy;
    if args != [] {
      var item, rest := FirstItem(args), args[TakenBy(args)..];
      TurnIsItem(args, EMPTY_DRAFT);
      CheckStep(flags, args);
      if UnknownFlag(flags, args).Some? {
        var error := UnknownFlag(flags, args).value;
        if UnknownFlag(flags, args) == UnknownFlag(flags, rest) {
          CheckComplains(flags, rest);
          ComplaintStays(Items(rest), [item], [], error);
          assert [item] + Items(rest) + [] == Items(args);
        } else {
          ComplaintStays([item], [], Items(rest), error);
          assert [] + [item] + Items(rest) == Items(args);
        }
      }
    } else {
      CheckOfNothing(flags);
    }
  }

  lemma CheckOfNothing(flags: seq<Flag>)
    ensures UnknownFlag(flags, []) == None
  {
  }

  lemma CheckStep(flags: seq<Flag>, args: seq<string>)
    requires args != [] && forall argument :: Agrees(flags, argument)
    ensures || UnknownFlag(flags, args) == UnknownFlag(flags, args[TakenBy(args)..])
            || (&& UnknownFlag(flags, args).Some? && OfWords(UnknownFlag(flags, args).value)
                && Complains([FirstItem(args)], UnknownFlag(flags, args).value))
  {
    var word := args[0];
    assert Agrees(flags, word);
    LexesAs(word);
    assert [FirstItem(args)][0].word == word;
    hide Lex, FindFlag, Plain, SourceOf;
  }

  /** Every refusal is true of the line it refuses. */
  lemma RefusalMeaning(args: seq<string>)
    requires Dispatch(args).Err?
    ensures Complains(Items(args), Dispatch(args).error)
  {
    var items := Items(args);
    TableAgreesWithArms();
    CheckComplains(DISPATCH_FLAGS, args);
    TurnsAreItems([], args);
    assert [] + items == items;
    FoldComplains(items);
    FoldMeaning(items);
    if FoldItems(items).Ok? {
      FinishComplains(items, FoldItems(items).value);
    }
    hide Turns, UnknownFlag, FoldItems, Items, Finish, Complains, Gathers, Proper;
  }

  lemma FinishComplains(items: seq<Item>, draft: Draft)
    requires Gathers(items, draft) && Proper(items)
    ensures Finish(draft).Err? ==> Complains(items, Finish(draft).error)
  {
    hide Has, Plain, LastOf, SourceOf, ParseU32, Proper, LacksValue, TakesValue, IsBudget, IsMode, IsSource, Standalone;
    GivenHasValue(items, "--id");
    GivenHasValue(items, "--budget");
    BudgetIsParsed(items);
    assert draft.id.Some? <==> Has(items, "--id");
    assert draft.budget.Some? <==> Has(items, "--budget");
  }

  // ----- Numbers -----

  /** A number is digits, after a plus sign at most, below 2^32. */
  lemma ParseU32Meaning(value: string, n: nat)
    ensures ParseU32(value) == Some(n) <==>
              exists digits: string :: Digits(value, digits) && DecimalValue(digits) == n < U32_LIMIT
  {
    if ParseU32(value) == Some(n) {
      var digits := if value != "" && value[0] == '+' then value[1..] else value;
      assert value[0] == '+' ==> value == "+" + digits;
      assert Digits(value, digits);
    }
    if digits: string :| Digits(value, digits) && DecimalValue(digits) == n < U32_LIMIT {
      if value == "+" + digits {
        assert value[0] == '+' && value[1..] == digits;
      } else {
        assert IsDigit(value[0]);
      }
    }
  }

  predicate Digits(value: string, digits: string) {
    digits != "" && AllDigits(digits) && (value == digits || value == "+" + digits)
  }

  // ----- The detached runner's line -----

  predicate RunnerOption(word: string) {
    word == "--provider" || word == "--model" || word == "--pool"
  }

  /** What the runner takes: `--force`, and each of three options once, with its value. */
  predicate RunnerProper(items: seq<Item>) {
    && (forall i | 0 <= i < |items| :: RunnerAllowed(items[i]))
    && (forall i, j | 0 <= i < j < |items| :: !(RunnerOption(items[i].word) && items[i].word == items[j].word))
  }

  predicate RunnerAllowed(item: Item) {
    item.word == "--force" || (RunnerOption(item.word) && item.value.Some? && !StartsWithDash(item.value.value))
  }

  /** What the runner still takes once it has `o`. */
  predicate RunnerFits(items: seq<Item>, o: Orchestration) {
    && RunnerProper(items)
    && (Has(items, "--provider") ==> o.provider.None?)
    && (Has(items, "--model") ==> o.model.None?)
    && (Has(items, "--pool") ==> o.pool.None?)
  }

  function RunnerMeant(items: seq<Item>, o: Orchestration): Orchestration {
    Orchestration(
      o.parent,
      if Has(items, "--provider") then LastOf(items, "--provider") else o.provider,
      if Has(items, "--model") then LastOf(items, "--model") else o.model,
      o.force || Has(items, "--force"),
      if Has(items, "--pool") then LastOf(items, "--pool") else o.pool)
  }

  lemma HasCons(first: Item, rest: seq<Item>, word: string)
    ensures Has([first] + rest, word) <==> first.word == word || Has(rest, word)
  {
    var items := [first] + rest;
    assert items[0] == first;
    assert forall i | 0 <= i < |rest| :: items[i + 1] == rest[i];
    if i :| 0 <= i < |items| && items[i].word == word {
      assert i == 0 || rest[i - 1].word == word;
    }
  }

  lemma {:induction false} LastOfCons(first: Item, rest: seq<Item>, word: string)
    ensures LastOf([first] + rest, word)
         == if Has(rest, word) then LastOf(rest, word) else if first.word == word then first.value else None
    decreases |rest|
  {
    if rest != [] {
      var front, last := rest[..|rest| - 1], rest[|rest| - 1];
      assert rest == front + [last];
      assert ([first] + rest)[..|rest|] == [first] + front;
      LastOfCons(first, front, word);
      HasSnoc(front, last, word);
      if !Has(front, word) {
        NoneGiven(front, word);
      }
    } else {
      assert ([first] + rest)[..0] == [];
    }
  }

  lemma {:induction false} NoneGiven(items: seq<Item>, word: string)
    requires !Has(items, word)
    ensures LastOf(items, word) == None
  {
    if items != [] {
      var front := items[..|items| - 1];
      assert items == front + [items[|items| - 1]];
      HasSnoc(front, items[|items| - 1], word);
      NoneGiven(front, word);
    }
  }

  lemma RunnerProperCons(first: Item, rest: seq<Item>)
    ensures RunnerProper([first] + rest) <==>
              && RunnerAllowed(first) && RunnerProper(rest)
              && (RunnerOption(first.word) ==> !Has(rest, first.word))
  {
    var items := [first] + rest;
    hide RunnerAllowed, RunnerOption;
    assert items[0] == first;
    assert forall i | 0 <= i < |rest| :: items[i + 1] == rest[i];
    if RunnerProper(items) {
      forall i | 0 <= i < |rest|
        ensures RunnerAllowed(rest[i])
      {
        assert RunnerAllowed(items[i + 1]);
      }
      forall i, j | 0 <= i < j < |rest|
        ensures !(RunnerOption(rest[i].word) && rest[i].word == rest[j].word)
      {
        assert !(RunnerOption(items[i + 1].word) && items[i + 1].word == items[j + 1].word);
      }
      forall j | 0 <= j < |rest|
        ensures RunnerOption(first.word) ==> rest[j].word != first.word
      {
        assert !(RunnerOption(items[0].word) && items[0].word == items[j + 1].word);
      }
    }
    if RunnerAllowed(first) && RunnerProper(rest) && (RunnerOption(first.word) ==> !Has(rest, first.word)) {
      forall i, j | 0 <= i < j < |items|
        ensures !(RunnerOption(items[i].word) && items[i].word == items[j].word)
      {
        assert items[j] == rest[j - 1];
        if i > 0 {
          assert items[i] == rest[i - 1];
        }
      }
      forall i | 0 <= i < |items|
        ensures RunnerAllowed(items[i])
      {
        assert i > 0 ==> items[i] == rest[i - 1];
      }
    }
  }

  lemma {:induction false} RunnerTurnsMeaning(args: seq<string>, o: Orchestration)
    ensures var items := Items(args);
      && (OrchestrateTurns(args, o).Ok? <==> RunnerFits(items, o))
      && (OrchestrateTurns(args, o).Ok? ==> OrchestrateTurns(args, o).value == RunnerMeant(items, o))
    decreases |args|
  {
    if args == [] {
      assert Items(args) == [];
    } else {
      var item, rest := FirstItem(args), args[TakenBy(args)..];
      TurnIsItem(args, EMPTY_DRAFT);
      RunnerTurn(args, o);
      RunnerStep(item, Items(rest), o);
      if RunnerTakes(item, o) {
        RunnerTurnsMeaning(rest, RunnerNext(item, o));
      }
      hide OrchestrateTurns, RunnerFits, RunnerMeant, RunnerTakes, RunnerNext, Items;
    }
  }

  predicate RunnerTakes(item: Item, o: Orchestration) {
    && RunnerAllowed(item)
    && (item.word == "--provider" ==> o.provider.None?)
    && (item.word == "--model" ==> o.model.None?)
    && (item.word == "--pool" ==> o.pool.None?)
  }

  function RunnerNext(item: Item, o: Orchestration): Orchestration {
    if item.word == "--force" then o.(force := true)
    else if item.word == "--provider" then o.(provider := item.value)
    else if item.word == "--model" then o.(model := item.value)
    else o.(pool := item.value)
  }

  lemma RunnerTurn(args: seq<string>, o: Orchestration)
    requires args != []
    ensures var item := FirstItem(args);
      if RunnerTakes(item, o) then OrchestrateTurns(args, o) == OrchestrateTurns(args[TakenBy(args)..], RunnerNext(item, o))
      else OrchestrateTurns(args, o).Err?
  {
    LexesAs(args[0]);
    hide Lex;
  }

  lemma RunnerStep(item: Item, rest: seq<Item>, o: Orchestration)
    ensures RunnerFits([item] + rest, o) <==> RunnerTakes(item, o) && RunnerFits(rest, RunnerNext(item, o))
    ensures RunnerTakes(item, o) && RunnerFits(rest, RunnerNext(item, o)) ==>
              RunnerMeant([item] + rest, o) == RunnerMeant(rest, RunnerNext(item, o))
  {
    RunnerProperCons(item, rest);
    LexesAs(item.word);
    HasCons(item, rest, "--provider");
    HasCons(item, rest, "--model");
    HasCons(item, rest, "--pool");
    HasCons(item, rest, "--force");
    LastOfCons(item, rest, "--provider");
    LastOfCons(item, rest, "--model");
    LastOfCons(item, rest, "--pool");
    hide RunnerProper, Has, LastOf, Lex;
  }

  function Asked(parent: string, items: seq<Item>): Orchestration {
    Orchestration(
      parent, LastOf(items, "--provider"), LastOf(items, "--model"), Has(items, "--force"), LastOf(items, "--pool"))
  }

  /** The runner takes exactly such lines, and reads off them the first word as parent, each
      option's value, and whether it is forced. */
  lemma OrchestrateMeaning(args: seq<string>)
    ensures args == [] ==> Orchestrate(args).Err?
    ensures args != [] ==>
      var items := Items(args[1..]);
      && (Orchestrate(args).Ok? <==> RunnerProper(items))
      && (Orchestrate(args).Ok? ==> Orchestrate(args).value == Asked(args[0], items))
  {
    if args != [] {
      var items := Items(args[1..]);
      RunnerTurnsMeaning(args[1..], Orchestration(args[0], None, None, false, None));
      if !Has(items, "--provider") {
        NoneGiven(items, "--provider");
      }
      if !Has(items, "--model") {
        NoneGiven(items, "--model");
      }
      if !Has(items, "--pool") {
        NoneGiven(items, "--pool");
      }
      hide OrchestrateTurns, Items, Has, LastOf, RunnerProper;
    }
  }
}
