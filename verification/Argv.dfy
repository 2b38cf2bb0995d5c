/** The `dispatch` command line of src/cli.rs: the flag check, the parse loop, and
    the rules between options, with the canonical command line of parsed arguments. */
module Argv {
  import opened Options
  import opened Text
  import opened AdHocSources

  // ----- Words of a command line -----

  /** What the match arms of the parsers tell apart. `Word` stands for everything
      that does not start with a dash, `OtherOption` for every other dashed word. */
  datatype Token =
    | Fg | Bg | All | NoOrchestrate | Force | Json
    | TextFlag | FromFile | Id | Dash
    | Provider | Model | Label | Budget | Pool
    | Help | OtherOption | Word

  predicate Spelled(token: Token) {
    !token.Help? && !token.OtherOption? && !token.Word?
  }

  function Spell(token: Token): string
    requires Spelled(token)
  {
    match token
    case Fg => "--fg"
    case Bg => "--bg"
    case All => "--all"
    case NoOrchestrate => "--no-orchestrate"
    case Force => "--force"
    case Json => "--json"
    case TextFlag => "--text"
    case FromFile => "--from-file"
    case Id => "--id"
    case Dash => "-"
    case Provider => "--provider"
    case Model => "--model"
    case Label => "--label"
    case Budget => "--budget"
    case Pool => "--pool"
  }

  function Lex(argument: string): Token {
    if !StartsWithDash(argument) then Word
    else if argument == "--fg" then Fg
    else if argument == "--bg" then Bg
    else if argument == "--all" then All
    else if argument == "--no-orchestrate" then NoOrchestrate
    else if argument == "--force" then Force
    else if argument == "--json" then Json
    else if argument == "--text" then TextFlag
    else if argument == "--from-file" then FromFile
    else if argument == "--id" then Id
    else if argument == "-" then Dash
    else if argument == "--provider" then Provider
    else if argument == "--model" then Model
    else if argument == "--label" then Label
    else if argument == "--budget" then Budget
    else if argument == "--pool" then Pool
    else if argument == "--help" || argument == "-h" then Help
    else OtherOption
  }

  lemma LexOfSpelling(token: Token)
    requires Spelled(token)
    ensures Lex(Spell(token)) == token && StartsWithDash(Spell(token))
  {
    assert "--fg"[2] == 'f' && "--bg"[2] == 'b' && "--id"[2] == 'i';
    assert "--json"[2] == 'j' && "--text"[2] == 't' && "--pool"[2] == 'p';
    assert "--force"[2] == 'f' && "--model"[2] == 'm' && "--label"[2] == 'l';
  }

  lemma SpellingOfLex(argument: string)
    ensures Spelled(Lex(argument)) ==> Spell(Lex(argument)) == argument
  {
  }

  // ----- The flag check -----

  datatype Flag = Flag(long: string, short: Option<string>, takesValue: bool) {
    predicate Matches(argument: string) {
      argument == long || short == Some(argument)
    }
  }

  const DISPATCH_FLAGS: seq<Flag> := [
    Flag("--fg", None, false), Flag("--bg", None, false), Flag("--all", None, false),
    Flag("--text", None, true), Flag("--from-file", None, true), Flag("--id", None, true),
    Flag("--label", None, true), Flag("--pool", None, true), Flag("--provider", None, true),
    Flag("--model", None, true), Flag("--budget", None, true), Flag("--no-orchestrate", None, false),
    Flag("--force", None, false), Flag("--json", None, false)
  ]

  /** The first flag `argument` spells. */
  function FindFlag(flags: seq<Flag>, argument: string): (r: Option<Flag>)
    ensures r.Some? ==> r.value in flags && r.value.Matches(argument)
    ensures r.None? ==> forall flag | flag in flags :: !flag.Matches(argument)
  {
    if flags == [] then None
    else if flags[0].Matches(argument) then Some(flags[0])
    else FindFlag(flags[1..], argument)
  }

  datatype ParseError =
    | NotAFlag(argument: string)
    | UnknownOption(argument: string)
    | MissingValue(option: string)
    | Duplicate(option: string)
    | TwoModes
    | TwoSources
    | InvalidBudget(value: string)
    | AllWithTickets
    | InputWithAll
    | InputWithTickets
    | IdWithoutInput
    | Usage
    | BudgetNeedsNoOrchestrate

  /** The first undocumented option, skipping the value after a flag that takes one. */
  function UnknownFlag(flags: seq<Flag>, args: seq<string>): Option<ParseError>
    decreases |args|
  {
    if args == [] then None
    else
      match FindFlag(flags, args[0])
      case Some(flag) => UnknownFlag(flags, args[if flag.takesValue && |args| > 1 then 2 else 1..])
      case None =>
        if args[0] == "-" then UnknownFlag(flags, args[1..])
        else if args[0] == "--help" || args[0] == "-h" then Some(NotAFlag(args[0]))
        else if StartsWithDash(args[0]) then Some(UnknownOption(args[0]))
        else UnknownFlag(flags, args[1..])
  }

  method RejectUnknownFlags(flags: seq<Flag>, args: seq<string>) returns (error: Option<ParseError>)
    ensures error == UnknownFlag(flags, args)
  {
    var index := 0;
    while index < |args|
      invariant index <= |args| + 1
      invariant UnknownFlag(flags, args) == if index <= |args| then UnknownFlag(flags, args[index..]) else None
    {
      var argument := args[index];
      var found := FindFlag(flags, argument);
      assert args[index..][1..] == args[index + 1..];
      assert index + 1 < |args| ==> args[index..][2..] == args[index + 2..];
      if found.Some? {
        if found.value.takesValue {
          index := index + 1;
        }
      } else if argument == "-" {
      } else if argument == "--help" || argument == "-h" {
        return Some(NotAFlag(argument));
      } else if StartsWithDash(argument) {
        return Some(UnknownOption(argument));
      }
      index := index + 1;
    }
    assert index <= |args| ==> args[index..] == [];
    return None;
  }

  predicate IsSwitch(token: Token) {
    token.Fg? || token.Bg? || token.All? || token.NoOrchestrate? || token.Force? || token.Json?
  }

  predicate IsValued(token: Token) {
    || token.TextFlag? || token.FromFile? || token.Id? || token.Provider?
    || token.Model? || token.Label? || token.Budget? || token.Pool?
  }

  /** The table and the parse loop's match arms name the same options and agree on
      which take a value. */
  ghost predicate Agrees(flags: seq<Flag>, argument: string) {
    var found, token := FindFlag(flags, argument), Lex(argument);
    && (found.Some? <==> IsSwitch(token) || IsValued(token))
    && (found.Some? ==> (found.value.takesValue <==> IsValued(token)))
  }

  lemma TableAgreesWithArms()
    ensures forall argument :: Agrees(DISPATCH_FLAGS, argument)
  {
    forall argument
      ensures Agrees(DISPATCH_FLAGS, argument)
    {
      var found, token := FindFlag(DISPATCH_FLAGS, argument), Lex(argument);
      SpellingOfLex(argument);
      hide Lex, FindFlag;
      if found.Some? {
        var t := TokenOf(found.value);
        LexOfSpelling(t);
      } else if IsSwitch(token) || IsValued(token) {
        FlagOf(token);
      }
    }
  }

  lemma TokenOf(flag: Flag) returns (t: Token)
    requires flag in DISPATCH_FLAGS
    ensures Spelled(t) && flag == Flag(Spell(t), None, IsValued(t)) && (IsSwitch(t) || IsValued(t))
  {
    var i :| 0 <= i < |DISPATCH_FLAGS| && DISPATCH_FLAGS[i] == flag;
    if i < 7 {
      t := TokenOfFirst(i);
    } else {
      t := TokenOfRest(i);
    }
  }

  lemma TokenOfFirst(i: nat) returns (t: Token)
    requires i < 7
    ensures Spelled(t) && DISPATCH_FLAGS[i] == Flag(Spell(t), None, IsValued(t)) && (IsSwitch(t) || IsValued(t))
  {
    match i
    case 0 => t := Fg;
    case 1 => t := Bg;
    case 2 => t := All;
    case 3 => t := TextFlag;
    case 4 => t := FromFile;
    case 5 => t := Id;
    case _ => t := Label;
  }

  lemma TokenOfRest(i: nat) returns (t: Token)
    requires 7 <= i < |DISPATCH_FLAGS|
    ensures Spelled(t) && DISPATCH_FLAGS[i] == Flag(Spell(t), None, IsValued(t)) && (IsSwitch(t) || IsValued(t))
  {
    match i
    case 7 => t := Pool;
    case 8 => t := Provider;
    case 9 => t := Model;
    case 10 => t := Budget;
    case 11 => t := NoOrchestrate;
    case 12 => t := Force;
    case _ => t := Json;
  }

  lemma FlagOf(token: Token)
    requires IsSwitch(token) || IsValued(token)
    ensures Spelled(token) && Flag(Spell(token), None, IsValued(token)) in DISPATCH_FLAGS
  {
    var tokens := [Fg, Bg, All, TextFlag, FromFile, Id, Label, Pool, Provider, Model, Budget, NoOrchestrate, Force, Json];
    var i := match token
      case Fg => 0 case Bg => 1 case All => 2 case TextFlag => 3 case FromFile => 4 case Id => 5 case Label => 6
      case Pool => 7 case Provider => 8 case Model => 9 case Budget => 10 case NoOrchestrate => 11
      case Force => 12 case _ => 13;
    assert tokens[i] == token;
    assert DISPATCH_FLAGS[i] == Flag(Spell(token), None, IsValued(token));
  }

  // ----- The parse loop -----

  datatype RunMode = Foreground | Background

  /** The loop's mutable locals. */
  datatype Draft = Draft(
    tickets: seq<string>, all: bool, mode: Option<RunMode>,
    provider: Option<string>, model: Option<string>, budget: Option<nat>,
    ticketLabel: Option<string>, pool: Option<string>,
    noOrchestrate: bool, force: bool, json: bool,
    input: Option<AdHocSource>, id: Option<string>)

  const EMPTY_DRAFT :=
    Draft([], false, None, None, None, None, None, None, false, false, false, None, None)

  const U32_LIMIT: nat := 0x1_0000_0000

  /** `str::parse::<u32>`: digits, after an optional plus sign, below 2^32. */
  function ParseU32(value: string): Option<nat> {
    var digits := if value != "" && value[0] == '+' then value[1..] else value;
    if digits != "" && AllDigits(digits) && DecimalValue(digits) < U32_LIMIT
    then Some(DecimalValue(digits)) else None
  }

  function SetSource(draft: Draft, source: AdHocSource): Result<Draft, ParseError> {
    if draft.input.Some? then Err(TwoSources) else Ok(draft.(input := Some(source)))
  }

  function SetMode(draft: Draft, mode: RunMode): Result<Draft, ParseError> {
    if draft.mode.Some? then Err(TwoModes) else Ok(draft.(mode := Some(mode)))
  }

  /** A match arm that takes no value. */
  function TakeSwitch(draft: Draft, token: Token, argument: string): Result<Draft, ParseError> {
    match token
    case Fg => SetMode(draft, Foreground)
    case Bg => SetMode(draft, Background)
    case All => Ok(draft.(all := true))
    case NoOrchestrate => Ok(draft.(noOrchestrate := true))
    case Force => Ok(draft.(force := true))
    case Json => Ok(draft.(json := true))
    case Dash => SetSource(draft, Stdin)
    case Word => Ok(draft.(tickets := draft.tickets + [argument]))
    case _ => Err(UnknownOption(argument))
  }

  /** A match arm that takes the next word as its value. */
  function TakeValue(draft: Draft, token: Token, value: string): Result<Draft, ParseError>
    requires IsValued(token)
  {
    if token == FromFile then SetSource(draft, if value == "-" then Stdin else File(value))
    else if StartsWithDash(value) then Err(MissingValue(Spell(token)))
    else
      match token
      case TextFlag => SetSource(draft, FreeText(value))
      case Id => Ok(draft.(id := Some(value)))
      case Provider => Ok(draft.(provider := Some(value)))
      case Model => Ok(draft.(model := Some(value)))
      case Label => Ok(draft.(ticketLabel := Some(value)))
      case Pool => Ok(draft.(pool := Some(value)))
      case Budget =>
        match ParseU32(value)
        case Some(dollars) => if dollars == 0 then Err(InvalidBudget(value)) else Ok(draft.(budget := Some(dollars)))
        case None => Err(InvalidBudget(value))
  }

  /** One turn of the loop: the draft it leaves and how many words it took. */
  function Turn(args: seq<string>, draft: Draft): (r: Result<(Draft, nat), ParseError>)
    requires args != []
    ensures r.Ok? ==> 0 < r.value.1 <= |args|
  {
    var token := Lex(args[0]);
    if IsValued(token) then
      if |args| < 2 then Err(MissingValue(Spell(token)))
      else
        match TakeValue(draft, token, args[1])
        case Ok(next) => Ok((next, 2))
        case Err(error) => Err(error)
    else
      match TakeSwitch(draft, token, args[0])
      case Ok(next) => Ok((next, 1))
      case Err(error) => Err(error)
  }

  function Turns(args: seq<string>, draft: Draft): Result<Draft, ParseError>
    decreases |args|
  {
    if args == [] then Ok(draft)
    else
      match Turn(args, draft)
      case Ok((next, taken)) => Turns(args[taken..], next)
      case Err(error) => Err(error)
  }

  datatype DispatchArgs = DispatchArgs(
    tickets: seq<string>, all: bool, mode: RunMode,
    provider: Option<string>, model: Option<string>, budget: Option<nat>,
    ticketLabel: Option<string>, pool: Option<string>,
    noOrchestrate: bool, force: bool, json: bool,
    input: Option<AdHocInput>)

  /** The rules between options, in the order they are checked. */
  function Finish(draft: Draft): Result<DispatchArgs, ParseError> {
    if draft.all && draft.tickets != [] then Err(AllWithTickets)
    else if draft.input.Some? && draft.all then Err(InputWithAll)
    else if draft.input.Some? && draft.tickets != [] then Err(InputWithTickets)
    else if draft.id.Some? && draft.input.None? then Err(IdWithoutInput)
    else if draft.tickets == [] && !draft.all && draft.input.None? then Err(Usage)
    else if draft.budget.Some? && |draft.tickets| == 1 && !draft.noOrchestrate then Err(BudgetNeedsNoOrchestrate)
    else Ok(DispatchArgs(
      draft.tickets, draft.all, if draft.mode.Some? then draft.mode.value else Background,
      draft.provider, draft.model, draft.budget, draft.ticketLabel, draft.pool,
      draft.noOrchestrate, draft.force, draft.json,
      if draft.input.Some? then Some(AdHocInput(draft.input.value, draft.id)) else None))
  }

  function Dispatch(args: seq<string>): Result<DispatchArgs, ParseError> {
    match UnknownFlag(DISPATCH_FLAGS, args)
    case Some(error) => Err(error)
    case None =>
      match Turns(args, EMPTY_DRAFT)
      case Ok(draft) => Finish(draft)
      case Err(error) => Err(error)
  }

  method ParseDispatch(args: seq<string>) returns (parsed: Result<DispatchArgs, ParseError>)
    ensures parsed == Dispatch(args)
  {
    var unknown := RejectUnknownFlags(DISPATCH_FLAGS, args);
    if unknown.Some? {
      return Err(unknown.value);
    }
    var draft := EMPTY_DRAFT;
    var index := 0;
    while index < |args|
      invariant index <= |args|
      invariant Turns(args[index..], draft) == Turns(args, EMPTY_DRAFT)
    {
      match Turn(args[index..], draft) {
        case Err(error) => return Err(error);
        case Ok((next, taken)) =>
          assert args[index..][taken..] == args[index + taken..];
          draft, index := next, index + taken;
      }
    }
    return Finish(draft);
  }

  // ----- What is accepted -----

  predicate NotDashed(value: Option<string>) {
    value.Some? ==> !StartsWithDash(value.value)
  }

  predicate GoodSource(source: AdHocSource) {
    match source
    case FreeText(text) => !StartsWithDash(text)
    case File(path) => path != "-"
    case Stdin => true
  }

  /** The values an accepted command line carries. */
  predicate GoodDraft(draft: Draft) {
    && (forall i | 0 <= i < |draft.tickets| :: !StartsWithDash(draft.tickets[i]))
    && NotDashed(draft.provider) && NotDashed(draft.model) && NotDashed(draft.ticketLabel)
    && NotDashed(draft.pool) && NotDashed(draft.id)
    && (draft.budget.Some? ==> 0 < draft.budget.value < U32_LIMIT)
    && (draft.input.Some? ==> GoodSource(draft.input.value))
  }

  /** The exclusion rules: exactly one of explicit Tickets, `--all` and a Ticket
      handed in directly; `--id` only with the last; a budget for a single Ticket
      only without orchestration. */
  predicate WellFormed(d: DispatchArgs) {
    && (forall i | 0 <= i < |d.tickets| :: !StartsWithDash(d.tickets[i]))
    && NotDashed(d.provider) && NotDashed(d.model) && NotDashed(d.ticketLabel) && NotDashed(d.pool)
    && (d.budget.Some? ==> 0 < d.budget.value < U32_LIMIT)
    && (d.input.Some? ==> GoodSource(d.input.value.source) && NotDashed(d.input.value.id))
    && (d.tickets != [] ==> !d.all && d.input.None?)
    && (d.all ==> d.input.None?)
    && (d.tickets != [] || d.all || d.input.Some?)
    && (d.budget.Some? && |d.tickets| == 1 ==> d.noOrchestrate)
  }

  lemma {:induction false} TurnsKeepGood(args: seq<string>, draft: Draft)
    requires GoodDraft(draft)
    ensures Turns(args, draft).Ok? ==> GoodDraft(Turns(args, draft).value)
    decreases |args|
  {
    if args != [] && Turn(args, draft).Ok? {
      var (next, taken) := Turn(args, draft).value;
      TurnKeepsGood(args, draft);
      TurnsKeepGood(args[taken..], next);
    }
  }

  lemma TurnKeepsGood(args: seq<string>, draft: Draft)
    requires GoodDraft(draft) && args != [] && Turn(args, draft).Ok?
    ensures GoodDraft(Turn(args, draft).value.0)
  {
    var token := Lex(args[0]);
    assert token == Word ==> !StartsWithDash(args[0]);
    hide Lex, Spell, GoodDraft, TakeValue, TakeSwitch;
    if IsValued(token) {
      ValueKeepsGood(draft, token, args[1]);
    } else {
      SwitchKeepsGood(draft, token, args[0]);
    }
  }

  lemma SwitchKeepsGood(draft: Draft, token: Token, argument: string)
    requires GoodDraft(draft) && (token == Word ==> !StartsWithDash(argument))
    ensures TakeSwitch(draft, token, argument).Ok? ==> GoodDraft(TakeSwitch(draft, token, argument).value)
  {
  }

  lemma ValueKeepsGood(draft: Draft, token: Token, value: string)
    requires GoodDraft(draft) && IsValued(token)
    ensures TakeValue(draft, token, value).Ok? ==> GoodDraft(TakeValue(draft, token, value).value)
  {
    hide Spell;
  }

  /** Everything accepted obeys the rules. */
  lemma AcceptedIsWellFormed(args: seq<string>)
    ensures Dispatch(args).Ok? ==> WellFormed(Dispatch(args).value)
  {
    TurnsKeepGood(args, EMPTY_DRAFT);
  }

  lemma {:induction false} CheckPassesFrom(flags: seq<Flag>, args: seq<string>, draft: Draft)
    requires forall argument :: Agrees(flags, argument)
    ensures Turns(args, draft).Ok? ==> UnknownFlag(flags, args).None?
    decreases |args|
  {
    if args != [] && Turn(args, draft).Ok? {
      var (next, taken) := Turn(args, draft).value;
      CheckPassesFrom(flags, args[taken..], next);
      CheckedStep(flags, args, draft);
    }
  }

  /** One turn of the loop and one step of the check go past the same words. */
  lemma CheckedStep(flags: seq<Flag>, args: seq<string>, draft: Draft)
    requires args != [] && forall argument :: Agrees(flags, argument)
    ensures Turn(args, draft).Ok? ==>
      UnknownFlag(flags, args) == UnknownFlag(flags, args[Turn(args, draft).value.1..])
    ensures Turn(args, draft).Err? && Turn(args, draft).error.UnknownOption? ==> UnknownFlag(flags, args).Some?
  {
    assert Agrees(flags, args[0]);
    assert Lex(args[0]) == Dash <==> args[0] == "-";
    assert Lex(args[0]) == Word <==> !StartsWithDash(args[0]);
    hide Lex, Spell, FindFlag;
    if Turn(args, draft).Ok? && IsValued(Lex(args[0])) {
      assert args[if |args| > 1 then 2 else 1..] == args[2..];
    }
  }

  /** The flag check never turns away what the loop would take. */
  lemma CheckPassesWhatLoopTakes(args: seq<string>)
    ensures Turns(args, EMPTY_DRAFT).Ok? ==> UnknownFlag(DISPATCH_FLAGS, args).None?
  {
    hide Turns, UnknownFlag;
    TableAgreesWithArms();
    CheckPassesFrom(DISPATCH_FLAGS, args, EMPTY_DRAFT);
  }

  lemma {:induction false} CheckedTurns(flags: seq<Flag>, args: seq<string>, draft: Draft)
    requires forall argument :: Agrees(flags, argument)
    requires UnknownFlag(flags, args).None?
    ensures Turns(args, draft).Err? ==> !Turns(args, draft).error.UnknownOption?
    decreases |args|
  {
    if args != [] {
      CheckedStep(flags, args, draft);
      hide Turn, UnknownFlag;
      if Turn(args, draft).Ok? {
        var (next, taken) := Turn(args, draft).value;
        CheckedTurns(flags, args[taken..], next);
      }
    }
  }

  /** After the check, the loop's own unknown-option arm is never reached: a command
      line refused for an unknown option was refused by the check. */
  lemma UnknownOptionsAreTheChecks(args: seq<string>, argument: string)
    requires Dispatch(args) == Err(UnknownOption(argument))
    ensures UnknownFlag(DISPATCH_FLAGS, args) == Some(UnknownOption(argument))
  {
    hide Turns, UnknownFlag;
    TableAgreesWithArms();
    if UnknownFlag(DISPATCH_FLAGS, args).None? {
      CheckedTurns(DISPATCH_FLAGS, args, EMPTY_DRAFT);
    }
  }

  // ----- The canonical command line -----

  function Switch(on: bool, token: Token): seq<string>
    requires Spelled(token)
  {
    if on then [Spell(token)] else []
  }

  function Valued(token: Token, value: Option<string>): seq<string>
    requires Spelled(token)
  {
    if value.Some? then [Spell(token), value.value] else []
  }

  function SourceWords(input: Option<AdHocInput>): seq<string> {
    if input.None? then []
    else
      match input.value.source
      case FreeText(text) => ["--text", text]
      case File(path) => ["--from-file", path]
      case Stdin => ["-"]
  }

  function IdOf(input: Option<AdHocInput>): Option<string> {
    if input.Some? then input.value.id else None
  }

  function BudgetOf(budget: Option<nat>): Option<string> {
    if budget.Some? then Some(Decimal(budget.value)) else None
  }

  function Render(d: DispatchArgs): seq<string> {
    Switch(true, if d.mode == Foreground then Fg else Bg)
    + (Switch(d.all, All)
    + (Switch(d.noOrchestrate, NoOrchestrate)
    + (Switch(d.force, Force)
    + (Switch(d.json, Json)
    + (Valued(Provider, d.provider)
    + (Valued(Model, d.model)
    + (Valued(Label, d.ticketLabel)
    + (Valued(Pool, d.pool)
    + (Valued(Budget, BudgetOf(d.budget))
    + (Valued(Id, IdOf(d.input))
    + (SourceWords(d.input)
    + d.tickets)))))))))))
  }

  lemma SwitchTurns(on: bool, token: Token, rest: seq<string>, draft: Draft)
    requires IsSwitch(token) && (on ==> TakeSwitch(draft, token, Spell(token)).Ok?)
    ensures Turns(Switch(on, token) + rest, draft)
         == Turns(rest, if on then TakeSwitch(draft, token, Spell(token)).value else draft)
  {
    if on {
      LexOfSpelling(token);
      assert ([Spell(token)] + rest)[1..] == rest;
    } else {
      assert [] + rest == rest;
    }
  }

  lemma ValuedTurns(token: Token, value: Option<string>, rest: seq<string>, draft: Draft)
    requires IsValued(token) && (value.Some? ==> TakeValue(draft, token, value.value).Ok?)
    ensures Turns(Valued(token, value) + rest, draft)
         == Turns(rest, if value.Some? then TakeValue(draft, token, value.value).value else draft)
  {
    if value.Some? {
      LexOfSpelling(token);
      assert ([Spell(token), value.value] + rest)[2..] == rest;
    } else {
      assert [] + rest == rest;
    }
  }

  lemma SourceTurns(input: Option<AdHocInput>, rest: seq<string>, draft: Draft)
    requires draft.input.None? && (input.Some? ==> GoodSource(input.value.source))
    ensures Turns(SourceWords(input) + rest, draft)
         == Turns(rest, if input.Some? then draft.(input := Some(input.value.source)) else draft)
  {
    match input
    case None => assert [] + rest == rest;
    case Some(AdHocInput(FreeText(text), _)) => ValuedTurns(TextFlag, Some(text), rest, draft);
    case Some(AdHocInput(File(path), _)) => ValuedTurns(FromFile, Some(path), rest, draft);
    case Some(AdHocInput(Stdin, _)) =>
      LexOfSpelling(Dash);
      assert (["-"] + rest)[1..] == rest;
  }

  lemma {:induction false} TicketTurns(tickets: seq<string>, draft: Draft)
    requires forall i | 0 <= i < |tickets| :: !StartsWithDash(tickets[i])
    ensures Turns(tickets, draft) == Ok(draft.(tickets := draft.tickets + tickets))
    decreases |tickets|
  {
    if tickets == [] {
      assert draft.tickets + [] == draft.tickets;
    } else {
      TicketTurns(tickets[1..], draft.(tickets := draft.tickets + [tickets[0]]));
      assert draft.tickets + [tickets[0]] + tickets[1..] == draft.tickets + tickets;
    }
  }

  lemma DecimalParses(n: nat)
    requires n < U32_LIMIT
    ensures ParseU32(Decimal(n)) == Some(n) && !StartsWithDash(Decimal(n))
  {
    DecimalRoundTrip(n);
    assert IsDigit(Decimal(n)[0]);
  }

  /** The draft the canonical command line leaves. */
  function DraftOf(d: DispatchArgs): Draft {
    Draft(d.tickets, d.all, Some(d.mode), d.provider, d.model, d.budget, d.ticketLabel, d.pool,
          d.noOrchestrate, d.force, d.json,
          if d.input.Some? then Some(d.input.value.source) else None, IdOf(d.input))
  }

  lemma RenderedOptionsTurn(d: DispatchArgs, rest: seq<string>, draft: Draft)
    requires WellFormed(d)
    ensures Turns(
              Valued(Provider, d.provider) + (Valued(Model, d.model) + (Valued(Label, d.ticketLabel) + (Valued(Pool, d.pool) + rest))),
              draft)
         == Turns(rest, draft.(
              provider := if d.provider.Some? then d.provider else draft.provider,
              model := if d.model.Some? then d.model else draft.model,
              ticketLabel := if d.ticketLabel.Some? then d.ticketLabel else draft.ticketLabel,
              pool := if d.pool.Some? then d.pool else draft.pool))
  {
    var afterModel := Valued(Label, d.ticketLabel) + (Valued(Pool, d.pool) + rest);
    var chosen := draft.(
      provider := if d.provider.Some? then d.provider else draft.provider,
      model := if d.model.Some? then d.model else draft.model);
    RenderedAgentTurns(d, afterModel, draft);
    RenderedPlaceTurns(d, rest, chosen);
    hide Turns, Valued;
  }

  lemma RenderedAgentTurns(d: DispatchArgs, rest: seq<string>, draft: Draft)
    requires WellFormed(d)
    ensures Turns(Valued(Provider, d.provider) + (Valued(Model, d.model) + rest), draft)
         == Turns(rest, draft.(
              provider := if d.provider.Some? then d.provider else draft.provider,
              model := if d.model.Some? then d.model else draft.model))
  {
    hide Lex, Spell, Turns, Switch, Valued;
    ValuedTurns(Provider, d.provider, Valued(Model, d.model) + rest, draft);
    ValuedTurns(Model, d.model, rest, if d.provider.Some? then draft.(provider := d.provider) else draft);
  }

  lemma RenderedPlaceTurns(d: DispatchArgs, rest: seq<string>, draft: Draft)
    requires WellFormed(d)
    ensures Turns(Valued(Label, d.ticketLabel) + (Valued(Pool, d.pool) + rest), draft)
         == Turns(rest, draft.(
              ticketLabel := if d.ticketLabel.Some? then d.ticketLabel else draft.ticketLabel,
              pool := if d.pool.Some? then d.pool else draft.pool))
  {
    hide Lex, Spell, Turns, Switch, Valued;
    ValuedTurns(Label, d.ticketLabel, Valued(Pool, d.pool) + rest, draft);
    ValuedTurns(Pool, d.pool, rest, if d.ticketLabel.Some? then draft.(ticketLabel := d.ticketLabel) else draft);
  }

  lemma RenderedTailTurns(d: DispatchArgs, draft: Draft)
    requires WellFormed(d) && draft.budget.None? && draft.id.None? && draft.input.None? && draft.tickets == []
    ensures Turns(
              Valued(Budget, BudgetOf(d.budget)) + (Valued(Id, IdOf(d.input)) + (SourceWords(d.input) + d.tickets)), draft)
         == Ok(draft.(budget := d.budget, id := IdOf(d.input), tickets := d.tickets,
                      input := if d.input.Some? then Some(d.input.value.source) else None))
  {
    hide Lex, Spell, Turns, Switch, Valued;
    if d.budget.Some? {
      DecimalParses(d.budget.value);
    }
    var d1 := draft.(budget := d.budget);
    var d2 := d1.(id := IdOf(d.input));
    var d3 := d2.(input := if d.input.Some? then Some(d.input.value.source) else None);
    ValuedTurns(Budget, BudgetOf(d.budget), Valued(Id, IdOf(d.input)) + (SourceWords(d.input) + d.tickets), draft);
    ValuedTurns(Id, IdOf(d.input), SourceWords(d.input) + d.tickets, d1);
    SourceTurns(d.input, d.tickets, d2);
    TicketTurns(d.tickets, d3);
    assert d3.tickets + d.tickets == d.tickets;
  }

  lemma RenderedSwitchesTurn(d: DispatchArgs, rest: seq<string>)
    ensures Turns(
              Switch(true, if d.mode == Foreground then Fg else Bg) + (Switch(d.all, All)
              + (Switch(d.noOrchestrate, NoOrchestrate) + (Switch(d.force, Force) + (Switch(d.json, Json) + rest)))),
              EMPTY_DRAFT)
         == Turns(rest, EMPTY_DRAFT.(
              mode := Some(d.mode), all := d.all, noOrchestrate := d.noOrchestrate, force := d.force, json := d.json))
  {
    hide Lex, Spell, Turns, Switch, Valued;
    var afterForce := Switch(d.json, Json) + rest;
    var afterNo := Switch(d.force, Force) + afterForce;
    var afterAll := Switch(d.noOrchestrate, NoOrchestrate) + afterNo;
    var afterMode := Switch(d.all, All) + afterAll;
    var d1 := EMPTY_DRAFT.(mode := Some(d.mode));
    var d2 := d1.(all := d.all);
    var d3 := d2.(noOrchestrate := d.noOrchestrate);
    var d4 := d3.(force := d.force);
    SwitchTurns(true, if d.mode == Foreground then Fg else Bg, afterMode, EMPTY_DRAFT);
    SwitchTurns(d.all, All, afterAll, d1);
    SwitchTurns(d.noOrchestrate, NoOrchestrate, afterNo, d2);
    SwitchTurns(d.force, Force, afterForce, d3);
    SwitchTurns(d.json, Json, rest, d4);
  }

  lemma RenderedTurns(d: DispatchArgs)
    requires WellFormed(d)
    ensures Turns(Render(d), EMPTY_DRAFT) == Ok(DraftOf(d))
  {
    hide Lex, Spell, Turns, Switch, Valued;
    var tail := Valued(Budget, BudgetOf(d.budget)) + (Valued(Id, IdOf(d.input)) + (SourceWords(d.input) + d.tickets));
    var options :=
      Valued(Provider, d.provider) + (Valued(Model, d.model) + (Valued(Label, d.ticketLabel) + (Valued(Pool, d.pool) + tail)));
    var switched := EMPTY_DRAFT.(
      mode := Some(d.mode), all := d.all, noOrchestrate := d.noOrchestrate, force := d.force, json := d.json);
    var valued := switched.(provider := d.provider, model := d.model, ticketLabel := d.ticketLabel, pool := d.pool);
    RenderedSwitchesTurn(d, options);
    RenderedOptionsTurn(d, tail, switched);
    RenderedTailTurns(d, valued);
  }

  /** Any arguments that obey the rules come back from their canonical command line,
      through the flag check and the parse loop. */
  lemma RenderRoundTrip(d: DispatchArgs)
    requires WellFormed(d)
    ensures Dispatch(Render(d)) == Ok(d)
  {
    hide Turns, Render, UnknownFlag;
    RenderedTurns(d);
    CheckPassesWhatLoopTakes(Render(d));
  }

  /** The rules are exactly what `dispatch` can be asked for. */
  lemma WellFormedIffReachable(d: DispatchArgs)
    ensures WellFormed(d) <==> exists args :: Dispatch(args) == Ok(d)
  {
    if WellFormed(d) {
      RenderRoundTrip(d);
    }
    if args :| Dispatch(args) == Ok(d) {
      AcceptedIsWellFormed(args);
    }
  }

  // ----- The detached orchestration runner -----

  datatype Orchestration = Orchestration(
    parent: string, provider: Option<string>, model: Option<string>, force: bool, pool: Option<string>)

  function OrchestrateTurns(args: seq<string>, o: Orchestration): Result<Orchestration, ParseError>
    decreases |args|
  {
    if args == [] then Ok(o)
    else
      var token := Lex(args[0]);
      if token == Force then OrchestrateTurns(args[1..], o.(force := true))
      else if token !in {Provider, Model, Pool} then Err(UnknownOption(args[0]))
      else if |args| < 2 || StartsWithDash(args[1]) then Err(MissingValue(args[0]))
      else if token == Provider then
        if o.provider.Some? then Err(Duplicate(args[0]))
        else OrchestrateTurns(args[2..], o.(provider := Some(args[1])))
      else if token == Model then
        if o.model.Some? then Err(Duplicate(args[0]))
        else OrchestrateTurns(args[2..], o.(model := Some(args[1])))
      else
        if o.pool.Some? then Err(Duplicate(args[0]))
        else OrchestrateTurns(args[2..], o.(pool := Some(args[1])))
  }

  function Orchestrate(args: seq<string>): Result<Orchestration, ParseError> {
    if args == [] then Err(Usage)
    else OrchestrateTurns(args[1..], Orchestration(args[0], None, None, false, None))
  }

  method ParseOrchestrate(args: seq<string>) returns (parsed: Result<Orchestration, ParseError>)
    ensures parsed == Orchestrate(args)
  {
    if args == [] {
      return Err(Usage);
    }
    var o := Orchestration(args[0], None, None, false, None);
    var index := 1;
    while index < |args|
      invariant 1 <= index <= |args|
      invariant OrchestrateTurns(args[index..], o) == Orchestrate(args)
    {
      var option := args[index];
      var token := Lex(option);
      assert args[index..][1..] == args[index + 1..];
      if token == Force {
        o := o.(force := true);
        index := index + 1;
        continue;
      }
      if token !in {Provider, Model, Pool} {
        return Err(UnknownOption(option));
      }
      if index + 1 >= |args| || StartsWithDash(args[index + 1]) {
        return Err(MissingValue(option));
      }
      assert args[index..][2..] == args[index + 2..] && args[index..][1] == args[index + 1];
      var value := args[index + 1];
      var taken := match token
        case Provider => o.provider
        case Model => o.model
        case _ => o.pool;
      if taken.Some? {
        return Err(Duplicate(option));
      }
      match token {
        case Provider => o := o.(provider := Some(value));
        case Model => o := o.(model := Some(value));
        case _ => o := o.(pool := Some(value));
      }
      index := index + 2;
    }
    return Ok(o);
  }

  /** The words `spawn_background_orchestration` passes after `__orchestrate`. */
  method OrchestrationArgv(parent: string, pool: string, d: DispatchArgs) returns (argv: seq<string>)
    ensures argv == RunnerArgv(parent, pool, d)
  {
    argv := [parent];
    argv := argv + ["--pool", pool];
    if d.provider.Some? {
      argv := argv + ["--provider", d.provider.value];
    }
    if d.model.Some? {
      argv := argv + ["--model", d.model.value];
    }
    if d.force {
      argv := argv + ["--force"];
    }
  }

  function RunnerArgv(parent: string, pool: string, d: DispatchArgs): seq<string> {
    [parent] + ["--pool", pool] + Valued(Provider, d.provider) + Valued(Model, d.model) + Switch(d.force, Force)
  }

  /** What the child runner is told, for all arguments some command line can produce:
      parent, provider, model, force and pool come back as they were given exactly
      when the pool's name does not start with a dash. Otherwise the runner refuses
      its own command line. A Dispatch that is handed to the runner never carries a
      budget that would be lost. */
  lemma RunnerRoundTrip(d: DispatchArgs, parent: string, pool: string)
    requires WellFormed(d)
    ensures Orchestrate(RunnerArgv(parent, pool, d)) == Ok(Orchestration(parent, d.provider, d.model, d.force, Some(pool)))
            <==> !StartsWithDash(pool)
    ensures StartsWithDash(pool) ==> Orchestrate(RunnerArgv(parent, pool, d)) == Err(MissingValue("--pool"))
    ensures !d.all && !d.noOrchestrate && |d.tickets| == 1 ==> d.budget.None?
  {
    hide OrchestrateTurns, Valued, Switch, Lex;
    var options := Valued(Provider, d.provider) + (Valued(Model, d.model) + Switch(d.force, Force));
    assert RunnerArgv(parent, pool, d) == [parent] + (["--pool", pool] + options);
    assert RunnerArgv(parent, pool, d)[1..] == ["--pool", pool] + options;
    PoolTurn(pool, options, parent);
    if !StartsWithDash(pool) {
      OptionsTurn(d, Orchestration(parent, None, None, false, Some(pool)));
    }
  }

  lemma PoolTurn(pool: string, rest: seq<string>, parent: string)
    ensures OrchestrateTurns(["--pool", pool] + rest, Orchestration(parent, None, None, false, None))
         == if StartsWithDash(pool) then Err(MissingValue("--pool"))
            else OrchestrateTurns(rest, Orchestration(parent, None, None, false, Some(pool)))
  {
    LexOfSpelling(Pool);
    hide Lex;
    assert (["--pool", pool] + rest)[2..] == rest;
  }

  lemma OptionsTurn(d: DispatchArgs, o: Orchestration)
    requires NotDashed(d.provider) && NotDashed(d.model) && o.provider.None? && o.model.None? && !o.force
    ensures OrchestrateTurns(Valued(Provider, d.provider) + (Valued(Model, d.model) + Switch(d.force, Force)), o)
         == Ok(o.(provider := d.provider, model := d.model, force := d.force))
  {
    hide OrchestrateTurns, Valued, Switch, Lex;
    OptionTurn(Provider, d.provider, Valued(Model, d.model) + Switch(d.force, Force), o);
    OptionTurn(Model, d.model, Switch(d.force, Force), o.(provider := d.provider));
    ForceTurn(d.force, o.(provider := d.provider, model := d.model));
  }

  lemma ForceTurn(force: bool, o: Orchestration)
    requires !o.force
    ensures OrchestrateTurns(Switch(force, Force), o) == Ok(o.(force := force))
  {
    LexOfSpelling(Force);
    hide Lex;
    assert force ==> Switch(force, Force)[1..] == [];
  }

  lemma OptionTurn(token: Token, value: Option<string>, rest: seq<string>, o: Orchestration)
    requires token in {Provider, Model} && NotDashed(value)
    requires token == Provider ==> o.provider.None?
    requires token == Model ==> o.model.None?
    ensures OrchestrateTurns(Valued(token, value) + rest, o)
         == OrchestrateTurns(rest, if token == Provider then o.(provider := value) else o.(model := value))
  {
    LexOfSpelling(token);
    if value.Some? {
      assert ([Spell(token), value.value] + rest)[2..] == rest;
    } else {
      assert [] + rest == rest;
    }
  }
}
