/** The hand-written JSON encoder of src/cli.rs, undone by a decoder for the strings
    (section 7), arrays (section 5) and objects (section 4) of RFC 8259. */
module Json {
  import opened Options
  import opened Text

  // ----- Encoding strings -----

  function HexDigit(d: nat): char
    requires d < 16
  {
    if d < 10 then DigitOf(d) else ('a' as int + (d - 10)) as char
  }

  function Escape(c: char): string {
    if c == '"' then "\\\""
    else if c == '\\' then "\\\\"
    else if c == '\n' then "\\n"
    else if c == '\r' then "\\r"
    else if c == '\t' then "\\t"
    else if c as int < 0x20 then "\\u00" + [HexDigit(c as int / 16), HexDigit(c as int % 16)]
    else [c]
  }

  function EscapeAll(s: string): string {
    if s == "" then "" else Escape(s[0]) + EscapeAll(s[1..])
  }

  function Quoted(s: string): string {
    "\"" + EscapeAll(s) + "\""
  }

  method JsonString(value: string) returns (out: string)
    ensures out == Quoted(value)
  {
    out := "\"";
    for i := 0 to |value|
      invariant out + EscapeAll(value[i..]) == "\"" + EscapeAll(value)
    {
      assert value[i..][0] == value[i] && value[i..][1..] == value[i + 1..];
      assert out + (Escape(value[i]) + EscapeAll(value[i + 1..])) == out + Escape(value[i]) + EscapeAll(value[i + 1..]);
      out := out + Escape(value[i]);
    }
    assert value[|value|..] == "" && out + "" == out;
    out := out + "\"";
  }

  // ----- Decoding strings -----

  function HexValue(c: char): Option<nat> {
    if '0' <= c <= '9' then Some(c as int - '0' as int)
    else if 'a' <= c <= 'f' then Some(c as int - 'a' as int + 10)
    else if 'A' <= c <= 'F' then Some(c as int - 'A' as int + 10)
    else None
  }

  /** The code unit of the four hexadecimal digits that open `s`. */
  function CodeUnit(s: string): (unit: Option<nat>)
    ensures unit.Some? ==> |s| >= 4 && unit.value < 0x1_0000
  {
    if |s| < 4 then None
    else
      match (HexValue(s[0]), HexValue(s[1]), HexValue(s[2]), HexValue(s[3]))
      case (Some(a), Some(b), Some(c), Some(d)) =>
        if a < 16 && b < 16 && c < 16 && d < 16 then Some(((a * 16 + b) * 16 + c) * 16 + d) else None
      case _ => None
  }

  /** The character a `\u` escape stands for and how much of `s`, which follows the
      `u`, it takes: four digits, or a surrogate pair. */
  function UnicodeEscape(s: string): (r: Option<(char, nat)>)
    ensures r.Some? ==> 0 < r.value.1 <= |s|
  {
    match CodeUnit(s)
    case None => None
    case Some(unit) =>
      if 0xD800 <= unit < 0xDC00 then
        if |s| >= 10 && s[4] == '\\' && s[5] == 'u' then
          match CodeUnit(s[6..])
          case Some(low) =>
            if 0xDC00 <= low < 0xE000
            then Some(((0x1_0000 + (unit - 0xD800) * 0x400 + (low - 0xDC00)) as char, 10))
            else None
          case None => None
        else None
      else if 0xDC00 <= unit < 0xE000 then None
      else Some((unit as char, 4))
  }

  function SimpleEscape(c: char): Option<char> {
    if c == '"' || c == '\\' || c == '/' then Some(c)
    else if c == 'b' then Some(8 as char)
    else if c == 'f' then Some(12 as char)
    else if c == 'n' then Some('\n')
    else if c == 'r' then Some('\r')
    else if c == 't' then Some('\t')
    else None
  }

  function Prepend(c: char, r: Option<(string, string)>): Option<(string, string)> {
    match r
    case Some((decoded, rest)) => Some(([c] + decoded, rest))
    case None => None
  }

  /** The characters up to the closing quote, and what follows it. */
  function DecodeChars(s: string): (r: Option<(string, string)>)
    ensures r.Some? ==> |r.value.1| < |s|
    decreases |s|
  {
    if s == "" then None
    else if s[0] == '"' then Some(("", s[1..]))
    else if s[0] == '\\' then
      if |s| < 2 then None
      else if s[1] == 'u' then
        match UnicodeEscape(s[2..])
        case Some((c, taken)) => Prepend(c, DecodeChars(s[2 + taken..]))
        case None => None
      else
        match SimpleEscape(s[1])
        case Some(c) => Prepend(c, DecodeChars(s[2..]))
        case None => None
    else if s[0] as int < 0x20 then None
    else Prepend(s[0], DecodeChars(s[1..]))
  }

  function DecodeString(s: string): (r: Option<(string, string)>)
    ensures r.Some? ==> |r.value.1| < |s|
  {
    if s != "" && s[0] == '"' then DecodeChars(s[1..]) else None
  }

  lemma ControlEscape(c: char, rest: string)
    requires c as int < 0x20
    ensures UnicodeEscape("00" + [HexDigit(c as int / 16), HexDigit(c as int % 16)] + rest) == Some((c, 4))
  {
    var high, low := HexDigit(c as int / 16), HexDigit(c as int % 16);
    var s := "00" + [high, low] + rest;
    assert s[0] == '0' && s[1] == '0' && s[2] == high && s[3] == low;
    assert HexValue(high) == Some(c as int / 16) && HexValue(low) == Some(c as int % 16);
    assert CodeUnit(s) == Some(c as int);
  }

  lemma DecodeEscaped(c: char, rest: string)
    ensures DecodeChars(Escape(c) + rest) == Prepend(c, DecodeChars(rest))
  {
    var s := Escape(c) + rest;
    if c in "\"\\\n\r\t" {
      assert s[0] == '\\' && s[2..] == rest;
    } else if c as int < 0x20 {
      var digits := [HexDigit(c as int / 16), HexDigit(c as int % 16)];
      assert s[0] == '\\' && s[1] == 'u' && s[2..] == "00" + digits + rest && s[6..] == rest;
      ControlEscape(c, rest);
    } else {
      assert s[0] == c && s[1..] == rest;
    }
  }

  lemma {:induction false} DecodeCharsRoundTrip(s: string, rest: string)
    ensures DecodeChars(EscapeAll(s) + "\"" + rest) == Some((s, rest))
  {
    if s == "" {
      assert ("" + "\"" + rest)[1..] == rest;
    } else {
      var more := EscapeAll(s[1..]) + "\"" + rest;
      assert EscapeAll(s) + "\"" + rest == Escape(s[0]) + more;
      DecodeEscaped(s[0], more);
      DecodeCharsRoundTrip(s[1..], rest);
      assert [s[0]] + s[1..] == s;
    }
  }

  /** Every string decodes to itself, whatever text follows its encoding. */
  lemma StringRoundTrip(s: string, rest: string)
    ensures DecodeString(Quoted(s) + rest) == Some((s, rest))
  {
    DecodeCharsRoundTrip(s, rest);
    assert (Quoted(s) + rest)[1..] == EscapeAll(s) + "\"" + rest;
  }

  /** No encoding is a proper prefix of another, so where one ends is not in doubt. */
  lemma EncodingIsSelfDelimiting(a: string, restA: string, b: string, restB: string)
    requires Quoted(a) + restA == Quoted(b) + restB
    ensures a == b && restA == restB
  {
    StringRoundTrip(a, restA);
    StringRoundTrip(b, restB);
  }

  // ----- Values -----

  datatype Value = Null | Str(text: string) | Num(number: nat) | Arr(items: seq<Value>) | Obj(members: seq<Member>)

  datatype Member = Member(key: string, value: Value)

  predicate IsSpace(c: char) {
    c == ' ' || c == '\t' || c == '\n' || c == '\r'
  }

  function SkipSpace(s: string): (r: string)
    ensures |r| <= |s|
  {
    if s != "" && IsSpace(s[0]) then SkipSpace(s[1..]) else s
  }

  function DigitCount(s: string): (n: nat)
    ensures n <= |s| && AllDigits(s[..n])
  {
    if s == "" || !IsDigit(s[0]) then 0
    else
      var n := 1 + DigitCount(s[1..]);
      assert s[..n] == [s[0]] + s[1..][..n - 1];
      n
  }

  /** A natural number, with no leading zero, fraction or exponent. */
  function DecodeNumber(s: string): (r: Option<(Value, string)>)
    ensures r.Some? ==> |r.value.1| < |s|
  {
    var n := DigitCount(s);
    if n == 0 || (n > 1 && s[0] == '0') then None
    else if n < |s| && s[n] in ".eE" then None
    else Some((Num(DecimalValue(s[..n])), s[n..]))
  }

  function DecodeValue(s: string): (r: Option<(Value, string)>)
    ensures r.Some? ==> |r.value.1| < |s|
    decreases |s|, 1
  {
    if s == "" then None
    else if "null" <= s then Some((Null, s[4..]))
    else if s[0] == '"' then
      match DecodeString(s)
      case Some((text, rest)) => Some((Str(text), rest))
      case None => None
    else if s[0] == '[' then
      var inner := SkipSpace(s[1..]);
      if inner != "" && inner[0] == ']' then Some((Arr([]), inner[1..]))
      else
        match DecodeItems(inner)
        case Some((items, rest)) => Some((Arr(items), rest))
        case None => None
    else if s[0] == '{' then
      var inner := SkipSpace(s[1..]);
      if inner != "" && inner[0] == '}' then Some((Obj([]), inner[1..]))
      else
        match DecodeMembers(inner)
        case Some((members, rest)) => Some((Obj(members), rest))
        case None => None
    else DecodeNumber(s)
  }

  /** One or more values separated by commas, up to the closing bracket. */
  function DecodeItems(s: string): (r: Option<(seq<Value>, string)>)
    ensures r.Some? ==> |r.value.1| < |s|
    decreases |s|, 2
  {
    match DecodeValue(s)
    case None => None
    case Some((item, after)) =>
      var next := SkipSpace(after);
      if next == "" then None
      else if next[0] == ']' then Some(([item], next[1..]))
      else if next[0] == ',' then
        match DecodeItems(SkipSpace(next[1..]))
        case Some((items, rest)) => Some(([item] + items, rest))
        case None => None
      else None
  }

  function DecodeMember(s: string): (r: Option<(Member, string)>)
    ensures r.Some? ==> |r.value.1| < |s|
    decreases |s|, 2
  {
    match DecodeString(s)
    case None => None
    case Some((key, after)) =>
      var colon := SkipSpace(after);
      if colon == "" || colon[0] != ':' then None
      else
        match DecodeValue(SkipSpace(colon[1..]))
        case Some((value, rest)) => Some((Member(key, value), rest))
        case None => None
  }

  /** One or more members separated by commas, up to the closing brace. */
  function DecodeMembers(s: string): (r: Option<(seq<Member>, string)>)
    ensures r.Some? ==> |r.value.1| < |s|
    decreases |s|, 3
  {
    match DecodeMember(s)
    case None => None
    case Some((member, after)) =>
      var next := SkipSpace(after);
      if next == "" then None
      else if next[0] == '}' then Some(([member], next[1..]))
      else if next[0] == ',' then
        match DecodeMembers(SkipSpace(next[1..]))
        case Some((members, rest)) => Some(([member] + members, rest))
        case None => None
      else None
  }

  /** A whole JSON text. */
  function Decode(s: string): Option<Value> {
    match DecodeValue(SkipSpace(s))
    case Some((value, rest)) => if SkipSpace(rest) == "" then Some(value) else None
    case None => None
  }

  // ----- Texts that read back -----

  /** `rest` cannot continue a number, so a value ends where `rest` begins. */
  predicate Delimits(rest: string) {
    rest == "" || !(IsDigit(rest[0]) || rest[0] in ".eE")
  }

  /** `text` decodes to `value` whatever delimited text follows. */
  ghost predicate Reads(text: string, value: Value) {
    && text != "" && !IsSpace(text[0]) && text[0] != ']'
    && forall rest | Delimits(rest) :: DecodeValue(text + rest) == Some((value, rest))
  }

  ghost predicate ReadsMember(text: string, member: Member) {
    && text != "" && text[0] == '"'
    && forall rest | Delimits(rest) :: DecodeMember(text + rest) == Some((member, rest))
  }

  predicate AllSpace(s: string) {
    forall i | 0 <= i < |s| :: IsSpace(s[i])
  }

  lemma {:induction false} SkipsOver(space: string, s: string)
    requires AllSpace(space) && (s == "" || !IsSpace(s[0]))
    ensures SkipSpace(space + s) == s
  {
    if space == "" {
      assert space + s == s;
    } else {
      assert IsSpace(space[0]) && (space + s)[1..] == space[1..] + s;
      SkipsOver(space[1..], s);
    }
  }

  function Joined(texts: seq<string>, separator: string): string {
    if texts == [] then ""
    else if |texts| == 1 then texts[0]
    else texts[0] + separator + Joined(texts[1..], separator)
  }

  lemma {:induction false} JoinedSnoc(texts: seq<string>, text: string, separator: string)
    ensures Joined(texts + [text], separator)
         == if texts == [] then text else Joined(texts, separator) + separator + text
  {
    if texts == [] {
      assert texts + [text] == [text];
    } else {
      assert (texts + [text])[1..] == texts[1..] + [text];
      JoinedSnoc(texts[1..], text, separator);
      if |texts| > 1 {
        var first := texts[0] + separator;
        assert first + (Joined(texts[1..], separator) + separator + text)
            == first + Joined(texts[1..], separator) + separator + text;
      }
    }
  }

  /** One decoder of a single item, and one of a list of them closed by `bracket`. */
  type One<T> = string -> Option<(T, string)>
  type Many<T> = string -> Option<(seq<T>, string)>

  /** The list ends after `item` when the bracket follows it. */
  ghost predicate Ends<T>(one: One, many: Many, bracket: string, s: string, item: T, after: string, rest: string) {
    one(s) == Some((item, after)) && SkipSpace(after) == bracket + rest ==> many(s) == Some(([item], rest))
  }

  /** The list goes on after `item` when a comma follows it. */
  ghost predicate GoesOn<T>(one: One, many: Many, s: string, item: T, space: string, more: string, items: seq<T>, rest: string) {
    one(s) == Some((item, "," + space + more)) && SkipSpace(space + more) == more && many(more) == Some((items, rest))
    ==> many(s) == Some(([item] + items, rest))
  }

  ghost predicate Lists<T(!new)>(one: One, many: Many, bracket: string) {
    && (forall s, item: T, after, rest :: Ends(one, many, bracket, s, item, after, rest))
    && (forall s, item: T, space, more, items, rest :: GoesOn(one, many, s, item, space, more, items, rest))
  }

  ghost predicate ReadsWith<T>(one: One, text: string, item: T) {
    && text != "" && !IsSpace(text[0])
    && forall rest | Delimits(rest) :: one(text + rest) == Some((item, rest))
  }

  /** Items that each read back still do when joined by commas and closed. */
  lemma {:induction false} ListReads<T(!new)>(
    one: One, many: Many, bracket: string, texts: seq<string>, items: seq<T>, gap: string, close: string, rest: string)
    requires Lists(one, many, bracket) && (bracket == "]" || bracket == "}")
    requires |texts| == |items| > 0 && AllSpace(gap) && AllSpace(close)
    requires forall i | 0 <= i < |texts| :: ReadsWith(one, texts[i], items[i])
    ensures many(Joined(texts, "," + gap) + (close + bracket + rest)) == Some((items, rest))
    decreases |texts|
  {
    var ending := close + bracket + rest;
    assert ReadsWith(one, texts[0], items[0]);
    if |texts| == 1 {
      EndingSkips(close, bracket, rest);
      assert Ends(one, many, bracket, texts[0] + ending, items[0], ending, rest);
      assert [items[0]] == items;
    } else {
      var more := Joined(texts[1..], "," + gap) + ending;
      assert ReadsWith(one, texts[1], items[1]);
      ListReads(one, many, bracket, texts[1..], items[1..], gap, close, rest);
      JoinedHead(texts[1..], "," + gap, ending);
      SkipsOver(gap, more);
      var after := "," + gap + more;
      assert after[0] == ',';
      assert GoesOn(one, many, texts[0] + after, items[0], gap, more, items[1..], rest);
      JoinedTail(texts, "," + gap, ending);
      assert [items[0]] + items[1..] == items;
    }
  }

  lemma ItemsAreListed()
    ensures Lists(DecodeValue, DecodeItems, "]")
  {
    forall s, item, after, rest
      ensures Ends(DecodeValue, DecodeItems, "]", s, item, after, rest)
    {
      if SkipSpace(after) == "]" + rest {
        assert ("]" + rest)[1..] == rest;
      }
    }
    forall s, item, space, more, items, rest
      ensures GoesOn(DecodeValue, DecodeItems, s, item, space, more, items, rest)
    {
      var after := "," + space + more;
      assert after[0] == ',' && SkipSpace(after) == after && after[1..] == space + more;
    }
  }

  lemma MembersAreListed()
    ensures Lists(DecodeMember, DecodeMembers, "}")
  {
    forall s, item, after, rest
      ensures Ends(DecodeMember, DecodeMembers, "}", s, item, after, rest)
    {
      if SkipSpace(after) == "}" + rest {
        assert ("}" + rest)[1..] == rest;
      }
    }
    forall s, item, space, more, items, rest
      ensures GoesOn(DecodeMember, DecodeMembers, s, item, space, more, items, rest)
    {
      var after := "," + space + more;
      assert after[0] == ',' && SkipSpace(after) == after && after[1..] == space + more;
    }
  }

  lemma EndingSkips(close: string, bracket: string, rest: string)
    requires AllSpace(close) && (bracket == "]" || bracket == "}")
    ensures SkipSpace(close + bracket + rest) == bracket + rest && Delimits(close + bracket + rest)
  {
    assert close + bracket + rest == close + (bracket + rest);
    SkipsOver(close, bracket + rest);
    assert close != "" ==> IsSpace(close[0]);
  }

  lemma JoinedTail(texts: seq<string>, separator: string, ending: string)
    requires |texts| > 1
    ensures Joined(texts, separator) + ending == texts[0] + (separator + (Joined(texts[1..], separator) + ending))
    ensures separator + (Joined(texts[1..], separator) + ending) == separator + Joined(texts[1..], separator) + ending
  {
  }

  lemma JoinedHead(texts: seq<string>, separator: string, ending: string)
    requires texts != [] && texts[0] != ""
    ensures Joined(texts, separator) != "" && (Joined(texts, separator) + ending)[0] == texts[0][0]
  {
  }

  /** The text of a bracketed list, opened from its first item on. */
  lemma OpensWith(texts: seq<string>, open: string, gap: string, ending: string)
    requires texts != [] && texts[0] != "" && !IsSpace(texts[0][0]) && AllSpace(open)
    ensures var inner := Joined(texts, "," + gap) + ending;
            SkipSpace(open + Joined(texts, "," + gap) + ending) == inner && inner != "" && inner[0] == texts[0][0]
  {
    var inner := Joined(texts, "," + gap) + ending;
    JoinedHead(texts, "," + gap, ending);
    SkipsOver(open, inner);
    assert open + Joined(texts, "," + gap) + ending == open + inner;
  }

  /** An array laid out with any spacing reads back as its items in order. */
  lemma ArrayReads(texts: seq<string>, values: seq<Value>, open: string, gap: string, close: string)
    requires |texts| == |values| > 0 && AllSpace(open) && AllSpace(gap) && AllSpace(close)
    requires forall i | 0 <= i < |texts| :: Reads(texts[i], values[i])
    ensures Reads("[" + (open + Joined(texts, "," + gap)) + (close + "]"), Arr(values))
  {
    var text := "[" + (open + Joined(texts, "," + gap)) + (close + "]");
    assert text[0] == '[';
    forall rest | Delimits(rest)
      ensures DecodeValue(text + rest) == Some((Arr(values), rest))
    {
      ArrayReadsBefore(texts, values, open, gap, close, rest);
    }
  }

  lemma ArrayReadsBefore(
    texts: seq<string>, values: seq<Value>, open: string, gap: string, close: string, rest: string)
    requires |texts| == |values| > 0 && AllSpace(open) && AllSpace(gap) && AllSpace(close)
    requires forall i | 0 <= i < |texts| :: Reads(texts[i], values[i])
    ensures DecodeValue("[" + (open + Joined(texts, "," + gap)) + (close + "]") + rest) == Some((Arr(values), rest))
  {
    var body, ending := open + Joined(texts, "," + gap), close + "]" + rest;
    var s := "[" + body + (close + "]") + rest;
    assert s[0] == '[' && s[1..] == body + ending;
    ItemsRead(texts, values, gap, close, rest);
    assert Reads(texts[0], values[0]);
    assert texts[0] != "" && !IsSpace(texts[0][0]) && texts[0][0] != ']';
    hide Reads, DecodeValue, DecodeItems, Joined, SkipSpace;
    OpensWith(texts, open, gap, ending);
    BracketValue(s, Joined(texts, "," + gap) + ending, values, rest);
  }

  lemma ItemsRead(texts: seq<string>, values: seq<Value>, gap: string, close: string, rest: string)
    requires |texts| == |values| > 0 && AllSpace(gap) && AllSpace(close)
    requires forall i | 0 <= i < |texts| :: Reads(texts[i], values[i])
    ensures DecodeItems(Joined(texts, "," + gap) + (close + "]" + rest)) == Some((values, rest))
  {
    ItemsAreListed();
    forall i | 0 <= i < |texts|
      ensures ReadsWith(DecodeValue, texts[i], values[i])
    {
      assert Reads(texts[i], values[i]);
    }
    ListReads(DecodeValue, DecodeItems, "]", texts, values, gap, close, rest);
  }

  lemma BracketValue(s: string, inner: string, values: seq<Value>, rest: string)
    requires s != "" && s[0] == '[' && SkipSpace(s[1..]) == inner
    requires inner != "" && inner[0] != ']' && DecodeItems(inner) == Some((values, rest))
    ensures DecodeValue(s) == Some((Arr(values), rest))
  {
    assert !("null" <= s);
  }

  /** An object laid out with any spacing reads back as its members in order. */
  lemma ObjectReads(texts: seq<string>, members: seq<Member>, open: string, gap: string, close: string)
    requires |texts| == |members| > 0 && AllSpace(open) && AllSpace(gap) && AllSpace(close)
    requires forall i | 0 <= i < |texts| :: ReadsMember(texts[i], members[i])
    ensures Reads("{" + (open + Joined(texts, "," + gap)) + (close + "}"), Obj(members))
  {
    var text := "{" + (open + Joined(texts, "," + gap)) + (close + "}");
    assert text[0] == '{';
    forall rest | Delimits(rest)
      ensures DecodeValue(text + rest) == Some((Obj(members), rest))
    {
      ObjectReadsBefore(texts, members, open, gap, close, rest);
    }
  }

  lemma ObjectReadsBefore(
    texts: seq<string>, members: seq<Member>, open: string, gap: string, close: string, rest: string)
    requires |texts| == |members| > 0 && AllSpace(open) && AllSpace(gap) && AllSpace(close)
    requires forall i | 0 <= i < |texts| :: ReadsMember(texts[i], members[i])
    ensures DecodeValue("{" + (open + Joined(texts, "," + gap)) + (close + "}") + rest) == Some((Obj(members), rest))
  {
    var body, ending := open + Joined(texts, "," + gap), close + "}" + rest;
    var s := "{" + body + (close + "}") + rest;
    assert s[0] == '{' && s[1..] == body + ending;
    assert ReadsMember(texts[0], members[0]);
    OpensWith(texts, open, gap, ending);
    MembersRead(texts, members, gap, close, rest);
    BraceValue(s, Joined(texts, "," + gap) + ending, members, rest);
  }

  lemma MembersRead(texts: seq<string>, members: seq<Member>, gap: string, close: string, rest: string)
    requires |texts| == |members| > 0 && AllSpace(gap) && AllSpace(close)
    requires forall i | 0 <= i < |texts| :: ReadsMember(texts[i], members[i])
    ensures DecodeMembers(Joined(texts, "," + gap) + (close + "}" + rest)) == Some((members, rest))
  {
    MembersAreListed();
    forall i | 0 <= i < |texts|
      ensures ReadsWith(DecodeMember, texts[i], members[i])
    {
      assert ReadsMember(texts[i], members[i]);
    }
    ListReads(DecodeMember, DecodeMembers, "}", texts, members, gap, close, rest);
  }

  lemma BraceValue(s: string, inner: string, members: seq<Member>, rest: string)
    requires s != "" && s[0] == '{' && SkipSpace(s[1..]) == inner
    requires inner != "" && inner[0] != '}' && DecodeMembers(inner) == Some((members, rest))
    ensures DecodeValue(s) == Some((Obj(members), rest))
  {
    assert !("null" <= s);
  }

  /** A text that reads as a value is a JSON text of that value. */
  lemma ReadsDecodes(text: string, value: Value)
    requires Reads(text, value)
    ensures Decode(text) == Some(value)
  {
    assert text + "" == text;
    assert DecodeValue(text + "") == Some((value, ""));
  }

  // ----- Scalars and members -----

  lemma QuotedReads(s: string)
    ensures Reads(Quoted(s), Str(s))
  {
    forall rest | Delimits(rest)
      ensures DecodeValue(Quoted(s) + rest) == Some((Str(s), rest))
    {
      StringRoundTrip(s, rest);
      assert (Quoted(s) + rest)[0] == '"' && !("null" <= Quoted(s) + rest);
    }
  }

  lemma NullReads()
    ensures Reads("null", Null)
  {
    forall rest | Delimits(rest)
      ensures DecodeValue("null" + rest) == Some((Null, rest))
    {
      assert "null" <= "null" + rest && ("null" + rest)[4..] == rest;
    }
  }

  lemma {:induction false} DigitCountOf(digits: string, rest: string)
    requires AllDigits(digits) && Delimits(rest)
    ensures DigitCount(digits + rest) == |digits|
  {
    if digits == "" {
      assert digits + rest == rest;
    } else {
      assert IsDigit(digits[0]) && (digits + rest)[1..] == digits[1..] + rest;
      DigitCountOf(digits[1..], rest);
    }
  }

  lemma DecimalReads(n: nat)
    ensures Reads(Decimal(n), Num(n))
  {
    DecimalRoundTrip(n);
    var digits := Decimal(n);
    assert IsDigit(digits[0]);
    forall rest | Delimits(rest)
      ensures DecodeValue(digits + rest) == Some((Num(n), rest))
    {
      var s := digits + rest;
      DigitCountOf(digits, rest);
      assert s[0] == digits[0] && s[..|digits|] == digits && s[|digits|..] == rest;
      assert !("null" <= s);
      if n < 10 {
        assert |digits| == 1;
      }
    }
  }

  /** A scalar as the encoder writes it. */
  function Scalar(value: Value): string
    requires value.Null? || value.Str? || value.Num?
  {
    match value
    case Null => "null"
    case Str(text) => Quoted(text)
    case Num(number) => Decimal(number)
  }

  lemma ScalarReads(value: Value)
    requires value.Null? || value.Str? || value.Num?
    ensures Reads(Scalar(value), value)
  {
    match value
    case Null => NullReads();
    case Str(text) => QuotedReads(text);
    case Num(number) => DecimalReads(number);
  }

  /** A key that needs no escaping is written as it stands. */
  predicate IsPlain(key: string) {
    forall i | 0 <= i < |key| :: 'a' <= key[i] <= 'z'
  }

  lemma {:induction false} PlainKey(key: string)
    requires IsPlain(key)
    ensures EscapeAll(key) == key
  {
    if key != "" {
      PlainKey(key[1..]);
    }
  }

  lemma MemberReads(member: Member)
    requires IsPlain(member.key) && (member.value.Null? || member.value.Str? || member.value.Num?)
    ensures ReadsMember("\"" + member.key + "\": " + Scalar(member.value), member)
  {
    ScalarReads(member.value);
    forall rest | Delimits(rest)
      ensures DecodeMember("\"" + member.key + "\": " + Scalar(member.value) + rest) == Some((member, rest))
    {
      MemberReadsBefore(member, Scalar(member.value), rest);
    }
  }

  lemma MemberReadsBefore(member: Member, text: string, rest: string)
    requires IsPlain(member.key) && Delimits(rest) && Reads(text, member.value)
    ensures DecodeMember("\"" + member.key + "\": " + text + rest) == Some((member, rest))
  {
    var value := text + rest;
    var after := ": " + value;
    assert DecodeValue(value) == Some((member.value, rest));
    PlainKey(member.key);
    assert "\"" + member.key + "\": " + text + rest == Quoted(member.key) + after;
    hide DecodeMember, DecodeValue, DecodeString, Delimits, Quoted;
    StringRoundTrip(member.key, after);
    SkipsOver(" ", value);
    assert after[1..] == " " + value;
    MemberDecodes(Quoted(member.key) + after, member, after, value, rest);
  }

  lemma MemberDecodes(s: string, member: Member, after: string, value: string, rest: string)
    requires DecodeString(s) == Some((member.key, after)) && after != "" && after[0] == ':'
    requires SkipSpace(after[1..]) == value && DecodeValue(value) == Some((member.value, rest))
    ensures DecodeMember(s) == Some((member, rest))
  {
    hide DecodeString, DecodeValue;
    assert SkipSpace(after) == after;
  }

  // ----- Arrays of strings -----

  function QuotedAll(values: seq<string>): seq<string> {
    seq(|values|, i requires 0 <= i < |values| => Quoted(values[i]))
  }

  function StringArray(values: seq<string>): string {
    "[" + Joined(QuotedAll(values), ", ") + "]"
  }

  lemma NothingJoined(separator: string)
    ensures Joined(QuotedAll([]), separator) == ""
  {
  }

  method JsonStringArray(values: seq<string>) returns (out: string)
    ensures out == StringArray(values)
  {
    hide Quoted, Joined;
    out := "[";
    assert Joined(QuotedAll([]), ", ") == "" by { NothingJoined(", "); }
    for i := 0 to |values|
      invariant out == "[" + Joined(QuotedAll(values[..i]), ", ")
    {
      JoinedSnoc(QuotedAll(values[..i]), Quoted(values[i]), ", ");
      assert QuotedAll(values[..i + 1]) == QuotedAll(values[..i]) + [Quoted(values[i])];
      if i > 0 {
        out := out + ", ";
      }
      var element := JsonString(values[i]);
      out := out + element;
    }
    assert values[..|values|] == values;
    out := out + "]";
  }

  lemma EmptyArrayDecodes()
    ensures Decode("[]") == Some(Arr([]))
  {
    var s := "[]";
    assert s[0] == '[' && s[1..] == "]" && "]"[1..] == "";
    assert SkipSpace("]") == "]" && SkipSpace(s) == s;
    assert DecodeValue(s) == Some((Arr([]), ""));
  }

  /** The array decodes to the same strings in the same order. */
  lemma StringArrayRoundTrip(values: seq<string>)
    ensures Decode(StringArray(values))
         == Some(Arr(seq(|values|, i requires 0 <= i < |values| => Str(values[i]))))
  {
    var decoded := seq(|values|, i requires 0 <= i < |values| => Str(values[i]));
    if values == [] {
      EmptyArrayDecodes();
      assert QuotedAll(values) == [] && decoded == [] && StringArray(values) == "[]";
    } else {
      forall i | 0 <= i < |values|
        ensures Reads(QuotedAll(values)[i], decoded[i])
      {
        QuotedReads(values[i]);
      }
      ArrayReads(QuotedAll(values), decoded, "", " ", "");
      hide Reads, Joined, QuotedAll, Decode;
      PlainBrackets(Joined(QuotedAll(values), ", "));
      assert "," + " " == ", ";
      ReadsDecodes(StringArray(values), Arr(decoded));
    }
  }

  lemma PlainBrackets(body: string)
    ensures "[" + ("" + body) + ("" + "]") == "[" + body + "]"
  {
  }
}
