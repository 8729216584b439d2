/** The dispense command string and the parser of the machine's acknowledgement. */
module WireFormat {
  import opened Common
  import opened Cups

  // ─── JavaScript string operations ──────────────────────────────────────────

  /** `s.split(c)`: never empty, and the empty string splits into one empty part. */
  function Split(s: string, c: char): (parts: seq<string>)
    ensures parts != []
  {
    if s == "" then [""]
    else if s[0] == c then [""] + Split(s[1..], c)
    else
      var rest := Split(s[1..], c);
      [[s[0]] + rest[0]] + rest[1..]
  }

  function Join(parts: seq<string>, c: char): string {
    if parts == [] then ""
    else if |parts| == 1 then parts[0]
    else parts[0] + [c] + Join(parts[1..], c)
  }

  /** `list.filter(Boolean)` on strings. */
  function NonEmpty(parts: seq<string>): seq<string> {
    if parts == [] then []
    else (if parts[0] == "" then [] else [parts[0]]) + NonEmpty(parts[1..])
  }

  /** `s.replace('N', '')`: drops the first N. */
  function DropFirstN(s: string): string {
    if s == "" then "" else if s[0] == 'N' then s[1..] else [s[0]] + DropFirstN(s[1..])
  }

  predicate IsDigit(c: char) { '0' <= c <= '9' }

  predicate IsSpace(c: char) { c == ' ' || c == '\t' || c == '\n' || c == '\r' }

  /** Decimal value of a string of digits. */
  function Value(s: string): nat
    requires forall i | 0 <= i < |s| :: IsDigit(s[i])
  {
    if s == "" then 0 else assert IsDigit(s[|s| - 1]); 10 * Value(s[..|s| - 1]) + (s[|s| - 1] as int - '0' as int)
  }

  function LeadingDigits(s: string): (d: string)
    ensures forall i | 0 <= i < |d| :: IsDigit(d[i])
  {
    if s == "" || !IsDigit(s[0]) then "" else [s[0]] + LeadingDigits(s[1..])
  }

  function TrimLeft(s: string): string {
    if s != "" && IsSpace(s[0]) then TrimLeft(s[1..]) else s
  }

  /** `parseInt(s, 10)`; None is NaN. */
  function ParseInt(s: string): Option<int> {
    var t := TrimLeft(s);
    var negative := t != "" && t[0] == '-';
    var body := if t != "" && (t[0] == '-' || t[0] == '+') then t[1..] else t;
    var d := LeadingDigits(body);
    if d == "" then None else Some(if negative then -(Value(d) as int) else Value(d))
  }

  /** A natural number as a template literal prints it. */
  function Digits(n: nat): string {
    var last := [('0' as int + n % 10) as char];
    if n < 10 then last else Digits(n / 10) + last
  }

  function Print(n: int): string {
    if n < 0 then "-" + Digits(-n) else Digits(n)
  }

  // ─── The command and its acknowledgement ───────────────────────────────────

  datatype Command =
    | CoffeeCommand(nozzle: int, name: string, quantity: nat, water: int, powder: int)
    | FoodCommand(nozzle: int, name: string, quantity: nat)

  /** N{nozzle}-{name}-{qty}-{water}-{powder}, or N{nozzle}-{name}-{qty}- for food. */
  function PrintCommand(c: Command): string {
    var head := "N" + Print(c.nozzle) + "-" + c.name + "-" + Digits(c.quantity) + "-";
    match c
    case FoodCommand(_, _, _) => head
    case CoffeeCommand(_, _, _, water, powder) => head + Print(water) + "-" + Print(powder)
  }

  /** The nozzle and quantity of one part: N1-qty, or N1-name-qty-... */
  function ParsePart(s: string): Part {
    var parts := Split(s, '-');
    Part(ParseInt(DropFirstN(parts[0])),
         if |parts| == 2 then ParseInt(parts[1]).GetOr(0)
         else if |parts| > 2 then ParseInt(parts[2]).GetOr(0)
         else 0)
  }

  function ParseParts(list: seq<string>): seq<Part> {
    if list == [] then [] else [ParsePart(list[0])] + ParseParts(list[1..])
  }

  function ParseAck(ord: string): seq<Part> {
    ParseParts(NonEmpty(Split(ord, ',')))
  }

  /** The parts a handler gets to, if it stops after some of them. */
  function UpTo(parts: seq<Part>, stop: Option<nat>): seq<Part> {
    if stop.Some? then parts[..Min(stop.value, |parts|)] else parts
  }

  function Total(parts: seq<Part>): int {
    if parts == [] then 0 else Total(parts[..|parts| - 1]) + parts[|parts| - 1].quantity
  }

  lemma {:induction false} TotalSplit(a: seq<Part>, b: seq<Part>)
    ensures Total(a + b) == Total(a) + Total(b)
  {
    if b == [] {
      assert a + b == a;
    } else {
      assert (a + b)[..|a + b| - 1] == a + b[..|b| - 1];
      TotalSplit(a, b[..|b| - 1]);
    }
  }

  // ─── Splitting ─────────────────────────────────────────────────────────────

  lemma {:induction false} SplitAtFirst(a: string, c: char, b: string)
    requires c !in a
    ensures Split(a + [c] + b, c) == [a] + Split(b, c)
    ensures Split(a, c) == [a]
  {
    var s := a + [c] + b;
    if a == "" {
      assert s[1..] == b;
    } else {
      SplitAtFirst(a[1..], c, b);
      assert s[1..] == a[1..] + [c] + b;
      assert [a[0]] + a[1..] == a;
      var rest := [a[1..]] + Split(b, c);
      assert Split(s, c) == [[s[0]] + rest[0]] + rest[1..];
      assert rest[1..] == Split(b, c);
    }
  }

  lemma {:induction false} SplitJoined(parts: seq<string>, c: char)
    requires parts != [] && forall i | 0 <= i < |parts| :: c !in parts[i]
    ensures Split(Join(parts, c), c) == parts
  {
    SplitAtFirst(parts[0], c, Join(parts[1..], c));
    if |parts| > 1 {
      SplitJoined(parts[1..], c);
    }
  }

  lemma {:induction false} NothingEmpty(parts: seq<string>)
    requires forall i | 0 <= i < |parts| :: parts[i] != ""
    ensures NonEmpty(parts) == parts
  {
    if parts != [] { NothingEmpty(parts[1..]); }
  }

  // ─── Numbers ───────────────────────────────────────────────────────────────

  lemma {:induction false} DigitsAreDigits(n: nat)
    ensures Digits(n) != "" && forall i | 0 <= i < |Digits(n)| :: IsDigit(Digits(n)[i])
  {
    if n >= 10 { DigitsAreDigits(n / 10); }
  }

  lemma {:induction false} ValueOfDigits(n: nat)
    ensures (forall i | 0 <= i < |Digits(n)| :: IsDigit(Digits(n)[i])) && Value(Digits(n)) == n
  {
    DigitsAreDigits(n);
    var last := [('0' as int + n % 10) as char];
    if n < 10 {
      assert Digits(n)[..0] == "";
    } else {
      ValueOfDigits(n / 10);
      assert Digits(n)[..|Digits(n)| - 1] == Digits(n / 10);
    }
  }

  lemma {:induction false} AllLeading(s: string)
    requires forall i | 0 <= i < |s| :: IsDigit(s[i])
    ensures LeadingDigits(s) == s
  {
    if s != "" {
      AllLeading(s[1..]);
      assert [s[0]] + s[1..] == s;
    }
  }

  /** Parsing what was printed gives the number back. */
  lemma ParsePrinted(n: nat)
    ensures ParseInt(Digits(n)) == Some(n)
    ensures '-' !in Digits(n) && ',' !in Digits(n) && 'N' !in Digits(n)
  {
    ValueOfDigits(n);
    DigitsAreDigits(n);
    AllLeading(Digits(n));
    assert IsDigit(Digits(n)[0]);
  }

  // ─── Printing then parsing is the identity on nozzle and quantity ──────────

  function Timers(c: Command): string {
    match c
    case FoodCommand(_, _, _) => ""
    case CoffeeCommand(_, _, _, water, powder) => Print(water) + "-" + Print(powder)
  }

  function AfterName(c: Command): string { Digits(c.quantity) + ['-'] + Timers(c) }

  function AfterNozzle(c: Command): string { c.name + ['-'] + AfterName(c) }

  /** The command is the nozzle field, the name, the quantity and the timers, separated by dashes. */
  lemma CommandShape(c: Command)
    ensures PrintCommand(c) == ("N" + Print(c.nozzle)) + ['-'] + AfterNozzle(c)
  {
    Regroup("N" + Print(c.nozzle), c.name, Digits(c.quantity), Timers(c));
    if c.FoodCommand? {
      assert PrintCommand(c) == PrintCommand(c) + "";
    } else {
      var head := "N" + Print(c.nozzle) + "-" + c.name + "-" + Digits(c.quantity) + "-";
      Associate(head, Print(c.water) + "-", Print(c.powder));
      Associate(head, Print(c.water), "-");
    }
  }

  lemma Associate(a: string, b: string, c: string)
    ensures a + b + c == a + (b + c)
  {
  }

  lemma Regroup(nozzle: string, name: string, quantity: string, timers: string)
    ensures nozzle + "-" + name + "-" + quantity + "-" + timers
         == nozzle + ['-'] + (name + ['-'] + (quantity + ['-'] + timers))
  {
    var afterName := quantity + ['-'] + timers;
    Associate(nozzle + "-" + name + "-", quantity + "-", timers);
    Associate(nozzle + "-" + name + "-", quantity, "-");
    Associate(nozzle + "-", name + "-", afterName);
    Associate(nozzle + "-", name, "-");
  }

  lemma NoComma(n: int)
    ensures ',' !in Print(n)
  {
    ParsePrinted(if n < 0 then -n else n);
  }

  lemma NozzleField(n: nat)
    ensures ParseInt(DropFirstN("N" + Digits(n))) == Some(n)
    ensures '-' !in "N" + Digits(n)
  {
    ParsePrinted(n);
    assert ("N" + Digits(n))[1..] == Digits(n);
  }

  /** Without a dash in the nozzle field, the first piece is that field. */
  lemma CommandPieces(c: Command)
    requires c.nozzle >= 0
    ensures Split(PrintCommand(c), '-') == ["N" + Digits(c.nozzle)] + Split(AfterNozzle(c), '-')
    ensures ParsePart(PrintCommand(c)).nozzle == Some(c.nozzle)
  {
    CommandShape(c);
    NozzleField(c.nozzle);
    SplitAtFirst("N" + Digits(c.nozzle), '-', AfterNozzle(c));
  }

  lemma ParseCommand(c: Command)
    requires c.nozzle >= 0 && '-' !in c.name
    ensures ParsePart(PrintCommand(c)) == Part(Some(c.nozzle), c.quantity)
  {
    CommandPieces(c);
    ParsePrinted(c.quantity);
    SplitAtFirst(c.name, '-', AfterName(c));
    SplitAtFirst(Digits(c.quantity), '-', Timers(c));
  }

  /**
   * For a name with a dash, a + "-" + b with no dash in a, the quantity is read from the piece after
   * the first dash: it is recovered exactly when that piece happens to parse to it.
   */
  lemma DashedNameRecoveredIff(c: Command, a: string, b: string)
    requires c.nozzle >= 0 && c.name == a + ['-'] + b && '-' !in a
    ensures
      var piece := Split(b + ['-'], '-')[0];
      && ParsePart(PrintCommand(c)).nozzle == Some(c.nozzle)
      && ParsePart(PrintCommand(c)).quantity == ParseInt(piece).GetOr(0)
      && (ParsePart(PrintCommand(c)).quantity == c.quantity <==> ParseInt(piece).GetOr(0) == c.quantity)
  {
    CommandPieces(c);
    var rest := b + ['-'] + AfterName(c);
    assert AfterNozzle(c) == a + ['-'] + rest by {
      Associate(a + ['-'], b, ['-']);
      Associate(a + ['-'], b + ['-'], AfterName(c));
    }
    SplitAtFirst(a, '-', rest);
    FirstPiece(b, AfterName(c));
    assert Split(PrintCommand(c), '-')[2] == Split(rest, '-')[0];
  }

  /** A negative nozzle number is never recovered. */
  lemma NegativeNozzleIsLost(c: Command)
    requires c.nozzle < 0
    ensures ParsePart(PrintCommand(c)).nozzle == None
  {
    CommandShape(c);
    var rest := Digits(-c.nozzle) + ['-'] + AfterNozzle(c);
    assert PrintCommand(c) == "N" + ['-'] + rest by {
      Associate("N", ['-'], Digits(-c.nozzle));
      Associate("N" + ['-'], Digits(-c.nozzle), ['-']);
      Associate("N" + ['-'], Digits(-c.nozzle) + ['-'], AfterNozzle(c));
    }
    SplitAtFirst("N", '-', rest);
    assert "N"[1..] == "";
  }

  lemma {:induction false} FirstPiece(b: string, rest: string)
    ensures Split(b + ['-'] + rest, '-')[0] == Split(b + ['-'], '-')[0]
    ensures |Split(b + ['-'] + rest, '-')| >= 2
  {
    if b == "" {
      SplitAtFirst("", '-', rest);
      SplitAtFirst("", '-', "");
      assert [] + ['-'] + [] == ['-'];
    } else {
      FirstPiece(b[1..], rest);
      assert (b + ['-'] + rest)[1..] == b[1..] + ['-'] + rest;
      assert (b + ['-'])[1..] == b[1..] + ['-'];
    }
  }

  function PrintAll(commands: seq<Command>): seq<string> {
    if commands == [] then [] else [PrintCommand(commands[0])] + PrintAll(commands[1..])
  }

  /** What the parser should recover. */
  function Expected(commands: seq<Command>): seq<Part> {
    if commands == [] then [] else [Part(Some(commands[0].nozzle), commands[0].quantity)] + Expected(commands[1..])
  }

  function Ordered(commands: seq<Command>): nat {
    if commands == [] then 0 else commands[0].quantity + Ordered(commands[1..])
  }

  /** A nozzle number that prints without a dash, and a name with no separator in it. */
  predicate Plain(c: Command) { c.nozzle >= 0 && '-' !in c.name && ',' !in c.name }

  lemma PrintedHasNoComma(c: Command)
    requires ',' !in c.name
    ensures ',' !in PrintCommand(c) && PrintCommand(c) != ""
  {
    CommandShape(c);
    NoComma(c.nozzle);
    ParsePrinted(c.quantity);
    if c.CoffeeCommand? {
      NoComma(c.water);
      NoComma(c.powder);
    }
  }

  lemma {:induction false} PrintAllSpec(commands: seq<Command>)
    requires forall i | 0 <= i < |commands| :: Plain(commands[i])
    ensures |PrintAll(commands)| == |commands|
    ensures forall i | 0 <= i < |commands| :: ',' !in PrintAll(commands)[i] && PrintAll(commands)[i] != ""
    ensures ParseParts(PrintAll(commands)) == Expected(commands)
    ensures Total(Expected(commands)) == Ordered(commands)
  {
    if commands != [] {
      PrintAllSpec(commands[1..]);
      PrintedHasNoComma(commands[0]);
      ParseCommand(commands[0]);
      var head := [Part(Some(commands[0].nozzle), commands[0].quantity)];
      TotalSplit(head, Expected(commands[1..]));
      assert head[..0] == [];
      assert Total(head) == commands[0].quantity;
    }
  }

  /**
   * For any list of commands with natural nozzles and item names free of dashes and commas, an acknowledgement that
   * joins the commands with commas is parsed to every nozzle and quantity, and totals their quantities.
   */
  lemma AckRoundTrip(commands: seq<Command>)
    requires forall i | 0 <= i < |commands| :: Plain(commands[i])
    ensures ParseAck(Join(PrintAll(commands), ',')) == Expected(commands)
    ensures Total(ParseAck(Join(PrintAll(commands), ','))) == Ordered(commands)
  {
    PrintAllSpec(commands);
    if commands == [] {
      assert NonEmpty([""]) == [];
    } else {
      SplitJoined(PrintAll(commands), ',');
      NothingEmpty(PrintAll(commands));
    }
  }

  /** The old firmware form N{nozzle}-{qty} is read too. */
  lemma ShortForm(nozzle: nat, quantity: nat)
    ensures ParsePart("N" + Digits(nozzle) + "-" + Digits(quantity)) == Part(Some(nozzle), quantity)
  {
    ParsePrinted(nozzle);
    ParsePrinted(quantity);
    NozzleField(nozzle);
    SplitAtFirst("N" + Digits(nozzle), '-', Digits(quantity));
    SplitAtFirst(Digits(quantity), '-', "");
  }

  lemma {:induction false} PiecesHaveNoSeparator(s: string, c: char)
    ensures forall i | 0 <= i < |Split(s, c)| :: c !in Split(s, c)[i]
  {
    if s != "" { PiecesHaveNoSeparator(s[1..], c); }
  }

  lemma {:induction false} TrimKeepsAbsence(s: string, c: char)
    requires c !in s
    ensures c !in TrimLeft(s)
  {
    if s != "" && IsSpace(s[0]) { TrimKeepsAbsence(s[1..], c); }
  }

  lemma QuantityIsNatural(s: string)
    ensures ParsePart(s).quantity >= 0
  {
    var parts := Split(s, '-');
    PiecesHaveNoSeparator(s, '-');
    if |parts| >= 2 {
      TrimKeepsAbsence(parts[1], '-');
    }
    if |parts| > 2 {
      TrimKeepsAbsence(parts[2], '-');
    }
  }

  lemma {:induction false} PartsAreSensible(list: seq<string>)
    ensures Sensible(ParseParts(list)) && Total(ParseParts(list)) >= 0
  {
    if list != [] {
      PartsAreSensible(list[1..]);
      QuantityIsNatural(list[0]);
      var head := [ParsePart(list[0])];
      TotalSplit(head, ParseParts(list[1..]));
      assert head[..0] == [] && Total(head) == head[0].quantity;
    }
  }

  /** Any acknowledgement, well formed or not, reports natural quantities. */
  lemma AckIsSensible(ord: string)
    ensures Sensible(ParseAck(ord)) && Total(ParseAck(ord)) >= 0
  {
    PartsAreSensible(NonEmpty(Split(ord, ',')));
  }

  // ─── What is read as a number ──────────────────────────────────────────────

  lemma {:induction false} SpacesTrimmed(space: string, s: string)
    requires (forall i | 0 <= i < |space| :: IsSpace(space[i])) && (s == "" || !IsSpace(s[0]))
    ensures TrimLeft(space + s) == s
  {
    if space == "" {
      assert space + s == s;
    } else {
      assert (space + s)[1..] == space[1..] + s;
      SpacesTrimmed(space[1..], s);
    }
  }

  lemma {:induction false} LeadingDigitsOf(digits: string, rest: string)
    requires (forall i | 0 <= i < |digits| :: IsDigit(digits[i])) && (rest == "" || !IsDigit(rest[0]))
    ensures LeadingDigits(digits + rest) == digits
  {
    if digits == "" {
      assert digits + rest == rest;
    } else {
      assert (digits + rest)[1..] == digits[1..] + rest;
      LeadingDigitsOf(digits[1..], rest);
      assert [digits[0]] + digits[1..] == digits;
    }
  }

  /** A number is read behind white space and a sign, up to the first character that is no digit. */
  lemma NumberIsRead(space: string, sign: string, n: nat, rest: string)
    requires (forall i | 0 <= i < |space| :: space[i] in " \t\n\r") && sign in ["", "+", "-"]
    requires rest == "" || !('0' <= rest[0] <= '9')
    ensures ParseInt(space + (sign + (Digits(n) + rest))) == Some(if sign == "-" then 0 - n else n)
  {
    DigitsAreDigits(n);
    ValueOfDigits(n);
    var body := Digits(n) + rest;
    assert body[0] == Digits(n)[0] && IsDigit(body[0]);
    SpacesTrimmed(space, sign + body);
    LeadingDigitsOf(Digits(n), rest);
    assert sign != "" ==> (sign + body)[1..] == body;
    assert sign == "" ==> sign + body == body;
  }

  /** Nothing is read where no digit follows the white space and the sign. */
  lemma NoNumberIsRead(space: string, sign: string, rest: string)
    requires (forall i | 0 <= i < |space| :: space[i] in " \t\n\r") && sign in ["", "+", "-"]
    requires rest == "" || (!('0' <= rest[0] <= '9') && rest[0] !in " \t\n\r+-")
    ensures ParseInt(space + (sign + rest)) == None
  {
    SpacesTrimmed(space, sign + rest);
    assert sign != "" ==> (sign + rest)[1..] == rest;
    assert sign == "" ==> sign + rest == rest;
  }

  /** A part with no dash names a nozzle at most and reports nothing. */
  lemma NozzleAloneReportsNothing(s: string)
    requires '-' !in s
    ensures ParsePart(s).quantity == 0
  {
    SplitAtFirst(s, '-', "");
  }

  /** A text is blank when it is white space throughout, and only then. */
  lemma {:induction false} BlankIff(s: string)
    ensures TrimLeft(s) == "" <==> forall i | 0 <= i < |s| :: s[i] in " \t\n\r"
  {
    if s != "" {
      assert s == [s[0]] + s[1..];
      BlankIff(s[1..]);
      assert forall i | 1 <= i < |s| :: s[i] == s[1..][i - 1];
    }
  }

  // ─── Acknowledgements side by side ─────────────────────────────────────────

  /** The pieces of a text with one character more in front. */
  function Extended(x: char, pieces: seq<string>, c: char): seq<string>
    requires pieces != []
  {
    if x == c then [""] + pieces else [[x] + pieces[0]] + pieces[1..]
  }

  lemma SplitStep(x: char, tail: string, c: char)
    ensures Split([x] + tail, c) == Extended(x, Split(tail, c), c)
  {
    assert ([x] + tail)[1..] == tail;
  }

  lemma ExtendedBoth(x: char, front: seq<string>, back: seq<string>, c: char)
    requires front != []
    ensures Extended(x, front + back, c) == Extended(x, front, c) + back
  {
    if x == c {
      assert [""] + (front + back) == [""] + front + back;
    } else {
      assert (front + back)[1..] == front[1..] + back;
    }
  }

  /** One character more in front of two texts. */
  lemma SplitBothStep(x: char, tail: string, c: char, both: string, back: seq<string>)
    requires Split(both, c) == Split(tail, c) + back
    ensures Split([x] + both, c) == Split([x] + tail, c) + back
  {
    SplitStep(x, both, c);
    SplitStep(x, tail, c);
    ExtendedBoth(x, Split(tail, c), back, c);
  }

  lemma {:induction false} SplitBoth(a: string, c: char, b: string)
    ensures Split(a + ([c] + b), c) == Split(a, c) + Split(b, c)
  {
    var rest := [c] + b;
    if a == "" {
      assert a + rest == rest;
      SplitStep(c, b, c);
    } else {
      var head, tail := [a[0]], a[1..];
      SplitBoth(tail, c, b);
      SplitBothStep(a[0], tail, c, tail + rest, Split(b, c));
      assert head + tail == a;
      Associate(head, tail, rest);
    }
  }

  lemma {:induction false} NonEmptyBoth(a: seq<string>, b: seq<string>)
    ensures NonEmpty(a + b) == NonEmpty(a) + NonEmpty(b)
  {
    if a == [] {
      assert a + b == b;
    } else {
      assert (a + b)[1..] == a[1..] + b;
      NonEmptyBoth(a[1..], b);
    }
  }

  lemma {:induction false} ParseBoth(a: seq<string>, b: seq<string>)
    ensures ParseParts(a + b) == ParseParts(a) + ParseParts(b)
  {
    if a == [] {
      assert a + b == b;
    } else {
      assert (a + b)[1..] == a[1..] + b;
      ParseBoth(a[1..], b);
    }
  }

  /** Any two texts joined by a comma are read one after the other, and an empty one as nothing. */
  lemma AcksSideBySide(a: string, b: string)
    ensures ParseAck(a + ([','] + b)) == ParseAck(a) + ParseAck(b)
    ensures ParseAck("") == []
    ensures Total(ParseAck(a + ([','] + b))) == Total(ParseAck(a)) + Total(ParseAck(b))
  {
    SplitBoth(a, ',', b);
    NonEmptyBoth(Split(a, ','), Split(b, ','));
    ParseBoth(NonEmpty(Split(a, ',')), NonEmpty(Split(b, ',')));
    TotalSplit(ParseAck(a), ParseAck(b));
    assert NonEmpty([""]) == [];
  }
}
