/** A reader of the text of a payload, written without the printer, and what the text determines.

    The reader follows the grammar of RFC 8259 and is strict: no space but one after a comma or a colon, integers
    without leading zeros, and one spelling of every character of a string. It accepts exactly the printed texts
    (`ReadsIffPrinted`). So the text of a payload is the one accepted text with the payload's value and ascending
    keys (`DumpsIsTheText`), and two payloads are printed alike exactly when they stand for the same value
    (`DumpsIffSameValue`): the text neither loses information nor depends on key order, at any depth. */
module JsonText {
  import opened Basics
  import opened CanonicalJson

  // ---------------------------------------------------------------- the reader

  datatype Parsed<T> = Bad | Good(value: T, rest: string)

  predicate Starts(t: string, with: string) {
    |with| <= |t| && t[..|with|] == with
  }

  /** The characters with an escape of two characters. */
  predicate IsShort(c: char) {
    c == '"' || c == '\\' || c == '\U{08}' || c == '\U{0C}' || c == '\n' || c == '\r' || c == '\t'
  }

  /** What the second character of such an escape stands for. */
  function Unescape(d: char): Option<char> {
    if d == '"' || d == '\\' then Some(d)
    else if d == 'b' then Some('\U{08}')
    else if d == 'f' then Some('\U{0C}')
    else if d == 'n' then Some('\n')
    else if d == 'r' then Some('\r')
    else if d == 't' then Some('\t')
    else None
  }

  function HexValue(c: char): int {
    if '0' <= c <= '9' then c as int - '0' as int else if 'a' <= c <= 'f' then c as int - 'a' as int + 10 else -1
  }

  /** One character of a string: itself, its short escape, or, for a control character without one, `\u00` and
      two hexadecimal digits. */
  function ReadChar(t: string): (r: Parsed<char>)
    ensures r.Good? ==> |r.rest| < |t|
  {
    if t == "" || t[0] == '"' || t[0] < ' ' then Bad
    else if t[0] != '\\' then Good(t[0], t[1..])
    else if |t| >= 2 && Unescape(t[1]).Some? then Good(Unescape(t[1]).value, t[2..])
    else if |t| >= 6 && t[1] == 'u' && t[2] == '0' && t[3] == '0' && 0 <= HexValue(t[4]) < 2 && HexValue(t[5]) >= 0 then
      var c := (HexValue(t[4]) * 16 + HexValue(t[5])) as char;
      if IsShort(c) then Bad else Good(c, t[6..])
    else Bad
  }

  /** A string after its opening quote. */
  function ReadString(t: string): (r: Parsed<string>)
    ensures r.Good? ==> |r.rest| < |t|
  {
    if Starts(t, "\"") then Good("", t[1..])
    else
      match ReadChar(t)
      case Bad => Bad
      case Good(c, rest) =>
        match ReadString(rest)
        case Bad => Bad
        case Good(s, after) => Good([c] + s, after)
  }

  predicate IsDigit(c: char) { '0' <= c <= '9' }

  predicate AreDigits(s: string) {
    forall i :: 0 <= i < |s| ==> IsDigit(s[i])
  }

  /** How many digits the text starts with. */
  function DigitCount(t: string): (n: nat)
    ensures n <= |t| && (forall i :: 0 <= i < n ==> IsDigit(t[i])) && (n < |t| ==> !IsDigit(t[n]))
  {
    if t != "" && IsDigit(t[0]) then DigitCount(t[1..]) + 1 else 0
  }

  function DigitsValue(s: string): int {
    if s == "" then 0 else DigitsValue(s[..|s| - 1]) * 10 + (s[|s| - 1] as int - '0' as int)
  }

  function ReadDigits(t: string): (r: Parsed<int>)
    ensures r.Good? ==> |r.rest| < |t|
  {
    var n := DigitCount(t);
    if n == 0 || (t[0] == '0' && n > 1) then Bad else Good(DigitsValue(t[..n]), t[n..])
  }

  function Negated(r: Parsed<int>): Parsed<int> {
    match r case Bad => Bad case Good(n, rest) => if n == 0 then Bad else Good(-n, rest)
  }

  function ReadNumber(t: string): (r: Parsed<int>)
    ensures r.Good? ==> |r.rest| < |t|
  {
    if Starts(t, "-") then Negated(ReadDigits(t[1..])) else ReadDigits(t)
  }

  function AsInt(r: Parsed<int>): Parsed<Json> {
    match r case Bad => Bad case Good(n, rest) => Good(Int(n), rest)
  }

  function AsStr(r: Parsed<string>): Parsed<Json> {
    match r case Bad => Bad case Good(s, rest) => Good(Str(s), rest)
  }

  function AsArr(r: Parsed<Items>): Parsed<Json> {
    match r case Bad => Bad case Good(items, rest) => Good(Arr(items), rest)
  }

  function AsObj(r: Parsed<Members>): Parsed<Json> {
    match r case Bad => Bad case Good(members, rest) => Good(Obj(members), rest)
  }

  function AddItem(head: Json, r: Parsed<Items>): Parsed<Items> {
    match r case Bad => Bad case Good(tail, rest) => Good(Item(head, tail), rest)
  }

  function AddMember(key: string, value: Json, r: Parsed<Members>): Parsed<Members> {
    match r case Bad => Bad case Good(tail, rest) => Good(Member(key, value, tail), rest)
  }

  function ReadWord(t: string, word: string, meaning: Json): (r: Parsed<Json>)
    ensures r.Good? ==> |r.rest| <= |t| - |word|
  {
    if Starts(t, word) then Good(meaning, t[|word|..]) else Bad
  }

  /** Every value but an array or an object. */
  function ReadScalar(t: string): (r: Parsed<Json>)
    requires t != ""
    ensures r.Good? ==> |r.rest| < |t|
  {
    if t[0] == 'n' then ReadWord(t, "null", Null)
    else if t[0] == 't' then ReadWord(t, "true", Bool(true))
    else if t[0] == 'f' then ReadWord(t, "false", Bool(false))
    else if t[0] == '"' then AsStr(ReadString(t[1..]))
    else AsInt(ReadNumber(t))
  }

  function ReadValue(t: string): (r: Parsed<Json>)
    ensures r.Good? ==> |r.rest| < |t|
    decreases |t|, 0
  {
    if t == "" then Bad
    else if t[0] == '[' then ReadArray(t[1..])
    else if t[0] == '{' then ReadObject(t[1..])
    else ReadScalar(t)
  }

  /** An array after its opening bracket. */
  function ReadArray(t: string): (r: Parsed<Json>)
    ensures r.Good? ==> |r.rest| < |t|
    decreases |t|, 2
  {
    if Starts(t, "]") then Good(Arr(NoItems), t[1..]) else AsArr(ReadItem(t))
  }

  /** An object after its opening brace. */
  function ReadObject(t: string): (r: Parsed<Json>)
    ensures r.Good? ==> |r.rest| < |t|
    decreases |t|, 2
  {
    if Starts(t, "}") then Good(Obj(NoMembers), t[1..]) else AsObj(ReadMember(t))
  }

  /** A value of an array and what follows it, to the closing bracket. */
  function ReadItem(t: string): (r: Parsed<Items>)
    ensures r.Good? ==> |r.rest| < |t|
    decreases |t|, 1
  {
    match ReadValue(t)
    case Bad => Bad
    case Good(head, rest) => ItemsAfter(head, rest)
  }

  function ItemsAfter(head: Json, rest: string): (r: Parsed<Items>)
    ensures r.Good? ==> |r.rest| < |rest|
    decreases |rest|, 3
  {
    if Starts(rest, "]") then Good(Item(head, NoItems), rest[1..])
    else if Starts(rest, ", ") then AddItem(head, ReadItem(rest[2..]))
    else Bad
  }

  /** A key, after its opening quote, and the colon. */
  function ReadKey(t: string): (r: Parsed<string>)
    ensures r.Good? ==> |r.rest| < |t|
  {
    match ReadString(t)
    case Bad => Bad
    case Good(key, rest) => if Starts(rest, ": ") then Good(key, rest[2..]) else Bad
  }

  /** A member of an object and what follows it, to the closing brace. */
  function ReadMember(t: string): (r: Parsed<Members>)
    ensures r.Good? ==> |r.rest| < |t|
    decreases |t|, 1
  {
    if !Starts(t, "\"") then Bad
    else
      match ReadKey(t[1..])
      case Bad => Bad
      case Good(key, text) =>
        match ReadValue(text)
        case Bad => Bad
        case Good(value, rest) => MembersAfter(key, value, rest)
  }

  function MembersAfter(key: string, value: Json, rest: string): (r: Parsed<Members>)
    ensures r.Good? ==> |r.rest| < |rest|
    decreases |rest|, 3
  {
    if Starts(rest, "}") then Good(Member(key, value, NoMembers), rest[1..])
    else if Starts(rest, ", ") then AddMember(key, value, ReadMember(rest[2..]))
    else Bad
  }

  /** A whole text. */
  function ReadText(t: string): Parsed<Json> {
    var r := ReadValue(t);
    if r.Good? && r.rest == "" then r else Bad
  }

  // ---------------------------------------------------------------- what is printed is read back

  lemma SameSplit(a: string, x: string, b: string, y: string)
    requires a + x == b + y && |a| == |b|
    ensures a == b && x == y
  {
    assert (a + x)[..|a|] == a && (b + y)[..|b|] == b;
    assert (a + x)[|a|..] == x && (b + y)[|b|..] == y;
  }

  lemma StartsWith(a: string, rest: string)
    ensures Starts(a + rest, a) && (a + rest)[|a|..] == rest
  {}

  lemma ShortForm(c: char)
    requires IsShort(c)
    ensures |EscapeChar(c)| == 2 && EscapeChar(c)[0] == '\\' && Unescape(EscapeChar(c)[1]) == Some(c)
  {}

  lemma LongForm(c: char)
    requires !IsShort(c) && c < ' '
    ensures EscapeChar(c) == ['\\', 'u', '0', '0', HexDigit(c as int / 16), HexDigit(c as int % 16)]
  {}

  lemma ShortRead(d: char, rest: string)
    requires Unescape(d).Some?
    ensures ReadChar(['\\', d] + rest) == Good(Unescape(d).value, rest)
  {
    assert (['\\', d] + rest)[2..] == rest;
  }

  lemma HexRead(k: nat)
    requires k < 16
    ensures HexValue(HexDigit(k)) == k
  {}

  lemma LongRead(c: char, rest: string)
    requires c < ' ' && !IsShort(c)
    ensures ReadChar(['\\', 'u', '0', '0', HexDigit(c as int / 16), HexDigit(c as int % 16)] + rest) == Good(c, rest)
  {
    HexRead(c as int / 16);
    HexRead(c as int % 16);
    assert (['\\', 'u', '0', '0', HexDigit(c as int / 16), HexDigit(c as int % 16)] + rest)[6..] == rest;
  }

  lemma EscapeCharRead(c: char, rest: string)
    ensures ReadChar(EscapeChar(c) + rest) == Good(c, rest)
  {
    if IsShort(c) {
      ShortForm(c);
      ShortRead(EscapeChar(c)[1], rest);
      assert EscapeChar(c) == ['\\', EscapeChar(c)[1]];
    } else if c < ' ' {
      LongForm(c);
      LongRead(c, rest);
    } else {
      assert EscapeChar(c) == [c] && ([c] + rest)[1..] == rest;
    }
  }

  lemma EscapeFirst(c: char, rest: string)
    ensures EscapeChar(c) != "" && EscapeChar(c)[0] != '"' && !Starts(EscapeChar(c) + rest, "\"")
  {
    assert (EscapeChar(c) + rest)[0] == EscapeChar(c)[0];
  }

  lemma {:induction false} EscapeRead(s: string, rest: string)
    ensures ReadString(Escape(s, rest)) == Good(s, rest)
  {
    if s == "" {
    } else {
      EscapeCharRead(s[0], Escape(s[1..], rest));
      EscapeFirst(s[0], Escape(s[1..], rest));
      EscapeRead(s[1..], rest);
      assert s == [s[0]] + s[1..];
    }
  }

  /** What may follow a printed value: nothing, a comma, or a closing bracket. */
  predicate Stops(rest: string) {
    rest == "" || rest[0] == ',' || rest[0] == ']' || rest[0] == '}'
  }

  lemma {:induction false} DigitsMeaning(n: nat)
    ensures Digits(n) != "" && DigitsValue(Digits(n)) == n
    ensures AreDigits(Digits(n))
    ensures Digits(n)[0] == '0' <==> n == 0
    ensures n == 0 ==> |Digits(n)| == 1
  {
    if n < 10 {
      assert Digits(n)[..0] == "";
    } else {
      DigitsMeaning(n / 10);
      assert Digits(n)[..|Digits(n)| - 1] == Digits(n / 10);
    }
  }

  lemma {:induction false} DigitCountIs(d: string, rest: string)
    requires AreDigits(d) && Stops(rest)
    ensures DigitCount(d + rest) == |d|
  {
    if d == "" {
      assert d + rest == rest;
    } else {
      DigitCountIs(d[1..], rest);
      assert (d + rest)[0] == d[0] && (d + rest)[1..] == d[1..] + rest;
    }
  }

  lemma DigitsRead(n: nat, rest: string)
    requires Stops(rest)
    ensures ReadDigits(Digits(n) + rest) == Good(n, rest)
  {
    var d, t := Digits(n), Digits(n) + rest;
    DigitsMeaning(n);
    DigitCountIs(d, rest);
    assert t[0] == d[0] && t[..|d|] == d && t[|d|..] == rest;
  }

  lemma UnsignedRead(t: string)
    requires t != "" && IsDigit(t[0])
    ensures ReadNumber(t) == ReadDigits(t)
  {}

  lemma SignedRead(t: string)
    ensures ReadNumber("-" + t) == Negated(ReadDigits(t))
  {
    StartsWith("-", t);
  }

  lemma DigitsFirst(n: nat, rest: string)
    ensures Digits(n) + rest != "" && IsDigit((Digits(n) + rest)[0])
  {
    DigitsMeaning(n);
    assert (Digits(n) + rest)[0] == Digits(n)[0];
  }

  lemma DecimalRead(n: int, rest: string)
    requires Stops(rest)
    ensures ReadNumber(Decimal(n, rest)) == Good(n, rest)
  {
    if n < 0 {
      DigitsRead(-n, rest);
      SignedRead(Digits(-n) + rest);
    } else {
      DigitsRead(n, rest);
      DigitsFirst(n, rest);
      UnsignedRead(Digits(n) + rest);
    }
  }

  lemma WordRead(j: Json, rest: string)
    requires j.Null? || j.Bool?
    ensures ReadValue(Print(j, rest)) == Good(j, rest)
  {
    var word := match j case Null => "null" case Bool(b) => if b then "true" else "false" case _ => "";
    StartsWith(word, rest);
    assert Print(j, rest) == word + rest && (word + rest)[0] == word[0];
  }

  lemma BracketRead(body: string)
    ensures ReadValue("[" + body) == ReadArray(body) && ReadValue("{" + body) == ReadObject(body)
  {
    StartsWith("[", body);
    StartsWith("{", body);
  }

  lemma EmptyArrayRead(rest: string)
    ensures ReadValue("[]" + rest) == Good(Arr(NoItems), rest)
  {
    StartsWith("]", rest);
    BracketRead("]" + rest);
    assert "[" + ("]" + rest) == "[]" + rest;
  }

  lemma EmptyObjectRead(rest: string)
    ensures ReadValue("{}" + rest) == Good(Obj(NoMembers), rest)
  {
    StartsWith("}", rest);
    BracketRead("}" + rest);
    assert "{" + ("}" + rest) == "{}" + rest;
  }

  lemma ScalarRead(t: string)
    requires t != "" && t[0] != '[' && t[0] != '{'
    ensures ReadValue(t) == ReadScalar(t)
  {}

  lemma NumberRead(t: string)
    requires t != "" && (IsDigit(t[0]) || t[0] == '-')
    ensures ReadValue(t) == AsInt(ReadNumber(t))
  {
    ScalarRead(t);
  }

  lemma DecimalFirst(n: int, rest: string)
    ensures Decimal(n, rest) != "" && (IsDigit(Decimal(n, rest)[0]) || Decimal(n, rest)[0] == '-')
  {
    if n >= 0 { DigitsFirst(n, rest); }
  }

  lemma StringRead(s: string, rest: string)
    ensures ReadValue(Quote(s, rest)) == Good(Str(s), rest)
  {
    EscapeRead(s, rest);
    StartsWith("\"", Escape(s, rest));
  }

  /** No printed value starts with a closing bracket. */
  lemma ValueFirst(j: Json, rest: string)
    requires Stops(rest)
    ensures Print(j, rest) != "" && Print(j, rest)[0] != ']'
  {
    if j.Int? { DecimalFirst(j.n, rest); }
  }

  lemma MoreItems(head: Json, text: string)
    ensures ItemsAfter(head, "]" + text) == Good(Item(head, NoItems), text)
    ensures ItemsAfter(head, ", " + text) == AddItem(head, ReadItem(text))
  {
    StartsWith("]", text);
    StartsWith(", ", text);
    assert (", " + text)[0] == ',';
  }

  lemma MoreMembers(key: string, value: Json, text: string)
    ensures MembersAfter(key, value, "}" + text) == Good(Member(key, value, NoMembers), text)
    ensures MembersAfter(key, value, ", " + text) == AddMember(key, value, ReadMember(text))
  {
    StartsWith("}", text);
    StartsWith(", ", text);
    assert (", " + text)[0] == ',';
  }

  lemma KeyRead(key: string, text: string)
    ensures Starts(Quote(key, ": " + text), "\"") && ReadKey(Quote(key, ": " + text)[1..]) == Good(key, text)
  {
    EscapeRead(key, ": " + text);
    StartsWith("\"", Escape(key, ": " + text));
    StartsWith(": ", text);
  }

  /** What is printed is read back, with what follows it, to the same value in the same key order. */
  lemma {:induction false} ValueRead(j: Json, rest: string)
    requires Stops(rest)
    ensures ReadValue(Print(j, rest)) == Good(j, rest)
    decreases j, 0
  {
    match j
    case Int(n) =>
      DecimalFirst(n, rest);
      NumberRead(Decimal(n, rest));
      DecimalRead(n, rest);
    case Str(s) => StringRead(s, rest);
    case Arr(NoItems) => EmptyArrayRead(rest);
    case Obj(NoMembers) => EmptyObjectRead(rest);
    case Arr(Item(head, tail)) =>
      ItemRead(j.items, rest);
      ValueFirst(head, PrintItems(tail, rest));
      BracketRead(Print(head, PrintItems(tail, rest)));
    case Obj(Member(key, value, tail)) =>
      MemberRead(j.members, rest);
      BracketRead(Quote(key, ": " + Print(value, PrintMembers(tail, rest))));
    case _ => WordRead(j, rest);
  }

  lemma {:induction false} ItemRead(items: Items, rest: string)
    requires items.Item? && Stops(rest)
    ensures ReadItem(Print(items.head, PrintItems(items.tail, rest))) == Good(items, rest)
    decreases items, 0
  {
    ValueRead(items.head, PrintItems(items.tail, rest));
    ItemsAfterRead(items, rest);
  }

  lemma {:induction false} ItemsAfterRead(items: Items, rest: string)
    requires items.Item? && Stops(rest)
    ensures ItemsAfter(items.head, PrintItems(items.tail, rest)) == Good(items, rest)
    decreases items.tail, 1
  {
    if items.tail.NoItems? {
      MoreItems(items.head, rest);
    } else {
      ItemRead(items.tail, rest);
      MoreItems(items.head, Print(items.tail.head, PrintItems(items.tail.tail, rest)));
    }
  }

  lemma {:induction false} MemberRead(members: Members, rest: string)
    requires members.Member? && Stops(rest)
    ensures ReadMember(Quote(members.key, ": " + Print(members.value, PrintMembers(members.tail, rest)))) == Good(members, rest)
    decreases members, 0
  {
    KeyRead(members.key, Print(members.value, PrintMembers(members.tail, rest)));
    ValueRead(members.value, PrintMembers(members.tail, rest));
    MembersAfterRead(members, rest);
  }

  lemma {:induction false} MembersAfterRead(members: Members, rest: string)
    requires members.Member? && Stops(rest)
    ensures MembersAfter(members.key, members.value, PrintMembers(members.tail, rest)) == Good(members, rest)
    decreases members.tail, 1
  {
    var tail := members.tail;
    if tail.NoMembers? {
      MoreMembers(members.key, members.value, rest);
    } else {
      MemberRead(tail, rest);
      MoreMembers(members.key, members.value, Quote(tail.key, ": " + Print(tail.value, PrintMembers(tail.tail, rest))));
    }
  }

  // ---------------------------------------------------------------- what is read was printed

  lemma SplitAt(t: string, w: string)
    requires Starts(t, w)
    ensures t == w + t[|w|..]
  {}

  lemma HexSound(c: char)
    requires HexValue(c) >= 0
    ensures HexValue(c) < 16 && HexDigit(HexValue(c)) == c
  {}

  lemma LongSound(t: string)
    requires ReadChar(t).Good? && t[0] == '\\' && Unescape(t[1]) == None
    ensures t == EscapeChar(ReadChar(t).value) + ReadChar(t).rest
  {
    HexSound(t[4]);
    HexSound(t[5]);
    LongForm(ReadChar(t).value);
    assert t[..6] == ['\\', 'u', '0', '0', t[4], t[5]];
  }

  lemma ShortSound(d: char)
    requires Unescape(d).Some?
    ensures EscapeChar(Unescape(d).value) == ['\\', d]
  {}

  lemma CharSound(t: string)
    requires ReadChar(t).Good?
    ensures t == EscapeChar(ReadChar(t).value) + ReadChar(t).rest
  {
    if t[0] != '\\' {
      assert t == [t[0]] + t[1..];
    } else if Unescape(t[1]).Some? {
      ShortSound(t[1]);
      assert t == t[..2] + t[2..] && t[..2] == ['\\', t[1]];
    } else {
      LongSound(t);
    }
  }

  lemma {:induction false} StringSound(t: string)
    requires ReadString(t).Good?
    ensures t == Escape(ReadString(t).value, ReadString(t).rest)
  {
    if Starts(t, "\"") {
      SplitAt(t, "\"");
    } else {
      CharSound(t);
      StringSound(ReadChar(t).rest);
    }
  }

  lemma OneDigit(c: char)
    requires IsDigit(c)
    ensures DigitsValue([c]) == c as int - '0' as int && Digits(c as int - '0' as int) == [c]
  {
    assert [c][..0] == "" && Digit(c as int - '0' as int) == c;
  }

  lemma DigitsStep(s: string, c: char)
    requires DigitsValue(s) > 0 && Digits(DigitsValue(s)) == s && IsDigit(c)
    ensures DigitsValue(s + [c]) > 0 && Digits(DigitsValue(s + [c])) == s + [c]
  {
    var v, d := DigitsValue(s), c as int - '0' as int;
    assert (s + [c])[..|s|] == s;
    assert Digit(d) == c && (v * 10 + d) / 10 == v && (v * 10 + d) % 10 == d;
  }

  /** Digits without a leading zero are the digits of their value. */
  lemma {:induction false} DigitsOfValue(s: string)
    requires s != "" && AreDigits(s) && (s[0] == '0' ==> |s| == 1)
    ensures DigitsValue(s) >= 0 && Digits(DigitsValue(s)) == s
    ensures DigitsValue(s) == 0 <==> s[0] == '0'
    decreases |s|
  {
    var before, c := s[..|s| - 1], s[|s| - 1];
    assert s == before + [c];
    if before == "" {
      OneDigit(c);
    } else {
      DigitsOfValue(before);
      DigitsStep(before, c);
    }
  }

  lemma DigitsSound(t: string)
    requires ReadDigits(t).Good?
    ensures ReadDigits(t).value >= 0 && t == Digits(ReadDigits(t).value) + ReadDigits(t).rest
  {
    var run := t[..DigitCount(t)];
    assert AreDigits(run) && run[0] == t[0];
    DigitsOfValue(run);
  }

  lemma NumberSound(t: string)
    requires ReadNumber(t).Good?
    ensures t == Decimal(ReadNumber(t).value, ReadNumber(t).rest)
  {
    if Starts(t, "-") {
      SplitAt(t, "-");
      DigitsSound(t[1..]);
    } else {
      DigitsSound(t);
    }
  }

  lemma KeySound(t: string)
    requires Starts(t, "\"") && ReadKey(t[1..]).Good?
    ensures t == Quote(ReadKey(t[1..]).value, ": " + ReadKey(t[1..]).rest)
  {
    SplitAt(t, "\"");
    StringSound(t[1..]);
    SplitAt(ReadString(t[1..]).rest, ": ");
  }

  lemma WordSound(t: string, word: string, meaning: Json)
    requires ReadWord(t, word, meaning).Good?
    ensures ReadWord(t, word, meaning).value == meaning && t == word + ReadWord(t, word, meaning).rest
  {
    SplitAt(t, word);
  }

  lemma ScalarSound(t: string)
    requires t != "" && ReadScalar(t).Good?
    ensures t == Print(ReadScalar(t).value, ReadScalar(t).rest)
  {
    if t[0] == 'n' {
      WordSound(t, "null", Null);
    } else if t[0] == 't' {
      WordSound(t, "true", Bool(true));
    } else if t[0] == 'f' {
      WordSound(t, "false", Bool(false));
    } else if t[0] == '"' {
      StringSound(t[1..]);
      assert t == [t[0]] + t[1..];
    } else {
      NumberSound(t);
    }
  }

  /** Whatever the reader accepts is the printed text of the value it reads, followed by what it leaves. */
  lemma {:induction false} ValueSound(t: string)
    requires ReadValue(t).Good?
    ensures t == Print(ReadValue(t).value, ReadValue(t).rest)
    decreases |t|, 0
  {
    assert t == [t[0]] + t[1..];
    if t[0] == '[' {
      ArraySound(t[1..]);
    } else if t[0] == '{' {
      ObjectSound(t[1..]);
    } else {
      ScalarSound(t);
    }
  }

  lemma {:induction false} ArraySound(t: string)
    requires ReadArray(t).Good?
    ensures "[" + t == Print(ReadArray(t).value, ReadArray(t).rest)
    decreases |t|, 2
  {
    if Starts(t, "]") { SplitAt(t, "]"); } else { ItemSound(t); }
  }

  lemma {:induction false} ObjectSound(t: string)
    requires ReadObject(t).Good?
    ensures "{" + t == Print(ReadObject(t).value, ReadObject(t).rest)
    decreases |t|, 2
  {
    if Starts(t, "}") { SplitAt(t, "}"); } else { MemberSound(t); }
  }

  lemma {:induction false} ItemSound(t: string)
    requires ReadItem(t).Good?
    ensures var items := ReadItem(t).value;
            items.Item? && t == Print(items.head, PrintItems(items.tail, ReadItem(t).rest))
    decreases |t|, 1
  {
    ValueSound(t);
    ItemsAfterSound(ReadValue(t).value, ReadValue(t).rest);
  }

  lemma {:induction false} ItemsAfterSound(head: Json, t: string)
    requires ItemsAfter(head, t).Good?
    ensures var items := ItemsAfter(head, t).value;
            items.Item? && items.head == head && t == PrintItems(items.tail, ItemsAfter(head, t).rest)
    decreases |t|, 3
  {
    if Starts(t, "]") {
      SplitAt(t, "]");
    } else {
      SplitAt(t, ", ");
      ItemSound(t[2..]);
    }
  }

  lemma {:induction false} MemberSound(t: string)
    requires ReadMember(t).Good?
    ensures var m := ReadMember(t).value;
            m.Member? && t == Quote(m.key, ": " + Print(m.value, PrintMembers(m.tail, ReadMember(t).rest)))
    decreases |t|, 1
  {
    var text := ReadKey(t[1..]).rest;
    KeySound(t);
    ValueSound(text);
    MembersAfterSound(ReadKey(t[1..]).value, ReadValue(text).value, ReadValue(text).rest);
  }

  lemma {:induction false} MembersAfterSound(key: string, value: Json, t: string)
    requires MembersAfter(key, value, t).Good?
    ensures var m := MembersAfter(key, value, t).value;
            m.Member? && m.key == key && m.value == value && t == PrintMembers(m.tail, MembersAfter(key, value, t).rest)
    decreases |t|, 3
  {
    if Starts(t, "}") {
      SplitAt(t, "}");
    } else {
      SplitAt(t, ", ");
      MemberSound(t[2..]);
    }
  }

  // ---------------------------------------------------------------- what the text determines

  /** Printed values are uniquely readable: the text of a value, followed by anything that may
      follow one, determines both the value and what follows. */
  lemma PrintReadable(a: Json, b: Json, x: string, y: string)
    requires Print(a, x) == Print(b, y) && Stops(x) && Stops(y)
    ensures a == b && x == y
  {
    ValueRead(a, x);
    ValueRead(b, y);
  }

  /** The reader accepts exactly the printed texts. */
  lemma ReadsIffPrinted(t: string, j: Json)
    ensures ReadText(t) == Good(j, "") <==> t == Print(j, "")
  {
    ValueRead(j, "");
    if ReadText(t).Good? { ValueSound(t); }
  }

  /** Two payloads get the same text exactly when they are the same value: the text is injective
      up to key order, and ignores key order at every nesting depth. */
  lemma DumpsIffSameValue(a: Json, b: Json)
    requires WellFormed(a) && WellFormed(b)
    ensures Dumps(a) == Dumps(b) <==> Denote(a) == Denote(b)
  {
    CanonMeaning(a);
    CanonMeaning(b);
    if Dumps(a) == Dumps(b) {
      PrintReadable(Canon(a), Canon(b), "", "");
    }
    if Denote(a) == Denote(b) {
      SortedFormUnique(Canon(a), Canon(b));
    }
  }

  /** The text of a payload is the one text that the reader accepts, whose value is the payload's and whose keys
      ascend in every object. */
  lemma DumpsIsTheText(j: Json, t: string)
    requires WellFormed(j)
    ensures t == Dumps(j) <==> ReadText(t).Good? && Denote(ReadText(t).value) == Denote(j) && KeysAscend(ReadText(t).value)
  {
    CanonMeaning(j);
    SortedIffAscend(Canon(j));
    ReadsIffPrinted(t, Canon(j));
    if ReadText(t).Good? {
      var read := ReadText(t).value;
      ReadsIffPrinted(t, read);
      SortedIffAscend(read);
      if Denote(read) == Denote(j) && KeysAscend(read) { SortedFormUnique(read, Canon(j)); }
    }
  }
}
