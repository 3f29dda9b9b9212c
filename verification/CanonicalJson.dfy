/** The text that Python's `json.dumps(payload, sort_keys=True, ensure_ascii=False)` produces for an
    audit payload.

    A payload is kept with its keys in insertion order, as a Python `dict` keeps them. `Denote` is
    the order-free JSON value it stands for, the value a JSONB column stores; a boolean is no number. */
module CanonicalJson {

  datatype Json =
    | Null
    | Bool(b: bool)
    | Int(n: int)
    | Str(s: string)
    | Arr(items: Items)
    | Obj(members: Members)

  datatype Items = NoItems | Item(head: Json, tail: Items)

  datatype Members = NoMembers | Member(key: string, value: Json, tail: Members)

  datatype Value =
    | VNull
    | VBool(b: bool)
    | VInt(n: int)
    | VStr(s: string)
    | VArr(items: seq<Value>)
    | VObj(members: map<string, Value>)

  function Denote(j: Json): Value {
    match j
    case Null => VNull
    case Bool(b) => VBool(b)
    case Int(n) => VInt(n)
    case Str(s) => VStr(s)
    case Arr(items) => VArr(DenoteItems(items))
    case Obj(members) => VObj(DenoteMembers(members))
  }

  function DenoteItems(items: Items): seq<Value> {
    match items
    case NoItems => []
    case Item(head, tail) => [Denote(head)] + DenoteItems(tail)
  }

  function DenoteMembers(members: Members): map<string, Value> {
    match members
    case NoMembers => map[]
    case Member(key, value, tail) => DenoteMembers(tail)[key := Denote(value)]
  }

  /** Every object has distinct keys, as a `dict` must. */
  predicate WellFormed(j: Json) {
    match j
    case Arr(items) => WellFormedItems(items)
    case Obj(members) => WellFormedMembers(members)
    case _ => true
  }

  predicate WellFormedItems(items: Items) {
    match items
    case NoItems => true
    case Item(head, tail) => WellFormed(head) && WellFormedItems(tail)
  }

  predicate WellFormedMembers(members: Members) {
    match members
    case NoMembers => true
    case Member(key, value, tail) =>
      key !in DenoteMembers(tail) && WellFormed(value) && WellFormedMembers(tail)
  }

  // ---------------------------------------------------------------- key order

  /** Strict lexicographic order by code point, the order of Python's `str`. */
  predicate Before(a: string, b: string) {
    if b == "" then false
    else if a == "" then true
    else a[0] < b[0] || (a[0] == b[0] && Before(a[1..], b[1..]))
  }

  lemma {:induction false} BeforeTrichotomy(a: string, b: string)
    ensures Before(a, b) || a == b || Before(b, a)
    ensures !(Before(a, b) && Before(b, a))
    ensures !Before(a, a)
  {
    if a == "" {
    } else {
      BeforeTrichotomy(a[1..], a[1..]);
      if b == "" {
      } else {
        BeforeTrichotomy(a[1..], b[1..]);
        assert a[0] == b[0] && a[1..] == b[1..] ==> a == [a[0]] + a[1..] == b;
      }
    }
  }

  lemma {:induction false} BeforeTransitive(a: string, b: string, c: string)
    requires Before(a, b) && Before(b, c)
    ensures Before(a, c)
  {
    if a == "" || a[0] != b[0] || b[0] != c[0] {
    } else {
      BeforeTransitive(a[1..], b[1..], c[1..]);
    }
  }

  /** The order of Python's `str`, said at once: a proper prefix comes first, else the smaller character at the
      first place where the two differ. */
  predicate LessAt(a: string, b: string, k: nat) {
    k <= |a| && k < |b| && a[..k] == b[..k] && (k == |a| || a[k] < b[k])
  }

  ghost predicate Less(a: string, b: string) {
    exists k: nat :: LessAt(a, b, k)
  }

  lemma {:induction false} BeforeIsLess(a: string, b: string)
    ensures Before(a, b) <==> Less(a, b)
  {
    if b == "" {
    } else if a == "" || a[0] < b[0] {
      assert LessAt(a, b, 0);
    } else {
      BeforeIsLess(a[1..], b[1..]);
      if Before(a, b) {
        var k: nat :| LessAt(a[1..], b[1..], k);
        assert a == [a[0]] + a[1..] && b == [b[0]] + b[1..];
        assert LessAt(a, b, k + 1);
      }
      if Less(a, b) {
        var k: nat :| LessAt(a, b, k);
        assert k > 0 && a[..k][0] == b[..k][0];
        assert a[1..][..k - 1] == a[..k][1..] && b[1..][..k - 1] == b[..k][1..];
        assert LessAt(a[1..], b[1..], k - 1);
      }
    }
  }

  // ---------------------------------------------------------------- sorting

  /** The payload with the keys of every object in order: what `sort_keys=True` iterates over. */
  function Canon(j: Json): Json {
    match j
    case Arr(items) => Arr(CanonItems(items))
    case Obj(members) => Obj(CanonMembers(members))
    case _ => j
  }

  function CanonItems(items: Items): Items {
    match items
    case NoItems => NoItems
    case Item(head, tail) => Item(Canon(head), CanonItems(tail))
  }

  function Insert(key: string, value: Json, members: Members): Members {
    match members
    case NoMembers => Member(key, value, NoMembers)
    case Member(k, v, tail) =>
      if Before(k, key) then Member(k, v, Insert(key, value, tail)) else Member(key, value, members)
  }

  function CanonMembers(members: Members): Members {
    match members
    case NoMembers => NoMembers
    case Member(key, value, tail) => Insert(key, Canon(value), CanonMembers(tail))
  }

  /** Keys strictly increase in every object. */
  predicate Sorted(j: Json) {
    match j
    case Arr(items) => SortedItems(items)
    case Obj(members) => SortedMembers(members)
    case _ => true
  }

  predicate SortedItems(items: Items) {
    match items
    case NoItems => true
    case Item(head, tail) => Sorted(head) && SortedItems(tail)
  }

  predicate Precedes(key: string, members: Members) {
    members.NoMembers? || Before(key, members.key)
  }

  predicate SortedMembers(members: Members) {
    match members
    case NoMembers => true
    case Member(key, value, tail) => Sorted(value) && SortedMembers(tail) && Precedes(key, tail)
  }

  lemma {:induction false} InsertMeaning(key: string, value: Json, members: Members)
    requires key !in DenoteMembers(members) && Sorted(value) && SortedMembers(members)
    ensures DenoteMembers(Insert(key, value, members)) == DenoteMembers(members)[key := Denote(value)]
    ensures SortedMembers(Insert(key, value, members))
    ensures forall k :: Before(k, key) && Precedes(k, members) ==> Precedes(k, Insert(key, value, members))
  {
    if members.NoMembers? {
    } else {
      if Before(members.key, key) {
        InsertMeaning(key, value, members.tail);
      } else {
        BeforeTrichotomy(key, members.key);
      }
    }
  }

  lemma {:induction false} CanonMeaning(j: Json)
    requires WellFormed(j)
    ensures Denote(Canon(j)) == Denote(j) && Sorted(Canon(j))
  {
    match j
    case Arr(items) => CanonItemsMeaning(items);
    case Obj(members) => CanonMembersMeaning(members);
    case _ =>
  }

  lemma {:induction false} CanonItemsMeaning(items: Items)
    requires WellFormedItems(items)
    ensures DenoteItems(CanonItems(items)) == DenoteItems(items) && SortedItems(CanonItems(items))
  {
    if items.NoItems? {
    } else {
      CanonMeaning(items.head);
      CanonItemsMeaning(items.tail);
    }
  }

  lemma {:induction false} CanonMembersMeaning(members: Members)
    requires WellFormedMembers(members)
    ensures DenoteMembers(CanonMembers(members)) == DenoteMembers(members)
    ensures SortedMembers(CanonMembers(members))
  {
    if members.NoMembers? {
    } else {
      CanonMeaning(members.value);
      CanonMembersMeaning(members.tail);
      InsertMeaning(members.key, Canon(members.value), CanonMembers(members.tail));
    }
  }

  lemma {:induction false} SortedHeadIsLeast(key: string, members: Members)
    requires SortedMembers(members) && Precedes(key, members)
    ensures forall k :: k in DenoteMembers(members) ==> Before(key, k)
    decreases members
  {
    if members.NoMembers? {
    } else {
      SortedHeadIsLeast(members.key, members.tail);
      forall k | k in DenoteMembers(members) ensures Before(key, k) {
        if k != members.key { BeforeTransitive(key, members.key, k); }
      }
    }
  }

  /** A value has one sorted form. */
  lemma {:induction false} SortedFormUnique(a: Json, b: Json)
    requires Sorted(a) && Sorted(b) && Denote(a) == Denote(b)
    ensures a == b
  {
    match a
    case Arr(items) => SortedItemsUnique(items, b.items);
    case Obj(members) => SortedMembersUnique(members, b.members);
    case _ =>
  }

  lemma {:induction false} SortedItemsUnique(a: Items, b: Items)
    requires SortedItems(a) && SortedItems(b) && DenoteItems(a) == DenoteItems(b)
    ensures a == b
  {
    if a.NoItems? || b.NoItems? {
    } else {
      assert DenoteItems(a)[0] == DenoteItems(b)[0] && DenoteItems(a)[1..] == DenoteItems(b)[1..];
      SortedFormUnique(a.head, b.head);
      SortedItemsUnique(a.tail, b.tail);
    }
  }

  lemma {:induction false} SortedMembersUnique(a: Members, b: Members)
    requires SortedMembers(a) && SortedMembers(b) && DenoteMembers(a) == DenoteMembers(b)
    ensures a == b
  {
    assert a.Member? ==> a.key in DenoteMembers(a);
    assert b.Member? ==> b.key in DenoteMembers(b);
    if a.NoMembers? || b.NoMembers? {
    } else {
      SortedHeadIsLeast(a.key, a.tail);
      SortedHeadIsLeast(b.key, b.tail);
      BeforeTrichotomy(a.key, b.key);
      assert a.key in DenoteMembers(b) && b.key in DenoteMembers(a);
      BeforeTrichotomy(a.key, a.key);
      assert DenoteMembers(a.tail) == DenoteMembers(a) - {a.key} == DenoteMembers(b.tail);
      assert DenoteMembers(a)[a.key] == DenoteMembers(b)[b.key];
      SortedFormUnique(a.value, b.value);
      SortedMembersUnique(a.tail, b.tail);
    }
  }

  function Keys(members: Members): seq<string> {
    match members
    case NoMembers => []
    case Member(key, _, tail) => [key] + Keys(tail)
  }

  ghost predicate Ascending(keys: seq<string>) {
    forall i, k :: 0 <= i < k < |keys| ==> Less(keys[i], keys[k])
  }

  /** The keys of every object, as they stand in the text, ascend. */
  ghost predicate KeysAscend(j: Json) {
    match j
    case Arr(items) => ItemsAscend(items)
    case Obj(members) => Ascending(Keys(members)) && MembersAscend(members)
    case _ => true
  }

  ghost predicate ItemsAscend(items: Items) {
    match items
    case NoItems => true
    case Item(head, tail) => KeysAscend(head) && ItemsAscend(tail)
  }

  ghost predicate MembersAscend(members: Members) {
    match members
    case NoMembers => true
    case Member(_, value, tail) => KeysAscend(value) && MembersAscend(tail)
  }

  lemma {:induction false} KeysAreKeys(members: Members)
    ensures forall k :: k in Keys(members) <==> k in DenoteMembers(members)
  {
    if members.NoMembers? {
    } else {
      KeysAreKeys(members.tail);
    }
  }

  lemma AscendingCons(key: string, members: Members)
    ensures Ascending([key] + Keys(members)) <==>
      Ascending(Keys(members)) && forall k :: k in DenoteMembers(members) ==> Less(key, k)
  {
    var keys, more := Keys(members), [key] + Keys(members);
    KeysAreKeys(members);
    assert forall i :: 0 <= i < |keys| ==> more[i + 1] == keys[i];
    if Ascending(more) {
      forall k | k in keys ensures Less(key, k) {
        var i :| 0 <= i < |keys| && keys[i] == k;
        assert Less(more[0], more[i + 1]);
      }
      forall i, k | 0 <= i < k < |keys| ensures Less(keys[i], keys[k]) { assert Less(more[i + 1], more[k + 1]); }
    }
  }

  /** Neighbouring keys in order is all keys in order. */
  lemma {:induction false} SortedIffAscend(j: Json)
    ensures Sorted(j) <==> KeysAscend(j)
  {
    match j
    case Arr(items) => SortedItemsIffAscend(items);
    case Obj(members) => SortedMembersIffAscend(members);
    case _ =>
  }

  lemma {:induction false} SortedItemsIffAscend(items: Items)
    ensures SortedItems(items) <==> ItemsAscend(items)
  {
    if items.NoItems? {
    } else {
      SortedIffAscend(items.head);
      SortedItemsIffAscend(items.tail);
    }
  }

  lemma PrecedesIff(key: string, members: Members)
    requires SortedMembers(members)
    ensures Precedes(key, members) <==> forall k :: k in DenoteMembers(members) ==> Less(key, k)
  {
    if Precedes(key, members) {
      SortedHeadIsLeast(key, members);
      forall k | k in DenoteMembers(members) ensures Less(key, k) { BeforeIsLess(key, k); }
    } else {
      assert members.key in DenoteMembers(members);
      BeforeIsLess(key, members.key);
    }
  }

  lemma {:induction false} SortedMembersIffAscend(members: Members)
    ensures SortedMembers(members) <==> Ascending(Keys(members)) && MembersAscend(members)
  {
    if members.NoMembers? {
    } else {
      SortedIffAscend(members.value);
      SortedMembersIffAscend(members.tail);
      AscendingCons(members.key, members.tail);
      if SortedMembers(members.tail) { PrecedesIff(members.key, members.tail); }
    }
  }

  // ---------------------------------------------------------------- printing
  // Every printer takes the text that follows and puts its own text in front of it.

  function HexDigit(k: nat): char
    requires k < 16
  {
    if k < 10 then ('0' as int + k) as char else ('a' as int + k - 10) as char
  }

  /** String escapes of section 7 of RFC 8259, as the `ensure_ascii=False` encoder picks them. */
  function EscapeChar(c: char): string {
    if c == '"' then "\\\""
    else if c == '\\' then "\\\\"
    else if c == '\U{08}' then "\\b"
    else if c == '\U{0C}' then "\\f"
    else if c == '\n' then "\\n"
    else if c == '\r' then "\\r"
    else if c == '\t' then "\\t"
    else if c < ' ' then ['\\', 'u', '0', '0', HexDigit(c as int / 16), HexDigit(c as int % 16)]
    else [c]
  }

  function Escape(s: string, rest: string): string {
    if s == "" then ['"'] + rest else EscapeChar(s[0]) + Escape(s[1..], rest)
  }

  function Quote(s: string, rest: string): string {
    ['"'] + Escape(s, rest)
  }

  function Digit(k: nat): char
    requires k < 10
  {
    ('0' as int + k) as char
  }

  function Digits(n: nat): string {
    if n < 10 then [Digit(n)] else Digits(n / 10) + [Digit(n % 10)]
  }

  function Decimal(n: int, rest: string): string {
    if n < 0 then "-" + (Digits(-n) + rest) else Digits(n) + rest
  }

  function Print(j: Json, rest: string): string {
    match j
    case Null => "null" + rest
    case Bool(b) => (if b then "true" else "false") + rest
    case Int(n) => Decimal(n, rest)
    case Str(s) => Quote(s, rest)
    case Arr(NoItems) => "[]" + rest
    case Arr(Item(head, tail)) => "[" + Print(head, PrintItems(tail, rest))
    case Obj(NoMembers) => "{}" + rest
    case Obj(Member(key, value, tail)) => "{" + Quote(key, ": " + Print(value, PrintMembers(tail, rest)))
  }

  function PrintItems(items: Items, rest: string): string {
    match items
    case NoItems => "]" + rest
    case Item(head, tail) => ", " + Print(head, PrintItems(tail, rest))
  }

  function PrintMembers(members: Members, rest: string): string {
    match members
    case NoMembers => "}" + rest
    case Member(key, value, tail) => ", " + Quote(key, ": " + Print(value, PrintMembers(tail, rest)))
  }

  /** `json.dumps(payload, sort_keys=True, ensure_ascii=False)`. */
  function Dumps(j: Json): string {
    Print(Canon(j), "")
  }
}
