/**
 The canonical printer of the plugin rollout (`scripts/plugin-preview-deployment/worker.ts`), which compares two
 manifests by comparing their texts. Numbers stand for the texts JavaScript prints for them; keys are compared
 by any total order in place of the host's locale.
 */
module CanonicalJson {
  import opened Wrappers

  datatype Json =
    | Null
    | Bool(value: bool)
    | Num(text: string)
    | Str(chars: string)
    | Arr(items: Items)
    | Obj(members: Members)

  datatype Items = NoItems | Item(head: Json, tail: Items)

  /** The members of an object in the order of their insertion. */
  datatype Members = NoMembers | Member(key: string, value: Json, rest: Members)

  // ----- values ---------------------------------------------------------------------------

  predicate NumberChar(c: char) {
    '0' <= c <= '9' || c == '-' || c == '+' || c == '.' || c == 'e' || c == 'E'
  }

  function Keys(m: Members): set<string> {
    match m
    case NoMembers => {}
    case Member(k, _, rest) => {k} + Keys(rest)
  }

  /** A value `JSON.parse` can return: numbers have a text of their own, and keys do not repeat. */
  predicate Valid(v: Json) {
    match v
    case Num(text) => text != "" && forall i :: 0 <= i < |text| ==> NumberChar(text[i])
    case Arr(items) => ValidItems(items)
    case Obj(members) => ValidMembers(members)
    case _ => true
  }

  predicate ValidItems(items: Items) {
    match items
    case NoItems => true
    case Item(v, rest) => Valid(v) && ValidItems(rest)
  }

  predicate ValidMembers(m: Members) {
    match m
    case NoMembers => true
    case Member(k, v, rest) => k !in Keys(rest) && Valid(v) && ValidMembers(rest)
  }

  // ----- printing --------------------------------------------------------------------------

  function HexDigit(n: int): char
    requires 0 <= n < 16
  {
    "0123456789abcdef"[n]
  }

  /** `JSON.stringify` of one character of a string. */
  function Escaped(c: char): string {
    if c == '"' then ['\\', '"']
    else if c == '\\' then ['\\', '\\']
    else if c as int == 8 then ['\\', 'b']
    else if c as int == 12 then ['\\', 'f']
    else if c == '\n' then ['\\', 'n']
    else if c == '\r' then ['\\', 'r']
    else if c == '\t' then ['\\', 't']
    else if c as int < 32 then ['\\', 'u', '0', '0', HexDigit(c as int / 16), HexDigit(c as int % 16)]
    else [c]
  }

  function Inside(s: string): string {
    if s == "" then "" else Escaped(s[0]) + Inside(s[1..])
  }

  function Quoted(s: string): string { ['"'] + Inside(s) + ['"'] }

  /** The text of a value, members in their order. */
  function Print(v: Json): string {
    match v
    case Null => "null"
    case Bool(b) => if b then "true" else "false"
    case Num(text) => text
    case Str(s) => Quoted(s)
    case Arr(items) => "[" + PrintItems(items) + "]"
    case Obj(members) => "{" + PrintMembers(members) + "}"
  }

  /** `join(",")`. */
  function PrintItems(items: Items): string {
    match items
    case NoItems => ""
    case Item(v, NoItems) => Print(v)
    case Item(v, rest) => Print(v) + "," + PrintItems(rest)
  }

  function PrintMembers(m: Members): string {
    match m
    case NoMembers => ""
    case Member(k, v, NoMembers) => Quoted(k) + ":" + Print(v)
    case Member(k, v, rest) => Quoted(k) + ":" + Print(v) + "," + PrintMembers(rest)
  }

  // ----- sorting ------------------------------------------------------------------------------

  /** A comparison of keys: a total order. */
  ghost predicate TotalOrder(before: (string, string) -> bool) {
    && (forall x :: before(x, x))
    && (forall x, y :: before(x, y) || before(y, x))
    && (forall x, y :: before(x, y) && before(y, x) ==> x == y)
    && (forall x, y, z :: before(x, y) && before(y, z) ==> before(x, z))
  }

  function Insert(key: string, value: Json, m: Members, before: (string, string) -> bool): Members {
    match m
    case NoMembers => Member(key, value, NoMembers)
    case Member(k, v, rest) =>
      if before(key, k) then Member(key, value, m) else Member(k, v, Insert(key, value, rest, before))
  }

  /** The members of every object sorted by key, at every depth. */
  function Sorted(v: Json, before: (string, string) -> bool): Json {
    match v
    case Arr(items) => Arr(SortedItems(items, before))
    case Obj(members) => Obj(SortedMembers(members, before))
    case _ => v
  }

  function SortedItems(items: Items, before: (string, string) -> bool): Items {
    match items
    case NoItems => NoItems
    case Item(v, rest) => Item(Sorted(v, before), SortedItems(rest, before))
  }

  function SortedMembers(m: Members, before: (string, string) -> bool): Members {
    match m
    case NoMembers => NoMembers
    case Member(k, v, rest) => Insert(k, Sorted(v, before), SortedMembers(rest, before), before)
  }

  function Canonical(v: Json, before: (string, string) -> bool): string {
    Print(Sorted(v, before))
  }

  // ----- equality up to the order of keys ---------------------------------------------------------

  function Lookup(m: Members, key: string): Option<Json> {
    match m
    case NoMembers => None
    case Member(k, v, rest) => if k == key then Some(v) else Lookup(rest, key)
  }

  /** The same value, but for the order in which the keys of its objects were inserted. */
  predicate Same(v: Json, w: Json) {
    match (v, w)
    case (Arr(x), Arr(y)) => SameItems(x, y)
    case (Obj(m), Obj(n)) => Keys(m) == Keys(n) && SameMembers(m, n)
    case _ => v == w
  }

  predicate SameItems(x: Items, y: Items) {
    match (x, y)
    case (NoItems, NoItems) => true
    case (Item(v, s), Item(w, t)) => Same(v, w) && SameItems(s, t)
    case _ => false
  }

  /** Every member of `m` has the same value in `n`. */
  predicate SameMembers(m: Members, n: Members) {
    match m
    case NoMembers => true
    case Member(k, v, rest) => Lookup(n, k).Some? && Same(v, Lookup(n, k).value) && SameMembers(rest, n)
  }

  // ----- a text has one value --------------------------------------------------------------------------

  /** What can follow a value. */
  predicate Delimited(s: string) {
    s == "" || s[0] == ',' || s[0] == ']' || s[0] == '}'
  }

  lemma EscapesDiffer(c: char, d: char, s: string, t: string)
    requires Escaped(c) + s == Escaped(d) + t
    ensures c == d && s == t
  {
    var x, y := Escaped(c) + s, Escaped(d) + t;
    assert x[0] == Escaped(c)[0] && y[0] == Escaped(d)[0];
    assert |Escaped(c)| > 1 && |Escaped(d)| > 1 ==> x[1] == Escaped(c)[1] && y[1] == Escaped(d)[1];
    if |Escaped(c)| == 6 && |Escaped(d)| == 6 {
      assert x[4] == HexDigit(c as int / 16) && y[4] == HexDigit(d as int / 16);
      assert x[5] == HexDigit(c as int % 16) && y[5] == HexDigit(d as int % 16);
      HexDigitsDiffer(c as int / 16, d as int / 16);
      HexDigitsDiffer(c as int % 16, d as int % 16);
      assert c as int == d as int;
    }
    assert c == d;
    assert s == x[|Escaped(c)|..] && t == y[|Escaped(d)|..];
  }

  lemma HexDigitsDiffer(m: int, n: int)
    requires 0 <= m < 16 && 0 <= n < 16 && HexDigit(m) == HexDigit(n)
    ensures m == n
  {
  }

  lemma ConsDiffers(c: char, d: char, s: string, t: string)
    requires [c] + s == [d] + t
    ensures c == d && s == t
  {
    assert ([c] + s)[0] == c && ([d] + t)[0] == d;
    assert s == ([c] + s)[1..] && t == ([d] + t)[1..];
  }

  /** The inside of a quoted string, its closing quote, and what follows. */
  function InsideTo(a: string, s: string): string {
    if a == "" then ['"'] + s else Escaped(a[0]) + InsideTo(a[1..], s)
  }

  lemma {:induction false} InsideToIs(a: string, s: string)
    ensures InsideTo(a, s) == Inside(a) + ['"'] + s
  {
    if a != "" {
      InsideToIs(a[1..], s);
      hide Escaped;
      assert Escaped(a[0]) + (Inside(a[1..]) + ['"'] + s) == Escaped(a[0]) + Inside(a[1..]) + ['"'] + s;
    }
  }

  lemma InsideToFirst(a: string, s: string)
    ensures InsideTo(a, s) != "" && (InsideTo(a, s)[0] == '"' <==> a == "")
  {
  }

  lemma {:induction false} InsideDiffers(a: string, b: string, s: string, t: string)
    requires InsideTo(a, s) == InsideTo(b, t)
    ensures a == b && s == t
  {
    hide Escaped;
    InsideToFirst(a, s);
    InsideToFirst(b, t);
    if a == "" {
      ConsDiffers('"', '"', s, t);
    } else {
      EscapesDiffer(a[0], b[0], InsideTo(a[1..], s), InsideTo(b[1..], t));
      InsideDiffers(a[1..], b[1..], s, t);
      assert a == [a[0]] + a[1..] && b == [b[0]] + b[1..];
    }
  }

  predicate Digits(text: string) {
    forall i :: 0 <= i < |text| ==> NumberChar(text[i])
  }

  lemma {:induction false} NumbersDiffer(a: string, b: string, s: string, t: string)
    requires Digits(a) && Digits(b) && Delimited(s) && Delimited(t)
    requires a + s == b + t
    ensures a == b && s == t
  {
    assert a == "" ==> a + s == s;
    assert b == "" ==> b + t == t;
    assert a != "" ==> a + s == [a[0]] + (a[1..] + s) && a == [a[0]] + a[1..];
    assert b != "" ==> b + t == [b[0]] + (b[1..] + t) && b == [b[0]] + b[1..];
    if a != "" && b != "" {
      ConsDiffers(a[0], b[0], a[1..] + s, b[1..] + t);
      NumbersDiffer(a[1..], b[1..], s, t);
    }
  }

  /** The text of a value and what follows it, written front to back. */
  function PrintTo(v: Json, s: string): string {
    match v
    case Null => "null" + s
    case Bool(b) => (if b then "true" else "false") + s
    case Num(text) => text + s
    case Str(chars) => ['"'] + InsideTo(chars, s)
    case Arr(items) => ['['] + ItemsTo(items, [']'] + s)
    case Obj(members) => ['{'] + MembersTo(members, ['}'] + s)
  }

  function ItemsTo(items: Items, s: string): string {
    match items
    case NoItems => s
    case Item(v, rest) => PrintTo(v, MoreTo(rest, s))
  }

  /** The rest of a list after one of its values. */
  function MoreTo(items: Items, s: string): string {
    match items
    case NoItems => s
    case Item(v, rest) => [','] + PrintTo(v, MoreTo(rest, s))
  }

  function MembersTo(m: Members, s: string): string {
    match m
    case NoMembers => s
    case Member(k, v, rest) => ['"'] + InsideTo(k, [':'] + PrintTo(v, MoreMembersTo(rest, s)))
  }

  function MoreMembersTo(m: Members, s: string): string {
    match m
    case NoMembers => s
    case Member(k, v, rest) => [',', '"'] + InsideTo(k, [':'] + PrintTo(v, MoreMembersTo(rest, s)))
  }

  lemma {:induction false} PrintToIs(v: Json, s: string)
    ensures PrintTo(v, s) == Print(v) + s
    decreases v, 1
  {
    match v
    case Str(chars) =>
      InsideToIs(chars, s);
      assert ['"'] + (Inside(chars) + ['"'] + s) == Quoted(chars) + s;
    case Arr(items) =>
      ItemsToIs(items, [']'] + s);
      assert ['['] + (PrintItems(items) + ([']'] + s)) == "[" + PrintItems(items) + "]" + s;
    case Obj(members) =>
      MembersToIs(members, ['}'] + s);
      assert ['{'] + (PrintMembers(members) + (['}'] + s)) == "{" + PrintMembers(members) + "}" + s;
    case _ =>
  }

  lemma {:induction false} ItemsToIs(items: Items, s: string)
    ensures ItemsTo(items, s) == PrintItems(items) + s
    ensures items.Item? ==> MoreTo(items, s) == "," + PrintItems(items) + s
    decreases items, 0
  {
    if items.Item? {
      ItemsToIs(items.tail, s);
      PrintToIs(items.head, MoreTo(items.tail, s));
      var front := Print(items.head);
      if items.tail.Item? {
        assert front + ("," + PrintItems(items.tail) + s) == front + "," + PrintItems(items.tail) + s;
      }
      assert "," + (PrintItems(items) + s) == "," + PrintItems(items) + s;
    }
  }

  lemma {:induction false} MembersToIs(m: Members, s: string)
    ensures MembersTo(m, s) == PrintMembers(m) + s
    ensures m.Member? ==> MoreMembersTo(m, s) == "," + PrintMembers(m) + s
    decreases m, 0
  {
    if m.Member? {
      MembersToIs(m.rest, s);
      PrintToIs(m.value, MoreMembersTo(m.rest, s));
      InsideToIs(m.key, [':'] + PrintTo(m.value, MoreMembersTo(m.rest, s)));
      hide Inside, PrintTo, InsideTo;
      assert MoreMembersTo(m, s) == "," + MembersTo(m, s);
      MemberIs(m, s);
    }
  }

  lemma MemberIs(m: Members, s: string)
    requires m.Member?
    requires MembersTo(m.rest, s) == PrintMembers(m.rest) + s
    requires m.rest.Member? ==> MoreMembersTo(m.rest, s) == "," + PrintMembers(m.rest) + s
    ensures ['"'] + (Inside(m.key) + ['"'] + ([':'] + (Print(m.value) + MoreMembersTo(m.rest, s)))) == PrintMembers(m) + s
  {
    hide Inside, Print;
    var k, v := Inside(m.key), Print(m.value);
    if m.rest.NoMembers? {
      assert ['"'] + (k + ['"'] + ([':'] + (v + s))) == (['"'] + k + ['"']) + ":" + v + s;
    } else {
      var r := PrintMembers(m.rest);
      assert ['"'] + (k + ['"'] + ([':'] + (v + ("," + r + s)))) == (['"'] + k + ['"']) + ":" + v + "," + r + s;
    }
  }

  /** The first character tells the kind of a value. */
  function KindOf(v: Json): int {
    match v
    case Null => 0
    case Bool(b) => if b then 1 else 2
    case Num(_) => 3
    case Str(_) => 4
    case Arr(_) => 5
    case Obj(_) => 6
  }

  function KindOfChar(c: char): int {
    if c == 'n' then 0 else if c == 't' then 1 else if c == 'f' then 2 else if NumberChar(c) then 3
    else if c == '"' then 4 else if c == '[' then 5 else if c == '{' then 6 else 7
  }

  lemma FirstChar(v: Json, s: string)
    requires Valid(v)
    ensures PrintTo(v, s) != "" && KindOfChar(PrintTo(v, s)[0]) == KindOf(v)
  {
    hide InsideTo, ItemsTo, MembersTo;
  }

  lemma {:induction false} TextsDiffer(v: Json, w: Json, s: string, t: string)
    requires Valid(v) && Valid(w) && Delimited(s) && Delimited(t)
    requires PrintTo(v, s) == PrintTo(w, t)
    ensures v == w && s == t
    decreases v, 1
  {
    FirstChar(v, s);
    FirstChar(w, t);
    hide InsideTo, ItemsTo, MembersTo, ValidItems, ValidMembers;
    match v
    case Num(a) => NumbersDiffer(a, w.text, s, t);
    case Str(a) =>
      ConsDiffers('"', '"', InsideTo(a, s), InsideTo(w.chars, t));
      InsideDiffers(a, w.chars, s, t);
    case Arr(items) =>
      ConsDiffers('[', '[', ItemsTo(items, [']'] + s), ItemsTo(w.items, [']'] + t));
      ItemTextsDiffer(items, w.items, s, t);
    case Obj(members) =>
      ConsDiffers('{', '{', MembersTo(members, ['}'] + s), MembersTo(w.members, ['}'] + t));
      MemberTextsDiffer(members, w.members, s, t);
    case Null => SuffixesDiffer("null", s, t);
    case Bool(b) => SuffixesDiffer(if b then "true" else "false", s, t);
  }

  lemma SuffixesDiffer(a: string, s: string, t: string)
    requires a + s == a + t
    ensures s == t
  {
    assert s == (a + s)[|a|..] && t == (a + t)[|a|..];
  }

  lemma {:induction false} ItemTextsDiffer(x: Items, y: Items, s: string, t: string)
    requires ValidItems(x) && ValidItems(y)
    requires ItemsTo(x, [']'] + s) == ItemsTo(y, [']'] + t)
    ensures x == y && s == t
    decreases x, 0
  {
    hide PrintTo, Valid;
    if x.Item? {
      FirstChar(x.head, MoreTo(x.tail, [']'] + s));
    }
    if y.Item? {
      FirstChar(y.head, MoreTo(y.tail, [']'] + t));
    }
    if x.Item? && y.Item? {
      TextsDiffer(x.head, y.head, MoreTo(x.tail, [']'] + s), MoreTo(y.tail, [']'] + t));
      MoreTextsDiffer(x.tail, y.tail, s, t);
    } else {
      assert KindOfChar(']') == 7;
      ConsDiffers(']', ']', s, t);
    }
  }

  lemma {:induction false} MoreTextsDiffer(x: Items, y: Items, s: string, t: string)
    requires ValidItems(x) && ValidItems(y)
    requires MoreTo(x, [']'] + s) == MoreTo(y, [']'] + t)
    ensures x == y && s == t
    decreases x, 0
  {
    hide PrintTo, Valid;
    if x.Item? && y.Item? {
      var s', t' := MoreTo(x.tail, [']'] + s), MoreTo(y.tail, [']'] + t);
      ConsDiffers(',', ',', PrintTo(x.head, s'), PrintTo(y.head, t'));
      TextsDiffer(x.head, y.head, s', t');
      MoreTextsDiffer(x.tail, y.tail, s, t);
    } else {
      assert MoreTo(x, [']'] + s)[0] == if x.Item? then ',' else ']';
      assert MoreTo(y, [']'] + t)[0] == if y.Item? then ',' else ']';
      ConsDiffers(']', ']', s, t);
    }
  }

  lemma {:induction false} MemberTextsDiffer(m: Members, n: Members, s: string, t: string)
    requires ValidMembers(m) && ValidMembers(n)
    requires MembersTo(m, ['}'] + s) == MembersTo(n, ['}'] + t)
    ensures m == n && s == t
    decreases m, 1
  {
    hide PrintTo, Valid, InsideTo;
    if m.Member? && n.Member? {
      OneMemberDiffers(m, n, s, t, MembersTo(m, ['}'] + s)[1..], MembersTo(n, ['}'] + t)[1..]);
    } else {
      assert MembersTo(m, ['}'] + s)[0] == if m.Member? then '"' else '}';
      assert MembersTo(n, ['}'] + t)[0] == if n.Member? then '"' else '}';
      ConsDiffers('}', '}', s, t);
    }
  }

  lemma {:induction false} OneMemberDiffers(m: Members, n: Members, s: string, t: string, a: string, b: string)
    requires ValidMembers(m) && ValidMembers(n) && m.Member? && n.Member? && a == b
    requires a == InsideTo(m.key, [':'] + PrintTo(m.value, MoreMembersTo(m.rest, ['}'] + s)))
    requires b == InsideTo(n.key, [':'] + PrintTo(n.value, MoreMembersTo(n.rest, ['}'] + t)))
    ensures m == n && s == t
    decreases m, 0
  {
    hide PrintTo, Valid, InsideTo;
    var s', t' := MoreMembersTo(m.rest, ['}'] + s), MoreMembersTo(n.rest, ['}'] + t);
    InsideDiffers(m.key, n.key, [':'] + PrintTo(m.value, s'), [':'] + PrintTo(n.value, t'));
    ConsDiffers(':', ':', PrintTo(m.value, s'), PrintTo(n.value, t'));
    assert Delimited(s') && Delimited(t');
    TextsDiffer(m.value, n.value, s', t');
    assert s'[0] == if m.rest.Member? then ',' else '}';
    assert t'[0] == if n.rest.Member? then ',' else '}';
    if m.rest.Member? && n.rest.Member? {
      OneMemberDiffers(m.rest, n.rest, s, t, s'[2..], t'[2..]);
    } else {
      ConsDiffers('}', '}', s, t);
    }
  }

  /** So `JSON.stringify` on these values is injective. */
  lemma PrintIsInjective(v: Json, w: Json)
    requires Valid(v) && Valid(w)
    ensures Print(v) == Print(w) <==> v == w
  {
    if Print(v) == Print(w) {
      PrintToIs(v, "");
      PrintToIs(w, "");
      TextsDiffer(v, w, "", "");
    }
  }

  // ----- sorting forgets the order, and nothing else --------------------------------------------------------

  predicate Ordered(m: Members, before: (string, string) -> bool) {
    match m
    case NoMembers => true
    case Member(k, _, rest) => (rest.Member? ==> before(k, rest.key)) && Ordered(rest, before)
  }

  lemma {:induction false} InsertIs(key: string, value: Json, m: Members, before: (string, string) -> bool)
    requires TotalOrder(before) && key !in Keys(m) && Ordered(m, before)
    ensures var n := Insert(key, value, m, before);
      && Keys(n) == Keys(m) + {key} && Ordered(n, before)
      && forall k :: Lookup(n, k) == if k == key then Some(value) else Lookup(m, k)
  {
    if m.Member? && !before(key, m.key) {
      InsertIs(key, value, m.rest, before);
    }
  }

  lemma {:induction false} InsertIsValid(key: string, value: Json, m: Members, before: (string, string) -> bool)
    requires TotalOrder(before) && key !in Keys(m) && Ordered(m, before) && Valid(value) && ValidMembers(m)
    ensures ValidMembers(Insert(key, value, m, before))
  {
    if m.Member? && !before(key, m.key) {
      InsertIsValid(key, value, m.rest, before);
      InsertIs(key, value, m.rest, before);
    }
  }

  lemma {:induction false} SortedIsValid(v: Json, before: (string, string) -> bool)
    requires TotalOrder(before) && Valid(v)
    ensures Valid(Sorted(v, before))
  {
    match v
    case Arr(items) => SortedItemsAreValid(items, before);
    case Obj(members) => SortedMembersIs(members, before);
    case _ =>
  }

  lemma {:induction false} SortedItemsAreValid(items: Items, before: (string, string) -> bool)
    requires TotalOrder(before) && ValidItems(items)
    ensures ValidItems(SortedItems(items, before))
  {
    if items.Item? {
      SortedIsValid(items.head, before);
      SortedItemsAreValid(items.tail, before);
    }
  }

  /** The sorted members: the same keys, in order, each with its sorted value. */
  lemma {:induction false} SortedMembersIs(m: Members, before: (string, string) -> bool)
    requires TotalOrder(before) && ValidMembers(m)
    ensures var n := SortedMembers(m, before);
      && Keys(n) == Keys(m) && Ordered(n, before) && ValidMembers(n)
      && forall k :: Lookup(n, k) == match Lookup(m, k) case Some(v) => Some(Sorted(v, before)) case None => None
  {
    if m.Member? {
      SortedIsValid(m.value, before);
      SortedMembersIs(m.rest, before);
      InsertIs(m.key, Sorted(m.value, before), SortedMembers(m.rest, before), before);
      InsertIsValid(m.key, Sorted(m.value, before), SortedMembers(m.rest, before), before);
    }
  }

  lemma {:induction false} LookupIsKeys(m: Members, key: string)
    ensures Lookup(m, key).Some? <==> key in Keys(m)
  {
    if m.Member? {
      LookupIsKeys(m.rest, key);
    }
  }

  lemma {:induction false} FirstIsLeast(m: Members, before: (string, string) -> bool, key: string)
    requires TotalOrder(before) && m.Member? && Ordered(m, before) && key in Keys(m)
    ensures before(m.key, key)
  {
    if key != m.key {
      FirstIsLeast(m.rest, before, key);
    }
  }

  /** Two ordered lists of members that look the same are the same. */
  lemma {:induction false} OrderedIsUnique(m: Members, n: Members, before: (string, string) -> bool)
    requires TotalOrder(before) && ValidMembers(m) && ValidMembers(n) && Ordered(m, before) && Ordered(n, before)
    requires forall k :: Lookup(m, k) == Lookup(n, k)
    ensures m == n
  {
    assert m.Member? ==> Lookup(n, m.key) == Lookup(m, m.key);
    assert n.Member? ==> Lookup(m, n.key) == Lookup(n, n.key);
    if m.Member? && n.Member? {
      LookupIsKeys(n, m.key);
      LookupIsKeys(m, n.key);
      assert Lookup(m, m.key).Some? && Lookup(n, n.key).Some?;
      FirstIsLeast(m, before, n.key);
      FirstIsLeast(n, before, m.key);
      assert m.key == n.key;
      forall k: string
        ensures Lookup(m.rest, k) == Lookup(n.rest, k)
      {
        LookupIsKeys(m.rest, k);
        LookupIsKeys(n.rest, k);
        assert Lookup(m, k) == Lookup(n, k);
      }
      OrderedIsUnique(m.rest, n.rest, before);
    }
  }

  lemma {:induction false} SortedIffSame(v: Json, w: Json, before: (string, string) -> bool)
    requires TotalOrder(before) && Valid(v) && Valid(w)
    ensures Sorted(v, before) == Sorted(w, before) <==> Same(v, w)
    decreases v, 1
  {
    match (v, w)
    case (Arr(x), Arr(y)) => SortedItemsIffSame(x, y, before);
    case (Obj(m), Obj(n)) =>
      SortedMembersIs(m, before);
      SortedMembersIs(n, before);
      var x, y := SortedMembers(m, before), SortedMembers(n, before);
      if Same(v, w) {
        forall k: string
          ensures Lookup(x, k) == Lookup(y, k)
        {
          LookupIsKeys(m, k);
          LookupIsKeys(n, k);
          if k in Keys(m) {
            SameMembersAt(m, n, k, before);
          }
        }
        OrderedIsUnique(x, y, before);
      }
      if x == y {
        assert Keys(m) == Keys(n);
        forall k | k in Keys(m)
          ensures Lookup(m, k).Some? && Lookup(n, k).Some?
            && Sorted(Lookup(m, k).value, before) == Sorted(Lookup(n, k).value, before)
        {
          LookupIsKeys(m, k);
          LookupIsKeys(n, k);
          assert Lookup(x, k) == Lookup(y, k);
        }
        SortedMembersSame(m, n, before);
      }
    case _ =>
  }

  lemma {:induction false} SortedItemsIffSame(x: Items, y: Items, before: (string, string) -> bool)
    requires TotalOrder(before) && ValidItems(x) && ValidItems(y)
    ensures SortedItems(x, before) == SortedItems(y, before) <==> SameItems(x, y)
    decreases x, 0
  {
    if x.Item? && y.Item? {
      SortedIffSame(x.head, y.head, before);
      SortedItemsIffSame(x.tail, y.tail, before);
    }
  }

  lemma {:induction false} LookupIsValid(m: Members, key: string)
    requires ValidMembers(m) && Lookup(m, key).Some?
    ensures Valid(Lookup(m, key).value)
  {
    if m.key != key {
      LookupIsValid(m.rest, key);
    }
  }

  lemma {:induction false} SameMembersAt(m: Members, n: Members, key: string, before: (string, string) -> bool)
    requires TotalOrder(before) && ValidMembers(m) && ValidMembers(n) && SameMembers(m, n) && key in Keys(m)
    ensures Lookup(m, key).Some? && Lookup(n, key).Some?
    ensures Sorted(Lookup(m, key).value, before) == Sorted(Lookup(n, key).value, before)
    decreases m, 0
  {
    if m.key == key {
      LookupIsValid(n, key);
      SortedIffSame(m.value, Lookup(n, key).value, before);
    } else {
      SameMembersAt(m.rest, n, key, before);
    }
  }

  lemma {:induction false} SortedMembersSame(m: Members, n: Members, before: (string, string) -> bool)
    requires TotalOrder(before) && ValidMembers(m) && ValidMembers(n)
    requires forall k :: k in Keys(m) ==>
      (Lookup(m, k).Some? && Lookup(n, k).Some?
       && Sorted(Lookup(m, k).value, before) == Sorted(Lookup(n, k).value, before))
    ensures SameMembers(m, n)
    decreases m, 0
  {
    if m.Member? {
      assert m.key in Keys(m);
      LookupIsValid(n, m.key);
      SortedIffSame(m.value, Lookup(n, m.key).value, before);
      forall k | k in Keys(m.rest)
        ensures Lookup(m.rest, k).Some? && Lookup(n, k).Some?
          && Sorted(Lookup(m.rest, k).value, before) == Sorted(Lookup(n, k).value, before)
      {
        assert k in Keys(m) && k != m.key;
      }
      SortedMembersSame(m.rest, n, before);
    }
  }

  /** Two values have one canonical text exactly when they are equal up to the order of keys, at every depth. */
  lemma CanonicalIffSame(v: Json, w: Json, before: (string, string) -> bool)
    requires TotalOrder(before) && Valid(v) && Valid(w)
    ensures Canonical(v, before) == Canonical(w, before) <==> Same(v, w)
  {
    SortedIsValid(v, before);
    SortedIsValid(w, before);
    PrintIsInjective(Sorted(v, before), Sorted(w, before));
    SortedIffSame(v, w, before);
  }

  // ----- what the rollout compares -----------------------------------------------------------------

  function Removed(m: Members, key: string): Members {
    match m
    case NoMembers => NoMembers
    case Member(k, v, rest) => if k == key then Removed(rest, key) else Member(k, v, Removed(rest, key))
  }

  /** `manifestWithoutVersion`. */
  function WithoutVersion(v: Json): Json {
    match v
    case Obj(members) => Obj(Removed(members, "version"))
    case _ => Null
  }

  lemma {:induction false} RemovedIs(m: Members, key: string)
    requires ValidMembers(m)
    ensures ValidMembers(Removed(m, key)) && Keys(Removed(m, key)) == Keys(m) - {key}
    ensures forall k :: Lookup(Removed(m, key), k) == if k == key then None else Lookup(m, k)
  {
    if m.Member? {
      RemovedIs(m.rest, key);
      LookupIsKeys(m.rest, m.key);
    }
  }

  lemma {:induction false} SameMembersIff(m: Members, n: Members)
    requires ValidMembers(m)
    ensures SameMembers(m, n) <==> forall k :: k in Keys(m) ==> SameAt(m, n, k)
  {
    if m.Member? {
      SameMembersIff(m.rest, n);
      assert SameAt(m, n, m.key) <==> Lookup(n, m.key).Some? && Same(m.value, Lookup(n, m.key).value);
      assert forall k :: k in Keys(m.rest) ==> (SameAt(m.rest, n, k) <==> SameAt(m, n, k));
    }
  }

  predicate SameAt(m: Members, n: Members, key: string) {
    Lookup(m, key).Some? && Lookup(n, key).Some? && Same(Lookup(m, key).value, Lookup(n, key).value)
  }

  /** Two manifests pass the check of the rollout exactly when they agree on every key but the version. */
  lemma AgreeButForVersion(m: Members, n: Members, before: (string, string) -> bool)
    requires TotalOrder(before) && ValidMembers(m) && ValidMembers(n)
    ensures Canonical(WithoutVersion(Obj(m)), before) == Canonical(WithoutVersion(Obj(n)), before) <==>
      (Keys(m) - {"version"} == Keys(n) - {"version"}
       && forall k :: k in Keys(m) && k != "version" ==> SameAt(m, n, k))
  {
    var x, y := Removed(m, "version"), Removed(n, "version");
    RemovedIs(m, "version");
    RemovedIs(n, "version");
    CanonicalIffSame(Obj(x), Obj(y), before);
    SameMembersIff(x, y);
    assert forall k :: k in Keys(x) ==> (SameAt(x, y, k) <==> SameAt(m, n, k));
  }
}
