/** JSON texts as `json.dumps` prints them with sorted keys and no spaces, and a reader that undoes the printer. */
module CanonicalJson {
  import opened Wrappers
  import opened Numerals

  datatype Json = Text(s: string) | Number(n: nat) | List(items: Items) | Object(fields: Fields)

  datatype Items = NoItems | Item(head: Json, tail: Items)

  datatype Fields = NoFields | Field(key: string, value: Json, rest: Fields)

  // ---------- printing ----------

  const HEX := "0123456789abcdef"

  function Escape(c: char): (r: string)
    ensures 1 <= |r| <= 6
  {
    var n := c as int;
    if c == '"' then "\\\"" else if c == '\\' then "\\\\"
    else if c == '\n' then "\\n" else if c == '\r' then "\\r" else if c == '\t' then "\\t"
    else if n == 8 then "\\b" else if n == 12 then "\\f"
    else if n < 0x20 then "\\u00" + [HEX[n / 16], HEX[n % 16]]
    else [c]
  }

  function Escaped(s: string): (r: string)
    ensures |r| <= 6 * |s|
  {
    if s == "" then "" else Escape(s[0]) + Escaped(s[1..])
  }

  function Quoted(s: string): string { "\"" + Escaped(s) + "\"" }

  function Print(j: Json): string
  {
    match j
    case Text(s) => Quoted(s)
    case Number(n) => Decimal(n)
    case List(items) => "[" + PrintItems(items) + "]"
    case Object(fields) => "{" + PrintFields(fields) + "}"
  }

  function PrintItems(items: Items): string
  {
    match items
    case NoItems => ""
    case Item(head, tail) => Print(head) + if tail.NoItems? then "" else "," + PrintItems(tail)
  }

  function PrintFields(fields: Fields): string
  {
    match fields
    case NoFields => ""
    case Field(key, value, rest) =>
      Quoted(key) + ":" + Print(value) + if rest.NoFields? then "" else "," + PrintFields(rest)
  }

  // ---------- reading ----------

  function HexValue(c: char): nat
  {
    if '0' <= c <= '9' then c as int - '0' as int else if 'a' <= c <= 'f' then c as int - 'a' as int + 10 else 16
  }

  /** One character of a string literal, plain or escaped. */
  function ReadChar(t: string): (r: Option<(char, string)>)
    requires t != ""
    ensures r.Some? ==> |r.value.1| < |t|
  {
    if t[0] != '\\' then if t[0] < ' ' then None else Some((t[0], t[1..]))
    else if |t| < 2 then None
    else if t[1] == '"' || t[1] == '\\' then Some((t[1], t[2..]))
    else if t[1] == 'n' then Some(('\n', t[2..]))
    else if t[1] == 'r' then Some(('\r', t[2..]))
    else if t[1] == 't' then Some(('\t', t[2..]))
    else if t[1] == 'b' then Some((8 as char, t[2..]))
    else if t[1] == 'f' then Some((12 as char, t[2..]))
    else if t[1] == 'u' && |t| >= 6 && t[2] == '0' && t[3] == '0' && HexValue(t[4]) < 8 && HexValue(t[5]) < 16 then
      Some(((HexValue(t[4]) * 16 + HexValue(t[5])) as char, t[6..]))
    else None
  }

  /** The rest of a string literal, up to its closing quote. */
  function ReadText(t: string): (r: Option<(string, string)>)
    ensures r.Some? ==> |r.value.1| < |t|
    decreases |t|
  {
    if t == "" then None
    else if t[0] == '"' then Some(("", t[1..]))
    else
      var first := ReadChar(t);
      if first.None? then None
      else
        var more := ReadText(first.value.1);
        if more.None? then None else Some(([first.value.0] + more.value.0, more.value.1))
  }

  function DigitCount(t: string): (n: nat)
    ensures n <= |t|
  {
    if t == "" || !IsDigit(t[0]) then 0 else 1 + DigitCount(t[1..])
  }

  function ReadValue(t: string): (r: Option<(Json, string)>)
    ensures r.Some? ==> |r.value.1| < |t|
    decreases |t|, 0
  {
    if t == "" then None
    else if t[0] == '"' then
      var text := ReadText(t[1..]);
      if text.None? then None else Some((Text(text.value.0), text.value.1))
    else if IsDigit(t[0]) then
      var n := DigitCount(t);
      if ValueOf(t[..n]) < 0 then None else Some((Number(ValueOf(t[..n])), t[n..]))
    else if t[0] == '[' then
      if |t| > 1 && t[1] == ']' then Some((List(NoItems), t[2..]))
      else
        var items := ReadItems(t[1..]);
        if items.None? then None else Some((List(items.value.0), items.value.1))
    else if t[0] == '{' then
      if |t| > 1 && t[1] == '}' then Some((Object(NoFields), t[2..]))
      else
        var fields := ReadFields(t[1..]);
        if fields.None? then None else Some((Object(fields.value.0), fields.value.1))
    else None
  }

  function ReadItems(t: string): (r: Option<(Items, string)>)
    ensures r.Some? ==> |r.value.1| < |t|
    decreases |t|, 1
  {
    var head := ReadValue(t);
    if head.None? || head.value.1 == "" then None
    else
      var rest := head.value.1;
      if rest[0] == ']' then Some((Item(head.value.0, NoItems), rest[1..]))
      else if rest[0] != ',' then None
      else
        var tail := ReadItems(rest[1..]);
        if tail.None? then None else Some((Item(head.value.0, tail.value.0), tail.value.1))
  }

  function ReadFields(t: string): (r: Option<(Fields, string)>)
    ensures r.Some? ==> |r.value.1| < |t|
    decreases |t|, 1
  {
    if t == "" || t[0] != '"' then None
    else
      var key := ReadText(t[1..]);
      if key.None? || key.value.1 == "" || key.value.1[0] != ':' then None
      else
        var value := ReadValue(key.value.1[1..]);
        if value.None? || value.value.1 == "" then None
        else
          var rest := value.value.1;
          if rest[0] == '}' then Some((Field(key.value.0, value.value.0, NoFields), rest[1..]))
          else if rest[0] != ',' then None
          else
            var more := ReadFields(rest[1..]);
            if more.None? then None else Some((Field(key.value.0, value.value.0, more.value.0), more.value.1))
  }

  function Parse(t: string): Option<Json>
  {
    match ReadValue(t)
    case None => None
    case Some((j, rest)) => if rest == "" then Some(j) else None
  }

  // ---------- reading undoes printing ----------

  lemma HexReadsBack(n: nat)
    requires n < 16
    ensures HexValue(HEX[n]) == n
  {
    assert n == 0 || n == 1 || n == 2 || n == 3 || n == 4 || n == 5 || n == 6 || n == 7
           || n == 8 || n == 9 || n == 10 || n == 11 || n == 12 || n == 13 || n == 14 || n == 15;
  }

  lemma CharReadsBack(c: char, rest: string)
    ensures var t := Escape(c) + rest; t[0] != '"' && ReadChar(t) == Some((c, rest))
  {
    var n, t := c as int, Escape(c) + rest;
    if n < 0x20 {
      HexReadsBack(n / 16);
      HexReadsBack(n % 16);
    }
    assert t[|Escape(c)|..] == rest;
  }

  lemma {:induction false} TextReadsBack(s: string, rest: string)
    ensures ReadText(Escaped(s) + "\"" + rest) == Some((s, rest))
    decreases |s|
  {
    var t := Escaped(s) + "\"" + rest;
    if s == "" {
      assert t[1..] == rest;
    } else {
      var after := Escaped(s[1..]) + "\"" + rest;
      assert t == Escape(s[0]) + after;
      CharReadsBack(s[0], after);
      TextReadsBack(s[1..], rest);
      assert [s[0]] + s[1..] == s;
    }
  }

  /** What may follow a printed value: nothing that would lengthen a number. */
  predicate Stops(rest: string) { rest == "" || !IsDigit(rest[0]) }

  lemma {:induction false} DigitsCounted(d: string, rest: string)
    requires Digits(d) && Stops(rest)
    ensures DigitCount(d + rest) == |d|
    decreases |d|
  {
    if d == "" {
      assert d + rest == rest;
    } else {
      assert (d + rest)[1..] == d[1..] + rest;
      DigitsCounted(d[1..], rest);
    }
  }

  lemma NumberReadsBack(n: nat, rest: string)
    requires Stops(rest)
    ensures ReadValue(Decimal(n) + rest) == Some((Number(n), rest))
  {
    var d, t := Decimal(n), Decimal(n) + rest;
    DecimalIsDigits(n);
    DecimalValue(n);
    DigitsCounted(d, rest);
    assert t[0] == d[0] && t[..|d|] == d && t[|d|..] == rest;
  }

  lemma PrintStarts(j: Json)
    ensures Print(j) != "" && Print(j)[0] !in "]},:"
  {
    if j.Number? { DecimalIsDigits(j.n); }
  }

  lemma TextStep(t: string, s: string, rest: string)
    requires t != "" && t[0] == '"' && ReadText(t[1..]) == Some((s, rest))
    ensures ReadValue(t) == Some((Text(s), rest))
  {}

  lemma ListStep(t: string, items: Items, rest: string)
    requires |t| > 1 && t[0] == '[' && t[1] != ']' && ReadItems(t[1..]) == Some((items, rest))
    ensures ReadValue(t) == Some((List(items), rest))
  {}

  lemma ObjectStep(t: string, fields: Fields, rest: string)
    requires |t| > 1 && t[0] == '{' && t[1] != '}' && ReadFields(t[1..]) == Some((fields, rest))
    ensures ReadValue(t) == Some((Object(fields), rest))
  {}

  lemma FieldStep(t: string, key: string, value: Json, v: string, after: string)
    requires t != "" && t[0] == '"' && ReadText(t[1..]) == Some((key, ":" + v)) && ReadValue(v) == Some((value, after))
    ensures after != "" && after[0] == '}' ==> ReadFields(t) == Some((Field(key, value, NoFields), after[1..]))
    ensures after != "" && after[0] == ',' && ReadFields(after[1..]).Some? ==>
              var (more, rest) := ReadFields(after[1..]).value;
              ReadFields(t) == Some((Field(key, value, more), rest))
  {
    assert (":" + v)[1..] == v;
  }

  lemma QuotedTail(s: string, rest: string)
    ensures (Quoted(s) + rest)[0] == '"' && (Quoted(s) + rest)[1..] == Escaped(s) + "\"" + rest
  {}

  lemma Enclosed(before: string, body: string, after: string, rest: string)
    requires |before| == 1 && body != ""
    ensures var t := before + body + after + rest;
            |t| > 1 && t[0] == before[0] && t[1] == body[0] && t[1..] == body + after + rest
  {}

  lemma FieldsStart(fields: Fields)
    requires fields.Field?
    ensures PrintFields(fields) != "" && PrintFields(fields)[0] == '"'
  {}

  lemma ListTail(items: Items, rest: string)
    requires items.Item?
    ensures var t := Print(List(items)) + rest;
            |t| > 1 && t[0] == '[' && t[1] != ']' && t[1..] == PrintItems(items) + "]" + rest
  {
    PrintStarts(items.head);
    Enclosed("[", PrintItems(items), "]", rest);
  }

  lemma ObjectTail(fields: Fields, rest: string)
    requires fields.Field?
    ensures var t := Print(Object(fields)) + rest;
            |t| > 1 && t[0] == '{' && t[1] != '}' && t[1..] == PrintFields(fields) + "}" + rest
  {
    FieldsStart(fields);
    Enclosed("{", PrintFields(fields), "}", rest);
  }

  /** Every printed value is read back, whatever follows it. */
  lemma {:induction false} ValueReadsBack(j: Json, rest: string)
    requires Stops(rest)
    ensures ReadValue(Print(j) + rest) == Some((j, rest))
    decreases j
  {
    var t := Print(j) + rest;
    match j {
      case Text(s) =>
        QuotedTail(s, rest);
        TextReadsBack(s, rest);
        TextStep(t, s, rest);
      case Number(n) => NumberReadsBack(n, rest);
      case List(items) =>
        if items.Item? {
          ListTail(items, rest);
          ItemsReadBack(items, rest);
          ListStep(t, items, rest);
        } else {
          assert t == "[]" + rest && t[2..] == rest;
        }
      case Object(fields) =>
        if fields.Field? {
          ObjectTail(fields, rest);
          FieldsReadBack(fields, rest);
          ObjectStep(t, fields, rest);
        } else {
          assert t == "{}" + rest && t[2..] == rest;
        }
    }
  }

  lemma ItemStep(t: string, head: Json, after: string)
    requires ReadValue(t) == Some((head, after)) && after != ""
    ensures after[0] == ']' ==> ReadItems(t) == Some((Item(head, NoItems), after[1..]))
    ensures after[0] == ',' && ReadItems(after[1..]).Some? ==>
              var (more, rest) := ReadItems(after[1..]).value;
              ReadItems(t) == Some((Item(head, more), rest))
  {}

  lemma ItemsSplit(items: Items, rest: string) returns (after: string)
    requires items.Item?
    ensures Stops(after) && after != "" && PrintItems(items) + "]" + rest == Print(items.head) + after
    ensures if items.tail.NoItems? then after[0] == ']' && after[1..] == rest
            else after[0] == ',' && after[1..] == PrintItems(items.tail) + "]" + rest
  {
    var more := if items.tail.NoItems? then "" else "," + PrintItems(items.tail);
    after := more + ("]" + rest);
    Assoc(PrintItems(items), "]", rest);
    Assoc(Print(items.head), more, "]" + rest);
    if items.tail.Item? {
      Assoc(",", PrintItems(items.tail), "]" + rest);
      Assoc(PrintItems(items.tail), "]", rest);
    }
  }

  lemma {:induction false} ItemsReadBack(items: Items, rest: string)
    requires items.Item?
    ensures ReadItems(PrintItems(items) + "]" + rest) == Some((items, rest))
    decreases items
  {
    var after := ItemsSplit(items, rest);
    ValueReadsBack(items.head, after);
    ItemStep(PrintItems(items) + "]" + rest, items.head, after);
    if items.tail.Item? { ItemsReadBack(items.tail, rest); }
  }

  lemma Assoc(a: string, b: string, c: string)
    ensures a + b + c == a + (b + c)
  {}

  lemma Regrouped(quoted: string, colon: string, value: string, more: string, end: string)
    ensures quoted + colon + value + more + end == quoted + (colon + (value + (more + end)))
  {
    Assoc(quoted + colon + value, more, end);
    Assoc(quoted + colon, value, more + end);
    Assoc(quoted, colon, value + (more + end));
  }

  lemma FieldsSplit(fields: Fields, rest: string) returns (after: string)
    requires fields.Field?
    ensures Stops(after) && after != ""
    ensures PrintFields(fields) + "}" + rest == Quoted(fields.key) + (":" + (Print(fields.value) + after))
    ensures if fields.rest.NoFields? then after[0] == '}' && after[1..] == rest
            else after[0] == ',' && after[1..] == PrintFields(fields.rest) + "}" + rest
  {
    var more := if fields.rest.NoFields? then "" else "," + PrintFields(fields.rest);
    after := more + ("}" + rest);
    Assoc(PrintFields(fields), "}", rest);
    Regrouped(Quoted(fields.key), ":", Print(fields.value), more, "}" + rest);
    if fields.rest.Field? {
      Assoc(",", PrintFields(fields.rest), "}" + rest);
      Assoc(PrintFields(fields.rest), "}", rest);
    }
  }

  lemma {:induction false} FieldsReadBack(fields: Fields, rest: string)
    requires fields.Field?
    ensures ReadFields(PrintFields(fields) + "}" + rest) == Some((fields, rest))
    decreases fields
  {
    var t := PrintFields(fields) + "}" + rest;
    var after := FieldsSplit(fields, rest);
    var value := Print(fields.value) + after;
    QuotedTail(fields.key, ":" + value);
    TextReadsBack(fields.key, ":" + value);
    ValueReadsBack(fields.value, after);
    FieldStep(t, fields.key, fields.value, value, after);
    if !fields.rest.NoFields? { FieldsReadBack(fields.rest, rest); }
  }

  lemma ParseUndoesPrint(j: Json)
    ensures Parse(Print(j)) == Some(j)
  {
    ValueReadsBack(j, "");
    assert Print(j) + "" == Print(j);
  }

  // ---------- the length of a document ----------

  /** A bound on the printed length, from the lengths of the texts and numerals inside. */
  function Width(j: Json): nat
  {
    match j
    case Text(s) => 6 * |s| + 2
    case Number(n) => |Decimal(n)|
    case List(items) => ItemsWidth(items) + 2
    case Object(fields) => FieldsWidth(fields) + 2
  }

  function ItemsWidth(items: Items): nat
  {
    match items
    case NoItems => 0
    case Item(head, tail) => Width(head) + 1 + ItemsWidth(tail)
  }

  function FieldsWidth(fields: Fields): nat
  {
    match fields
    case NoFields => 0
    case Field(key, value, rest) => 6 * |key| + 4 + Width(value) + FieldsWidth(rest)
  }

  lemma {:induction false} PrintIsWithin(j: Json)
    ensures |Print(j)| <= Width(j)
    decreases j
  {
    match j
    case Text(_) =>
    case Number(_) =>
    case List(items) => ItemsAreWithin(items);
    case Object(fields) => FieldsAreWithin(fields);
  }

  lemma {:induction false} ItemsAreWithin(items: Items)
    ensures |PrintItems(items)| <= ItemsWidth(items)
    decreases items
  {
    if items.Item? {
      PrintIsWithin(items.head);
      ItemsAreWithin(items.tail);
    }
  }

  lemma {:induction false} FieldsAreWithin(fields: Fields)
    ensures |PrintFields(fields)| <= FieldsWidth(fields)
    decreases fields
  {
    if fields.Field? {
      PrintIsWithin(fields.value);
      FieldsAreWithin(fields.rest);
    }
  }

  // ---------- lists of records ----------

  function ItemsOf<T>(xs: seq<T>, write: T -> Json): Items
  {
    if xs == [] then NoItems else Item(write(xs[0]), ItemsOf(xs[1..], write))
  }

  function SeqOf<T>(items: Items, read: Json -> Option<T>): Option<seq<T>>
  {
    match items
    case NoItems => Some([])
    case Item(head, tail) =>
      var first, more := read(head), SeqOf(tail, read);
      if first.Some? && more.Some? then Some([first.value] + more.value) else None
  }

  lemma {:induction false} ItemsReadAsWritten<T>(xs: seq<T>, write: T -> Json, read: Json -> Option<T>)
    requires forall x | x in xs :: read(write(x)) == Some(x)
    ensures SeqOf(ItemsOf(xs, write), read) == Some(xs)
    decreases |xs|
  {
    if xs != [] {
      ItemsReadAsWritten(xs[1..], write, read);
      assert read(write(xs[0])) == Some(xs[0]);
      assert [xs[0]] + xs[1..] == xs;
    }
  }

  lemma {:induction false} ItemsWidthIsWithin<T>(xs: seq<T>, write: T -> Json, bound: nat)
    requires forall x | x in xs :: Width(write(x)) <= bound
    ensures ItemsWidth(ItemsOf(xs, write)) <= |xs| * (bound + 1)
    decreases |xs|
  {
    if xs != [] {
      assert xs[0] in xs;
      ItemsWidthIsWithin(xs[1..], write, bound);
      assert |xs| * (bound + 1) == (|xs| - 1) * (bound + 1) + (bound + 1);
    }
  }
}
