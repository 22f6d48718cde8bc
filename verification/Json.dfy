/** JSON values as `serde_json` holds and prints them: objects are kept sorted by key
    (its default `BTreeMap`), and printing is compact with section 7 of RFC 8259 escapes. */
module Json {
  import opened Wrappers
  import opened Text

  /** A number is represented by its printed form. */
  datatype Json =
    | Null
    | Bool(truth: bool)
    | Num(digits: string)
    | Str(text: string)
    | Arr(items: seq<Json>)
    | Obj(fields: seq<Field>)

  datatype Field = Field(key: string, value: Json)

  predicate Sorted(fields: seq<Field>) {
    forall i, j | 0 <= i < j < |fields| :: Less(fields[i].key, fields[j].key)
  }

  predicate NumberText(s: string) {
    s != [] && forall i | 0 <= i < |s| :: '0' <= s[i] <= '9' || s[i] in "+-.eE"
  }

  /** What a `serde_json::Value` always is: sorted objects and printable numbers. */
  predicate WellFormed(j: Json)
    decreases j, 1
  {
    match j
    case Num(digits) => NumberText(digits)
    case Arr(items) => forall item <- items :: WellFormed(item)
    case Obj(fields) => Sorted(fields) && WellFormedFields(fields)
    case _ => true
  }

  predicate WellFormedFields(fields: seq<Field>)
    decreases fields, 0
  {
    fields == [] || (WellFormed(fields[0].value) && WellFormedFields(fields[1..]))
  }

  /** `Map::insert`: overwrite the value of an existing key, else keep the order. */
  function Insert(fields: seq<Field>, key: string, value: Json): seq<Field> {
    if fields == [] || Less(key, fields[0].key) then
      [Field(key, value)] + fields
    else if fields[0].key == key then
      [Field(key, value)] + fields[1..]
    else
      [fields[0]] + Insert(fields[1..], key, value)
  }

  /** `Map::get` */
  function Get(fields: seq<Field>, key: string): (r: seq<Json>)
    ensures |r| <= 1
  {
    if fields == [] then []
    else if fields[0].key == key then [fields[0].value]
    else Get(fields[1..], key)
  }

  lemma {:induction false} InsertSorted(fields: seq<Field>, key: string, value: Json)
    requires Sorted(fields)
    ensures Sorted(Insert(fields, key, value))
    ensures forall f <- Insert(fields, key, value) :: f in fields || f.key == key
  {
    if fields == [] {
    } else if Less(key, fields[0].key) {
      forall f <- fields ensures Less(key, f.key) {
        if f != fields[0] { LessTransitive(key, fields[0].key, f.key); }
      }
    } else if fields[0].key != key {
      LessTotal(key, fields[0].key);
      var rest := Insert(fields[1..], key, value);
      InsertSorted(fields[1..], key, value);
      assert forall f <- rest :: f in fields[1..] || f.key == key;
      assert forall f <- rest :: Less(fields[0].key, f.key);
    }
  }

  lemma {:induction false} GetInserted(fields: seq<Field>, key: string, value: Json, k: string)
    requires Sorted(fields)
    ensures Get(Insert(fields, key, value), k) == if k == key then [value] else Get(fields, k)
  {
    if fields == [] {
    } else if Less(key, fields[0].key) {
      assert ([Field(key, value)] + fields)[1..] == fields;
    } else if fields[0].key == key {
      assert ([Field(key, value)] + fields[1..])[1..] == fields[1..];
    } else {
      var rest := Insert(fields[1..], key, value);
      assert ([fields[0]] + rest)[1..] == rest;
      GetInserted(fields[1..], key, value, k);
    }
  }

  /** Inserting past the last key appends. */
  lemma {:induction false} InsertLast(fields: seq<Field>, key: string, value: Json)
    requires forall f <- fields :: Less(f.key, key)
    ensures Insert(fields, key, value) == fields + [Field(key, value)]
  {
    if fields != [] {
      LessIrreflexive(fields[0].key, key);
      InsertLast(fields[1..], key, value);
      assert fields == [fields[0]] + fields[1..];
    }
  }

  // Printing

  const HEX := "0123456789abcdef"

  predicate NeedsEscape(c: char) {
    c == '"' || c == '\\' || c < ' '
  }

  /** How one character of a string is printed. */
  function Escape(c: char): string {
    if c == '"' then "\\\""
    else if c == '\\' then "\\\\"
    else if c == '\U{8}' then "\\b"
    else if c == '\t' then "\\t"
    else if c == '\n' then "\\n"
    else if c == '\U{C}' then "\\f"
    else if c == '\r' then "\\r"
    else if c < ' ' then "\\u00" + [HEX[c as int / 16], HEX[c as int % 16]]
    else [c]
  }

  function EscapeAll(s: string): string {
    if s == [] then [] else Escape(s[0]) + EscapeAll(s[1..])
  }

  function Quote(s: string): string {
    "\"" + EscapeAll(s) + "\""
  }

  /** `Value::to_string` */
  function ToText(j: Json): string
    decreases j, 1
  {
    match j
    case Null => "null"
    case Bool(b) => if b then "true" else "false"
    case Num(digits) => digits
    case Str(text) => Quote(text)
    case Arr(items) => "[" + ItemsToText(items) + "]"
    case Obj(fields) => "{" + FieldsToText(fields) + "}"
  }

  function ItemsToText(items: seq<Json>): string
    decreases items, 0
  {
    if items == [] then ""
    else ToText(items[0]) + (if |items| == 1 then "" else "," + ItemsToText(items[1..]))
  }

  function FieldsToText(fields: seq<Field>): string
    decreases fields, 0
  {
    if fields == [] then ""
    else
      Quote(fields[0].key) + ":" + ToText(fields[0].value) +
      (if |fields| == 1 then "" else "," + FieldsToText(fields[1..]))
  }

  lemma {:induction false} EscapeAllConcat(a: string, b: string)
    ensures EscapeAll(a + b) == EscapeAll(a) + EscapeAll(b)
  {
    if a == [] {
      assert a + b == b;
    } else {
      assert (a + b)[1..] == a[1..] + b;
      EscapeAllConcat(a[1..], b);
    }
  }

  lemma {:induction false} EscapeAllPlain(s: string)
    requires forall i | 0 <= i < |s| :: !NeedsEscape(s[i])
    ensures EscapeAll(s) == s
  {
    if s != [] {
      EscapeAllPlain(s[1..]);
      assert s == [s[0]] + s[1..];
    }
  }

  lemma {:induction false} EscapeAllBraces(s: string)
    requires NoBraces(s)
    ensures NoBraces(EscapeAll(s))
  {
    if s != [] {
      EscapeAllBraces(s[1..]);
      EscapeNoBraces(s[0]);
      hide Escape;
    }
  }

  lemma EscapeNoBraces(c: char)
    requires c != '{' && c != '}'
    ensures NoBraces(Escape(c))
  {
  }

  // Reading back

  /** The value of a hexadecimal digit. */
  function Digit(c: char): Option<int> {
    if '0' <= c <= '9' then Some(c as int - '0' as int)
    else if 'a' <= c <= 'f' then Some(c as int - 'a' as int + 10)
    else if 'A' <= c <= 'F' then Some(c as int - 'A' as int + 10)
    else None
  }

  /** The character of a two-character escape, section 7 of RFC 8259. */
  function ShortEscape(c: char): Option<char> {
    if c == '"' || c == '\\' || c == '/' then Some(c)
    else if c == 'b' then Some(8 as char)
    else if c == 'f' then Some(12 as char)
    else if c == 'n' then Some(10 as char)
    else if c == 'r' then Some(13 as char)
    else if c == 't' then Some(9 as char)
    else None
  }

  /** How a reader takes one character off the text of a string: the character, and how many
      of the text it took.  Escapes above U+00FF are not printed and not read here. */
  function ReadOne(s: string): Option<(char, nat)>
    requires s != []
  {
    if s[0] == '"' || s[0] < ' ' then None
    else if s[0] != '\\' then Some((s[0], 1))
    else if |s| == 1 then None
    else if s[1] != 'u' then
      if ShortEscape(s[1]).Some? then Some((ShortEscape(s[1]).value, 2)) else None
    else if |s| < 6 || s[2] != '0' || s[3] != '0' || Digit(s[4]).None? || Digit(s[5]).None? then None
    else Some(((16 * Digit(s[4]).value + Digit(s[5]).value) as char, 6))
  }

  function Unescape(s: string): Option<string>
    decreases |s|
  {
    if s == [] then Some("")
    else
      var one := ReadOne(s);
      if one.None? || one.value.1 == 0 || one.value.1 > |s| then None
      else
        var rest := Unescape(s[one.value.1..]);
        if rest.None? then None else Some([one.value.0] + rest.value)
  }

  lemma HexDigits(c: char)
    requires c < ' '
    ensures Digit(HEX[c as int / 16]) == Some(c as int / 16) && Digit(HEX[c as int % 16]) == Some(c as int % 16)
  {
    var n := c as int;
    assert n / 16 == 0 || n / 16 == 1;
    var d := n % 16;
    assert d == 0 || d == 1 || d == 2 || d == 3 || d == 4 || d == 5 || d == 6 || d == 7
        || d == 8 || d == 9 || d == 10 || d == 11 || d == 12 || d == 13 || d == 14 || d == 15;
  }

  lemma ReadEscaped(c: char, rest: string)
    ensures ReadOne(Escape(c) + rest) == Some((c, |Escape(c)|)) && (Escape(c) + rest)[|Escape(c)|..] == rest
  {
    if c < ' ' {
      HexDigits(c);
    }
    hide Digit;
  }

  /** A printed string reads back as itself. */
  lemma {:induction false} EscapeReadsBack(s: string)
    ensures Unescape(EscapeAll(s)) == Some(s)
  {
    if s != [] {
      EscapeReadsBack(s[1..]);
      ReadEscaped(s[0], EscapeAll(s[1..]));
      hide ReadOne, Escape;
      assert s == [s[0]] + s[1..];
    }
  }
}
