/** `load_secrets` of crates/worker/src/pipeline.rs: a textual scan of the serialised spec
    that decides which secrets are fetched before the spec is resolved. */
module SecretScan {
  import opened Wrappers
  import opened Text
  import opened Json
  import opened Template
  import opened TemplateLaws
  import opened Printing

  const MARK := "{{secret."
  const NAMESPACE := "secret."

  // The scan

  /** Where the name after the first mark begins and ends; an unclosed mark counts for nothing. */
  function FirstMark(text: string): (r: Option<Hole>)
    ensures r.Some? ==> 9 <= r.value.open <= r.value.close <= |text| - 2
  {
    var mark := Find(text, MARK);
    if mark.None? then None
    else
      var from := mark.value + 9;
      var end := Find(text[from..], CLOSE);
      if end.None? then None else Some(Hole(from, from + end.value))
  }

  /** The names the scan reads off a text: after each mark, up to the next closing braces. */
  function Scan(text: string): seq<string>
    decreases |text|
  {
    var mark := FirstMark(text);
    if mark.None? then []
    else [text[mark.value.open..mark.value.close]] + Scan(text[mark.value.close + 2..])
  }

  /** The stored secrets with the given names. */
  ghost function Restrict(store: map<string, string>, scanned: seq<string>): map<string, string> {
    map n | n in store && n in scanned :: store[n]
  }

  /** The first scanned name that is not stored. */
  function FirstMissing(store: map<string, string>, scanned: seq<string>): Option<string> {
    if scanned == [] then None
    else if scanned[0] !in store then Some(scanned[0])
    else FirstMissing(store, scanned[1..])
  }

  lemma {:induction false} MissingSuffix(store: map<string, string>, done: seq<string>, rest: seq<string>)
    requires forall n <- done :: n in store
    ensures FirstMissing(store, done + rest) == FirstMissing(store, rest)
  {
    if done == [] {
      assert done + rest == rest;
    } else {
      assert (done + rest)[1..] == done[1..] + rest;
      MissingSuffix(store, done[1..], rest);
    }
  }

  lemma ScanTurn(text: string, start: nat)
    requires start <= |text| && FirstMark(text[start..]).Some?
    ensures var mark := FirstMark(text[start..]).value;
            Scan(text[start..]) == [text[start + mark.open..start + mark.close]] + Scan(text[start + mark.close + 2..])
  {
    hide FirstMark;
    var rest, mark := text[start..], FirstMark(text[start..]).value;
    SliceOfDrop(text, start, mark.open, mark.close);
    assert rest[mark.close + 2..] == text[start + mark.close + 2..];
  }

  /** The scanning loop.  It fails on the first name that is not stored; otherwise it has
      loaded exactly the stored values of the scanned names. */
  method LoadSecrets(spec: Json, store: map<string, string>) returns (r: Result<map<string, string>, string>)
    ensures var scanned := Scan(ToText(spec));
            match FirstMissing(store, scanned)
            case Some(n) => r == Failure(n)
            case None => r == Success(Restrict(store, scanned))
  {
    hide FirstMark, ToText, FirstMissing, Scan;
    var text := ToText(spec);
    var secrets: map<string, string> := map[];
    var start := 0;
    ghost var seen: seq<string> := [];
    assert text[0..] == text && [] + Scan(text) == Scan(text);
    while true
      invariant 0 <= start <= |text|
      invariant Scan(text) == seen + Scan(text[start..])
      invariant forall n <- seen :: n in store
      invariant secrets == Restrict(store, seen)
      decreases |text| - start
    {
      var mark := FirstMark(text[start..]);
      if mark.None? {
        break;
      }
      var name := text[start + mark.value.open..start + mark.value.close];
      ScanTurn(text, start);
      ghost var rest := Scan(text[start + mark.value.close + 2..]);
      assert seen + ([name] + rest) == (seen + [name]) + rest;
      if name !in secrets {
        if name !in store {
          MissingIsFirst(store, seen, name, rest);
          return Failure(name);
        }
        secrets := secrets[name := store[name]];
      }
      seen := seen + [name];
      start := start + mark.value.close + 2;
    }
    NoMarkNoScan(text[start..]);
    assert seen + [] == seen;
    NoneMissing(store, seen);
    return Success(secrets);
  }

  lemma NoMarkNoScan(text: string)
    requires FirstMark(text).None?
    ensures Scan(text) == []
  {
  }

  lemma MissingIsFirst(store: map<string, string>, done: seq<string>, name: string, rest: seq<string>)
    requires (forall n <- done :: n in store) && name !in store
    ensures FirstMissing(store, done + [name] + rest) == Some(name)
  {
    assert done + [name] + rest == done + ([name] + rest);
    MissingSuffix(store, done, [name] + rest);
  }

  lemma NoneMissing(store: map<string, string>, done: seq<string>)
    requires forall n <- done :: n in store
    ensures FirstMissing(store, done) == None
  {
    assert done + [] == done;
    MissingSuffix(store, done, []);
  }

  lemma {:induction false} NoneMissingMeans(store: map<string, string>, scanned: seq<string>)
    requires FirstMissing(store, scanned) == None
    ensures forall n <- scanned :: n in store
  {
    if scanned != [] {
      NoneMissingMeans(store, scanned[1..]);
      assert scanned == [scanned[0]] + scanned[1..];
    }
  }

  // Specs written from parts

  /** A spec tree whose strings and keys are lists of parts. */
  datatype Doc =
    | Atom(value: Json)
    | Text(parts: seq<Part>)
    | List(docs: seq<Doc>)
    | Table(entries: seq<Entry>)

  datatype Entry = Entry(key: seq<Part>, value: Doc)

  ghost predicate NameOk(v: string) {
    forall i | 0 <= i < |v| :: !IsSpace(v[i]) && !NeedsEscape(v[i]) && v[i] != '{' && v[i] != '}'
  }

  /** Printable parts whose names are free of white space and of escaped characters. */
  ghost predicate CleanParts(parts: seq<Part>) {
    PartsOk(parts) && forall p <- parts :: p.Reference? ==> NameOk(p.variable)
  }

  ghost predicate DocOk(d: Doc)
    decreases d, 1
  {
    match d
    case Atom(v) => v.Null? || v.Bool? || (v.Num? && NumberText(v.digits))
    case Text(parts) => CleanParts(parts)
    case List(docs) => forall d <- docs :: DocOk(d)
    case Table(entries) => EntriesOk(entries)
  }

  ghost predicate EntriesOk(entries: seq<Entry>)
    decreases entries, 0
  {
    entries == [] || (CleanParts(entries[0].key) && DocOk(entries[0].value) && EntriesOk(entries[1..]))
  }

  function ToJson(d: Doc): Json
    decreases d, 1
  {
    match d
    case Atom(v) => v
    case Text(parts) => Str(PrintAll(parts))
    case List(docs) => Arr(ToItems(docs))
    case Table(entries) => Obj(ToFields(entries))
  }

  function ToItems(docs: seq<Doc>): (items: seq<Json>)
    ensures |items| == |docs|
    decreases docs, 0
  {
    if docs == [] then [] else [ToJson(docs[0])] + ToItems(docs[1..])
  }

  function ToFields(entries: seq<Entry>): (fields: seq<Field>)
    ensures |fields| == |entries|
    decreases entries, 0
  {
    if entries == [] then []
    else [Field(PrintAll(entries[0].key), ToJson(entries[0].value))] + ToFields(entries[1..])
  }

  /** All parts of a tree, in printing order. */
  function AllParts(d: Doc): seq<Part>
    decreases d, 1
  {
    match d
    case Atom(_) => []
    case Text(parts) => parts
    case List(docs) => PartsOfDocs(docs)
    case Table(entries) => PartsOfEntries(entries)
  }

  function PartsOfDocs(docs: seq<Doc>): seq<Part>
    decreases docs, 0
  {
    if docs == [] then [] else AllParts(docs[0]) + PartsOfDocs(docs[1..])
  }

  function PartsOfEntries(entries: seq<Entry>): seq<Part>
    decreases entries, 0
  {
    if entries == [] then []
    else entries[0].key + AllParts(entries[0].value) + PartsOfEntries(entries[1..])
  }

  /** What the scan reads off one part: nothing unless the namespace directly follows the
      braces, and then everything up to the closing ones, escaped padding included. */
  function ScannedOf(p: Part): seq<string> {
    if p.Reference? && p.lead == "" && NAMESPACE <= p.variable then
      [p.variable[7..] + EscapeAll(p.trail)]
    else []
  }

  function ScannedIn(parts: seq<Part>): seq<string> {
    if parts == [] then [] else ScannedOf(parts[0]) + ScannedIn(parts[1..])
  }

  lemma {:induction false} ScannedConcat(a: seq<Part>, b: seq<Part>)
    ensures ScannedIn(a + b) == ScannedIn(a) + ScannedIn(b)
  {
    if a == [] {
      assert a + b == b;
    } else {
      assert (a + b)[1..] == a[1..] + b;
      ScannedConcat(a[1..], b);
    }
  }

  // The scan of a printed tree

  /** Text the scan passes over: every opening brace in it is followed by some other character. */
  ghost predicate Inert(t: string) {
    forall i | 0 <= i < |t| && t[i] == '{' :: i + 1 < |t| && t[i + 1] != '{'
  }

  lemma MarkOpens(s: string)
    ensures MARK <= s ==> OPEN <= s
  {
    assert MARK == OPEN + NAMESPACE;
  }

  lemma {:induction false} FindPastInert(t: string, s: string)
    requires Inert(t)
    ensures Find(t + s, MARK) == (if Find(s, MARK).None? then None else Some(|t| + Find(s, MARK).value))
  {
    if t == [] {
      assert t + s == s;
    } else {
      assert (t + s)[1..] == t[1..] + s;
      FindPastInert(t[1..], s);
      assert (t + s)[0] == t[0];
      assert |t| > 1 ==> (t + s)[1] == t[1];
      assert !(OPEN <= t + s);
      MarkOpens(t + s);
    }
  }

  lemma MarkPastInert(t: string, s: string)
    requires Inert(t)
    ensures FirstMark(t + s).Some? == FirstMark(s).Some?
    ensures FirstMark(s).Some? ==> FirstMark(t + s).value == Shift(FirstMark(s).value, |t|)
  {
    hide Find;
    FindPastInert(t, s);
    if Find(s, MARK).Some? {
      DropOfConcat(t, s, Find(s, MARK).value + 9);
    }
  }

  lemma ScanPastInert(t: string, s: string)
    requires Inert(t)
    ensures Scan(t + s) == Scan(s)
  {
    hide FirstMark, Inert;
    MarkPastInert(t, s);
    if FirstMark(s).Some? {
      var mark := FirstMark(s).value;
      DropOfConcat(t, s, mark.close + 2);
      assert (t + s)[|t| + mark.open..|t| + mark.close] == s[mark.open..mark.close];
    }
  }

  /** `t` adds exactly the names `found` in front of whatever follows it. */
  ghost predicate Reads(t: string, found: seq<string>) {
    forall rest: string :: Scan(t + rest) == found + Scan(rest)
  }

  lemma ReadsInert(t: string)
    requires Inert(t)
    ensures Reads(t, [])
  {
    hide Scan;
    forall rest: string ensures Scan(t + rest) == [] + Scan(rest) {
      ScanPastInert(t, rest);
    }
  }

  lemma ReadsThen(a: string, f: seq<string>, b: string, g: seq<string>)
    requires Reads(a, f) && Reads(b, g)
    ensures Reads(a + b, f + g)
  {
    hide Scan;
    forall rest: string ensures Scan(a + b + rest) == f + g + Scan(rest) {
      assert a + b + rest == a + (b + rest);
      assert f + (g + Scan(rest)) == f + g + Scan(rest);
    }
  }

  /** An opening brace before anything but a brace is passed over. */
  lemma ReadsAfterBrace(t: string, found: seq<string>)
    requires Reads(t, found) && t != [] && t[0] != '{'
    ensures Reads("{" + t, found)
  {
    hide Scan;
    forall rest: string ensures Scan("{" + t + rest) == found + Scan(rest) {
      var c := [t[0]];
      assert t == c + t[1..];
      assert Inert("{" + c) && Inert(c) by { assert |"{" + c| == 2; }
      assert "{" + t + rest == ("{" + c) + (t[1..] + rest);
      assert t + rest == c + (t[1..] + rest);
      ScanPastInert("{" + c, t[1..] + rest);
      ScanPastInert(c, t[1..] + rest);
    }
  }

  /** A mark is read up to its closing braces. */
  lemma ReadsMark(name: string)
    requires NoBraces(name)
    ensures Reads(MARK + name + CLOSE, [name])
  {
    forall rest: string ensures Scan(MARK + name + CLOSE + rest) == [name] + Scan(rest) {
      var text := MARK + name + CLOSE + rest;
      assert MARK <= text;
      assert Find(text, MARK) == Some(0);
      assert text[9..] == name + (CLOSE + rest);
      FindPast(name, CLOSE + rest, CLOSE);
      assert CLOSE <= CLOSE + rest;
      hide Find;
      assert FirstMark(text) == Some(Hole(9, 9 + |name|));
      assert text[9..9 + |name|] == name;
      assert text[9 + |name| + 2..] == rest;
    }
  }

  lemma BracedBodyIsInert(body: string)
    requires NoBraces(body)
    ensures Inert("{" + body + CLOSE)
  {
    var tail := "{" + body + CLOSE;
    assert tail[1] != '{' by { if body != [] { assert tail[1] == body[0]; } }
    forall i | 0 < i < |tail| ensures tail[i] != '{' {
      if i <= |body| { assert tail[i] == body[i - 1]; }
    }
  }

  lemma NoMarkAt(body: string, rest: string)
    requires NoBraces(body) && !(NAMESPACE <= body)
    ensures !(MARK <= OPEN + body + CLOSE + rest)
  {
    hide NoBraces;
    var text := OPEN + body + CLOSE + rest;
    assert text[2..] == body + (CLOSE + rest);
    NamespaceInBody(body, rest);
    MarkHoldsNamespace(text);
  }

  /** A pair of opening braces followed by anything but the namespace and a brace is passed over. */
  lemma ReadsOtherReference(body: string)
    requires NoBraces(body) && !(NAMESPACE <= body)
    ensures Reads(OPEN + body + CLOSE, [])
  {
    hide Scan, Inert, NoBraces;
    forall rest: string ensures Scan(OPEN + body + CLOSE + rest) == [] + Scan(rest) {
      var tail := "{" + body + CLOSE;
      var text := OPEN + body + CLOSE + rest;
      assert text[1..] == tail + rest;
      NoMarkAt(body, rest);
      ScanSkips(text);
      BracedBodyIsInert(body);
      ScanPastInert(tail, rest);
    }
  }

  lemma NamespaceInBody(body: string, rest: string)
    requires NoBraces(body) && !(NAMESPACE <= body)
    ensures !(NAMESPACE <= body + (CLOSE + rest))
  {
    var text := body + (CLOSE + rest);
    if |body| < 7 {
      assert text[|body|] == '}' != NAMESPACE[|body|];
    } else {
      assert text[..7] == body[..7];
    }
  }

  lemma MarkHoldsNamespace(text: string)
    requires |text| >= 2
    ensures MARK <= text ==> NAMESPACE <= text[2..]
  {
    if MARK <= text {
      assert forall i | 0 <= i < 7 :: text[2..][i] == text[2 + i] == MARK[2 + i] == NAMESPACE[i];
      assert NAMESPACE <= text[2..];
    }
  }

  lemma FirstMarkSkips(text: string)
    requires text != [] && !(MARK <= text)
    ensures FirstMark(text).Some? == FirstMark(text[1..]).Some?
    ensures FirstMark(text).Some? ==> FirstMark(text).value == Shift(FirstMark(text[1..]).value, 1)
  {
    var rest := text[1..];
    var mark := Find(rest, MARK);
    assert Find(text, MARK).Some? == mark.Some?;
    if mark.Some? {
      assert Find(text, MARK).value == mark.value + 1;
      assert text[mark.value + 1 + 9..] == rest[mark.value + 9..];
    }
    hide Find;
  }

  lemma ScanSkips(text: string)
    requires text != [] && !(MARK <= text)
    ensures Scan(text) == Scan(text[1..])
  {
    hide FirstMark;
    FirstMarkSkips(text);
    var rest := text[1..];
    if FirstMark(rest).Some? {
      var mark := FirstMark(rest).value;
      SliceOfDrop(text, 1, mark.open, mark.close);
      assert text[mark.close + 1 + 2..] == rest[mark.close + 2..];
    }
  }

  lemma SliceOfDrop(s: string, start: nat, lo: nat, hi: nat)
    requires lo <= hi && start + hi <= |s|
    ensures s[start + lo..start + hi] == s[start..][lo..hi]
  {
  }

  // Parts

  lemma EscapedReference(p: Part)
    requires p.Reference? && NameOk(p.variable)
    ensures EscapeAll(Print(p)) == OPEN + (EscapeAll(p.lead) + p.variable + EscapeAll(p.trail)) + CLOSE
  {
    hide EscapeAll;
    EscapeAllConcat(OPEN + (p.lead + p.variable + p.trail), CLOSE);
    EscapeAllConcat(OPEN, p.lead + p.variable + p.trail);
    EscapeAllConcat(p.lead + p.variable, p.trail);
    EscapeAllConcat(p.lead, p.variable);
    EscapeAllPlain(OPEN);
    EscapeAllPlain(CLOSE);
    EscapeAllPlain(p.variable);
  }

  lemma BlankHasNoBraces(s: string)
    requires Blank(s)
    ensures NoBraces(s)
  {
  }

  /** White space is escaped to itself or to a backslash and a letter. */
  lemma EscapedBlankStart(s: string)
    requires Blank(s) && s != []
    ensures EscapeAll(s) != [] && (EscapeAll(s)[0] == '\\' || IsSpace(EscapeAll(s)[0]))
  {
    EscapedStart(s[0]);
    var first := Escape(s[0]);
    hide Escape, IsSpace;
    assert EscapeAll(s) == first + EscapeAll(s[1..]);
    assert EscapeAll(s)[0] == first[0];
  }

  lemma EscapedStart(c: char)
    ensures Escape(c) != [] && (Escape(c)[0] == '\\' || Escape(c)[0] == c)
  {
  }

  lemma ReadsReference(p: Part)
    requires PartOk(p) && p.Reference? && NameOk(p.variable)
    ensures Reads(EscapeAll(Print(p)), ScannedOf(p))
  {
    hide EscapeAll, Reads, Print;
    EscapedReference(p);
    var lead, trail := EscapeAll(p.lead), EscapeAll(p.trail);
    BlankHasNoBraces(p.lead);
    BlankHasNoBraces(p.trail);
    EscapeAllBraces(p.lead);
    EscapeAllBraces(p.trail);
    EscapeAllPlain("");
    var body := lead + p.variable + trail;
    if p.lead == "" && NAMESPACE <= p.variable {
      var name := p.variable[7..] + trail;
      assert p.variable == NAMESPACE + p.variable[7..];
      assert OPEN + body + CLOSE == MARK + name + CLOSE;
      ReadsMark(name);
    } else {
      if p.lead != "" {
        EscapedBlankStart(p.lead);
        assert body[0] == lead[0];
      } else {
        assert body == p.variable + trail;
        NamespaceNeedsLetters(p.variable, p.trail);
      }
      ReadsOtherReference(body);
    }
  }

  /** Padding cannot complete a namespace: its first printed character is blank or a backslash. */
  lemma NamespaceNeedsLetters(v: string, trail: string)
    requires Blank(trail) && !(NAMESPACE <= v)
    ensures !(NAMESPACE <= v + EscapeAll(trail))
  {
    EscapeAllPlain("");
    if trail != "" {
      EscapedBlankStart(trail);
    }
    hide EscapeAll;
    var text := v + EscapeAll(trail);
    if |v| >= 7 {
      assert text[..7] == v[..7];
    } else if trail != "" {
      assert text[|v|] == EscapeAll(trail)[0] != NAMESPACE[|v|];
    } else {
      assert text == v;
    }
  }

  lemma {:induction false} ReadsParts(parts: seq<Part>)
    requires CleanParts(parts)
    ensures Reads(EscapeAll(PrintAll(parts)), ScannedIn(parts))
  {
    hide EscapeAll, Reads, Print, NameOk, Inert;
    if parts == [] {
      EscapeAllPlain("");
      NothingInert();
      ReadsInert("");
    } else {
      var p := parts[0];
      ReadsParts(parts[1..]);
      EscapeAllConcat(Print(p), PrintAll(parts[1..]));
      if p.Literal? {
        LiteralPrintsItself(p);
        EscapeAllBraces(p.text);
        BraceFreeIsInert(EscapeAll(p.text));
        ReadsInert(EscapeAll(p.text));
      } else {
        assert p in parts;
        ReadsReference(p);
      }
      ReadsThen(EscapeAll(Print(p)), ScannedOf(p), EscapeAll(PrintAll(parts[1..])), ScannedIn(parts[1..]));
    }
  }

  lemma NothingInert()
    ensures Inert("")
  {
  }

  lemma BraceFreeIsInert(t: string)
    requires NoBraces(t)
    ensures Inert(t)
  {
  }

  lemma ReadsQuoted(parts: seq<Part>)
    requires CleanParts(parts)
    ensures Reads(Quote(PrintAll(parts)), ScannedIn(parts))
  {
    hide EscapeAll, Reads, PrintAll, CleanParts, ScannedIn;
    ReadsParts(parts);
    BraceFreeIsInert("\"");
    ReadsInert("\"");
    var text, found := EscapeAll(PrintAll(parts)), ScannedIn(parts);
    ReadsThen("\"", [], text, found);
    ReadsThen("\"" + text, [] + found, "\"", []);
    assert [] + found + [] == found;
  }

  // Trees

  /** The scan of a printed tree reads its parts in order, and nothing else. */
  lemma {:induction false} ReadsTree(d: Doc)
    requires DocOk(d)
    ensures Reads(ToText(ToJson(d)), ScannedIn(AllParts(d)))
    decreases d, 1
  {
    hide Reads, Quote, PrintAll, CleanParts, NumberText;
    match d
    case Atom(v) =>
      AtomIsInert(v);
      ReadsInert(ToText(v));
    case Text(parts) => ReadsQuoted(parts);
    case List(docs) =>
      ReadsDocs(docs);
      Enclose("[", ItemsToText(ToItems(docs)), ScannedIn(PartsOfDocs(docs)), "]");
    case Table(entries) =>
      ReadsEntries(entries);
      var text, found := FieldsToText(ToFields(entries)), ScannedIn(PartsOfEntries(entries));
      EntriesOpenWithQuote(entries);
      Close(text, found, "}");
      assert (text + "}")[0] != '{';
      ReadsAfterBrace(text + "}", found);
      assert "{" + text + "}" == "{" + (text + "}");
  }

  lemma AtomIsInert(v: Json)
    requires v.Null? || v.Bool? || (v.Num? && NumberText(v.digits))
    ensures Inert(ToText(v))
  {
  }

  lemma EntriesOpenWithQuote(entries: seq<Entry>)
    ensures entries != [] ==> FieldsToText(ToFields(entries)) != [] && FieldsToText(ToFields(entries))[0] == '"'
    ensures entries == [] ==> FieldsToText(ToFields(entries)) == []
  {
    hide EscapeAll, ToText, PrintAll;
  }

  lemma Close(text: string, found: seq<string>, close: string)
    requires Reads(text, found) && (close == "]" || close == "}" || close == "," || close == ":")
    ensures Reads(text + close, found)
  {
    hide Reads;
    assert Inert(close);
    ReadsInert(close);
    ReadsThen(text, found, close, []);
    assert found + [] == found;
  }

  lemma Enclose(open: string, text: string, found: seq<string>, close: string)
    requires Reads(text, found) && open == "[" && close == "]"
    ensures Reads(open + text + close, found)
  {
    hide Reads;
    assert Inert(open);
    ReadsInert(open);
    ReadsThen(open, [], text, found);
    assert [] + found == found;
    Close(open + text, found, close);
  }

  lemma {:induction false} ReadsDocs(docs: seq<Doc>)
    requires forall d <- docs :: DocOk(d)
    ensures Reads(ItemsToText(ToItems(docs)), ScannedIn(PartsOfDocs(docs)))
    decreases docs, 0
  {
    hide Reads, Inert, ToText, ToJson, ScannedIn, AllParts;
    if docs == [] {
      NothingInert();
      ReadsInert("");
      assert ScannedIn([]) == [] by { NothingScanned(); }
    } else {
      var items := ToItems(docs);
      ReadsTree(docs[0]);
      ReadsDocs(docs[1..]);
      var head, rest := ToText(items[0]), ItemsToText(items[1..]);
      var f, g := ScannedIn(AllParts(docs[0])), ScannedIn(PartsOfDocs(docs[1..]));
      ScannedConcat(AllParts(docs[0]), PartsOfDocs(docs[1..]));
      assert items[1..] == ToItems(docs[1..]);
      if |docs| == 1 {
        assert PartsOfDocs(docs[1..]) == [];
        NothingScanned();
        assert head + "" == head && f + [] == f;
      } else {
        Close(head, f, ",");
        ReadsThen(head + ",", f, rest, g);
        assert head + ("," + rest) == head + "," + rest;
      }
    }
  }

  lemma NothingScanned()
    ensures ScannedIn([]) == []
  {
  }

  lemma {:induction false} ReadsEntries(entries: seq<Entry>)
    requires EntriesOk(entries)
    ensures Reads(FieldsToText(ToFields(entries)), ScannedIn(PartsOfEntries(entries)))
    decreases entries, 0
  {
    hide Reads, Inert, ToText, ToJson, ScannedIn, AllParts, Quote, PrintAll, CleanParts;
    if entries == [] {
      NothingInert();
      ReadsInert("");
      NothingScanned();
    } else {
      var fields, e := ToFields(entries), entries[0];
      assert fields[1..] == ToFields(entries[1..]);
      ReadsQuoted(e.key);
      ReadsTree(e.value);
      ReadsEntries(entries[1..]);
      var key, value, rest := Quote(fields[0].key), ToText(fields[0].value), FieldsToText(fields[1..]);
      var f, g, h := ScannedIn(e.key), ScannedIn(AllParts(e.value)), ScannedIn(PartsOfEntries(entries[1..]));
      ScannedConcat(e.key + AllParts(e.value), PartsOfEntries(entries[1..]));
      ScannedConcat(e.key, AllParts(e.value));
      Close(key, f, ":");
      ReadsThen(key + ":", f, value, g);
      if |entries| == 1 {
        assert PartsOfEntries(entries[1..]) == [];
        NothingScanned();
        assert key + ":" + value + "" == key + ":" + value && f + g + [] == f + g;
      } else {
        Close(key + ":" + value, f + g, ",");
        ReadsThen(key + ":" + value + ",", f + g, rest, h);
        assert key + ":" + value + ("," + rest) == key + ":" + value + "," + rest;
      }
    }
  }

  /** What `load_secrets` reads off a printed tree. */
  lemma ScanOfTree(d: Doc)
    requires DocOk(d)
    ensures Scan(ToText(ToJson(d))) == ScannedIn(AllParts(d))
  {
    hide Scan, ToText, ToJson, ScannedIn, AllParts, DocOk;
    ReadsTree(d);
    var text := ToText(ToJson(d));
    assert text + "" == text;
    assert Scan("") == [] by { NothingToScan(); }
    assert ScannedIn(AllParts(d)) + [] == ScannedIn(AllParts(d));
    assert Scan(text + "") == ScannedIn(AllParts(d)) + Scan("");
  }

  lemma NothingToScan()
    ensures Scan("") == []
  {
  }

  // Sufficiency

  lemma {:induction false} ReferencesConcat(a: seq<Part>, b: seq<Part>)
    ensures References(a + b) == References(a) + References(b)
  {
    if a == [] {
      assert a + b == b;
    } else {
      assert (a + b)[1..] == a[1..] + b;
      ReferencesConcat(a[1..], b);
    }
  }

  /** The variables of a printed tree are the references of its parts. */
  lemma {:induction false} VariablesOfTree(d: Doc)
    requires DocOk(d)
    ensures Variables(ToJson(d)) == References(AllParts(d))
    decreases d, 1
  {
    hide VariablesOfString, References, PrintAll, PartsOk, NumberText;
    match d
    case Atom(v) => assert References([]) == [] by { NothingReferenced(); }
    case Text(parts) => PrintThenResolve(parts, v => Success(Null));
    case List(docs) => VariablesOfDocs(docs);
    case Table(entries) => VariablesOfEntries(entries);
  }

  lemma NothingReferenced()
    ensures References([]) == []
  {
  }

  lemma {:induction false} VariablesOfDocs(docs: seq<Doc>)
    requires forall d <- docs :: DocOk(d)
    ensures VariablesOfItems(ToItems(docs)) == References(PartsOfDocs(docs))
    decreases docs, 0
  {
    hide References, DocOk, Variables, AllParts, ToJson;
    if docs == [] {
      NothingReferenced();
    } else {
      VariablesOfTree(docs[0]);
      VariablesOfDocs(docs[1..]);
      ReferencesConcat(AllParts(docs[0]), PartsOfDocs(docs[1..]));
      assert ToItems(docs)[1..] == ToItems(docs[1..]);
    }
  }

  lemma {:induction false} VariablesOfEntries(entries: seq<Entry>)
    requires EntriesOk(entries)
    ensures VariablesOfFields(ToFields(entries)) == References(PartsOfEntries(entries))
    decreases entries, 0
  {
    hide References, DocOk, Variables, AllParts, ToJson, VariablesOfString, PrintAll, PartsOk;
    if entries == [] {
      NothingReferenced();
    } else {
      var e := entries[0];
      PrintThenResolve(e.key, v => Success(Null));
      VariablesOfTree(e.value);
      VariablesOfEntries(entries[1..]);
      ReferencesConcat(e.key + AllParts(e.value), PartsOfEntries(entries[1..]));
      ReferencesConcat(e.key, AllParts(e.value));
      assert ToFields(entries)[1..] == ToFields(entries[1..]);
    }
  }

  ghost predicate IsReferenceTo(p: Part, v: string) {
    p.Reference? && p.variable == v
  }

  ghost predicate Unpadded(p: Part) {
    p.Reference? && p.lead == "" && p.trail == ""
  }

  /** Every secret the parts mention is mentioned at least once with nothing but its name
      between the braces. */
  ghost predicate SecretsUnpadded(parts: seq<Part>) {
    forall p <- parts | p.Reference? && NAMESPACE <= p.variable ::
      exists q <- parts :: IsReferenceTo(q, p.variable) && Unpadded(q)
  }

  lemma {:induction false} ReferenceIn(parts: seq<Part>, v: string)
    ensures v in References(parts) <==> exists p <- parts :: IsReferenceTo(p, v)
  {
    if parts != [] {
      ReferenceIn(parts[1..], v);
      assert v in References(parts) <==> IsReferenceTo(parts[0], v) || v in References(parts[1..]);
      hide IsReferenceTo;
      assert parts == [parts[0]] + parts[1..];
    }
  }

  lemma {:induction false} ScannedFrom(parts: seq<Part>, n: string)
    ensures n in ScannedIn(parts) <==> exists p <- parts :: n in ScannedOf(p)
  {
    hide ScannedOf;
    if parts != [] {
      ScannedFrom(parts[1..], n);
      assert parts == [parts[0]] + parts[1..];
    }
  }

  lemma {:induction false} PartsAreOk(parts: seq<Part>, p: Part)
    requires PartsOk(parts) && p in parts
    ensures PartOk(p)
  {
    hide PartOk;
    if p != parts[0] {
      PartsAreOk(parts[1..], p);
    }
  }

  /** A name with escaped padding after it is not a clean name. */
  lemma PaddedIsNotClean(name: string, trail: string)
    requires Blank(trail) && trail != ""
    ensures !NameOk(name + EscapeAll(trail))
  {
    EscapedBlankStart(trail);
    assert NeedsEscape('\\');
    hide EscapeAll, IsSpace;
    assert (name + EscapeAll(trail))[|name|] == EscapeAll(trail)[0];
  }

  /** A scanned name is the clean name of a secret only if it was read off an unpadded reference. */
  lemma CleanScanIsUnpadded(q: Part, v: string)
    requires PartOk(q) && NameOk(v) && NAMESPACE <= v && v[7..] in ScannedOf(q)
    ensures IsReferenceTo(q, v) && Unpadded(q)
  {
    hide EscapeAll, Blank, NameOk, NoBraces;
    EscapeAllPlain("");
    var a, escaped := q.variable[7..], EscapeAll(q.trail);
    assert v[7..] == a + escaped;
    assert v == NAMESPACE + v[7..] && q.variable == NAMESPACE + a;
    assert NAMESPACE + (a + escaped) == (NAMESPACE + a) + escaped;
    if q.trail != "" {
      PaddedIsNotClean(q.variable, q.trail);
    }
  }

  /** A clean name is scanned exactly when some reference to it is unpadded. */
  lemma ScannedExactly(parts: seq<Part>, v: string)
    requires PartsOk(parts) && NameOk(v) && NAMESPACE <= v
    ensures v[7..] in ScannedIn(parts) <==> exists q <- parts :: IsReferenceTo(q, v) && Unpadded(q)
  {
    ScannedFrom(parts, v[7..]);
    EscapeAllPlain("");
    hide EscapeAll, PartOk, NameOk, PartsOk;
    if v[7..] in ScannedIn(parts) {
      var q :| q in parts && v[7..] in ScannedOf(q);
      PartsAreOk(parts, q);
      CleanScanIsUnpadded(q, v);
    }
    forall q <- parts | IsReferenceTo(q, v) && Unpadded(q) ensures v[7..] in ScannedOf(q) {
      assert v[7..] + EscapeAll("") == v[7..];
    }
  }

  ghost function Loaded(env: Env, text: string): Env {
    env.(secrets := Restrict(env.secrets, Scan(text)))
  }

  /** Loading changes only the names of secrets that were not scanned. */
  lemma LoadedNames(env: Env, text: string, v: string)
    ensures NamesOf(Loaded(env, text))(v) ==
            if NAMESPACE <= v && v[7..] !in Scan(text) then Failure(Unresolved(v)) else NamesOf(env)(v)
  {
    hide Scan;
    var scanned := Scan(text);
    if NAMESPACE <= v {
      assert v[0] == 's' && v[1] == 'e' && v[2] == 'c';
      assert "input."[0] == 'i' && "config."[0] == 'c';
    }
  }

  lemma {:induction false} TreeIsClean(d: Doc)
    requires DocOk(d)
    ensures CleanParts(AllParts(d))
    decreases d, 1
  {
    hide PartOk, NameOk, NumberText;
    match d
    case Atom(_) =>
    case Text(_) =>
    case List(docs) => DocsAreClean(docs);
    case Table(entries) => EntriesAreClean(entries);
  }

  lemma {:induction false} CleanConcat(a: seq<Part>, b: seq<Part>)
    requires CleanParts(a) && CleanParts(b)
    ensures CleanParts(a + b)
  {
    hide PartOk, NameOk;
    if a == [] {
      assert a + b == b;
    } else {
      assert (a + b)[1..] == a[1..] + b;
      CleanConcat(a[1..], b);
    }
  }

  lemma {:induction false} DocsAreClean(docs: seq<Doc>)
    requires forall d <- docs :: DocOk(d)
    ensures CleanParts(PartsOfDocs(docs))
    decreases docs, 0
  {
    if docs != [] {
      TreeIsClean(docs[0]);
      DocsAreClean(docs[1..]);
      hide CleanParts, DocOk, AllParts;
      CleanConcat(AllParts(docs[0]), PartsOfDocs(docs[1..]));
    }
  }

  lemma {:induction false} EntriesAreClean(entries: seq<Entry>)
    requires EntriesOk(entries)
    ensures CleanParts(PartsOfEntries(entries))
    decreases entries, 0
  {
    if entries != [] {
      TreeIsClean(entries[0].value);
      EntriesAreClean(entries[1..]);
      hide CleanParts, DocOk, AllParts;
      CleanConcat(entries[0].key, AllParts(entries[0].value));
      CleanConcat(entries[0].key + AllParts(entries[0].value), PartsOfEntries(entries[1..]));
    }
  }

  /** When the whole store resolves the spec, the stored secrets among the scanned names
      resolve it to the same value exactly if every secret occurs somewhere without padding. */
  lemma LoadedResolveExactly(d: Doc, env: Env)
    requires DocOk(d) && Resolve(ToJson(d), NamesOf(env)).Success?
    ensures Resolve(ToJson(d), NamesOf(Loaded(env, ToText(ToJson(d))))) == Resolve(ToJson(d), NamesOf(env))
            <==> SecretsUnpadded(AllParts(d))
  {
    hide Resolve, ToJson, ToText, Scan, AllParts, DocOk, NamesOf, Loaded, ScannedIn, PartsOk, NameOk;
    var parts, text := AllParts(d), ToText(ToJson(d));
    var full, some := NamesOf(env), NamesOf(Loaded(env, text));
    ScanOfTree(d);
    VariablesOfTree(d);
    TreeIsClean(d);
    ResolvesIffAllBound(ToJson(d), full);
    ResolvesIffAllBound(ToJson(d), some);
    forall v ensures some(v) == if NAMESPACE <= v && v[7..] !in Scan(text) then Failure(Unresolved(v)) else full(v) {
      LoadedNames(env, text, v);
    }
    forall p <- parts | p.Reference? && NAMESPACE <= p.variable
      ensures p.variable in Variables(ToJson(d))
      ensures p.variable[7..] in Scan(text) <==> exists q <- parts :: IsReferenceTo(q, p.variable) && Unpadded(q)
    {
      ReferenceIn(parts, p.variable);
      assert IsReferenceTo(p, p.variable);
      ScannedExactly(parts, p.variable);
    }
    if SecretsUnpadded(parts) {
      forall v <- Variables(ToJson(d)) ensures full(v) == some(v) {
        ReferenceIn(parts, v);
        var p :| p in parts && IsReferenceTo(p, v);
      }
      ResolveAgrees(ToJson(d), full, some);
    } else {
      var p :| p in parts && p.Reference? && NAMESPACE <= p.variable
            && !exists q <- parts :: IsReferenceTo(q, p.variable) && Unpadded(q);
      assert some(p.variable).Failure?;
    }
  }

  /** Every name the scan reads off the parts is stored.  Padding before the closing braces
      becomes part of such a name. */
  ghost predicate ScannedStored(parts: seq<Part>, store: map<string, string>) {
    forall p <- parts, n <- ScannedOf(p) :: n in store
  }

  lemma LoadSucceedsExactly(d: Doc, store: map<string, string>)
    requires DocOk(d)
    ensures FirstMissing(store, Scan(ToText(ToJson(d)))) == None <==> ScannedStored(AllParts(d), store)
  {
    hide ToJson, ToText, Scan, AllParts, DocOk, ScannedOf, FirstMissing;
    var parts, scanned := AllParts(d), Scan(ToText(ToJson(d)));
    ScanOfTree(d);
    forall n ensures n in scanned <==> exists p <- parts :: n in ScannedOf(p) {
      ScannedFrom(parts, n);
    }
    hide ScannedIn;
    if FirstMissing(store, scanned) == None {
      NoneMissingMeans(store, scanned);
    }
    if ScannedStored(parts, store) {
      NoneMissing(store, scanned);
    }
  }

  /** For a spec that the whole store resolves, loading the scanned secrets succeeds and
      resolves it to the same value, if and only if every secret is mentioned unpadded at
      least once and every name the scan reads is stored. */
  lemma SufficientExactly(d: Doc, env: Env)
    requires DocOk(d) && Resolve(ToJson(d), NamesOf(env)).Success?
    ensures var text := ToText(ToJson(d));
            (FirstMissing(env.secrets, Scan(text)) == None
             && Resolve(ToJson(d), NamesOf(Loaded(env, text))) == Resolve(ToJson(d), NamesOf(env)))
            <==> SecretsUnpadded(AllParts(d)) && ScannedStored(AllParts(d), env.secrets)
  {
    hide *;
    LoadSucceedsExactly(d, env.secrets);
    LoadedResolveExactly(d, env);
  }

  /** With unpadded references to stored secrets, the load succeeds and nothing is missing. */
  lemma UnpaddedSuffices(d: Doc, env: Env)
    requires DocOk(d)
    requires forall p <- AllParts(d) | p.Reference? && NAMESPACE <= p.variable ::
               Unpadded(p) && p.variable[7..] in env.secrets
    ensures FirstMissing(env.secrets, Scan(ToText(ToJson(d)))) == None
    ensures Resolve(ToJson(d), NamesOf(Loaded(env, ToText(ToJson(d))))) == Resolve(ToJson(d), NamesOf(env))
  {
    hide Resolve, ToJson, ToText, Scan, AllParts, DocOk, NamesOf, Loaded, ScannedIn, PartsOk, NameOk;
    var parts, text := AllParts(d), ToText(ToJson(d));
    var full, some := NamesOf(env), NamesOf(Loaded(env, text));
    ScanOfTree(d);
    VariablesOfTree(d);
    TreeIsClean(d);
    forall n <- Scan(text) ensures n in env.secrets {
      ScannedFrom(parts, n);
      var q :| q in parts && n in ScannedOf(q);
      EscapeAllPlain("");
      assert n == q.variable[7..] + EscapeAll("") == q.variable[7..];
    }
    NoneMissing(env.secrets, Scan(text));
    forall v <- Variables(ToJson(d)) ensures full(v) == some(v) {
      ReferenceIn(parts, v);
      var p :| p in parts && IsReferenceTo(p, v);
      LoadedNames(env, text, v);
      if NAMESPACE <= v {
        ScannedExactly(parts, v);
      }
    }
    ResolveAgrees(ToJson(d), full, some);
  }

  const PADDED := Reference(" ", "secret.k", " ")

  lemma PaddedIsClean()
    ensures PartOk(PADDED) && NameOk(PADDED.variable) && PADDED.variable[7..] == "k" && NAMESPACE <= PADDED.variable
  {
    var v := "secret.k";
    assert v[0] == 's' && v[1] == 'e' && v[2] == 'c' && v[3] == 'r' && v[4] == 'e' && v[5] == 't' && v[6] == '.' && v[7] == 'k';
  }

  lemma PaddedDoc()
    ensures DocOk(Text([PADDED])) && PartsOk([PADDED]) && Lone([PADDED]) == Some(PADDED.variable)
    ensures PrintAll([PADDED]) == Print(PADDED) && ScannedIn([PADDED]) == []
  {
    PaddedIsClean();
    hide PartOk, NameOk, Print;
    var parts := [PADDED];
    assert parts[1..] == [];
    assert PartsOk(parts[1..]) && PartsOk(parts);
    assert forall p <- parts :: p == PADDED;
    assert CleanParts(parts);
    assert Print(PADDED) + "" == Print(PADDED);
  }

  /** A space after the opening braces hides a secret from the scan but not from the resolver:
      `{{ secret.k }}` resolves against the store and not against what was loaded. */
  lemma PaddedSecretIsMissed(env: Env)
    requires "k" in env.secrets
    ensures var spec := Str(Print(PADDED));
            && Print(PADDED) == "{{ secret.k }}"
            && Resolve(spec, NamesOf(env)) == Success(Str(env.secrets["k"]))
            && FirstMissing(env.secrets, Scan(ToText(spec))) == None
            && Resolve(spec, NamesOf(Loaded(env, ToText(spec)))) == Failure(Unresolved("secret.k"))
  {
    PaddedDoc();
    PaddedIsClean();
    var d := Text([PADDED]);
    ScanOfTree(d);
    assert Print(PADDED) == "{{ secret.k }}";
    hide Scan, ToText, Lone, SingleTemplate, Render, Find, FirstHole, DocOk, PartsOk, NameOk, PartOk, Print, ScannedIn;
    LoadedNames(env, ToText(ToJson(d)), PADDED.variable);
    SecretLookup(env, PADDED.variable);
    hide NamesOf, Loaded;
    PrintThenResolve([PADDED], NamesOf(env));
    PrintThenResolve([PADDED], NamesOf(Loaded(env, ToText(ToJson(d)))));
  }

  const PLAIN := Reference("", "secret.k", "")

  const TRAILING := Reference("", "secret.k", " ")

  lemma OneReference(p: Part)
    requires p.Reference?
    ensures References([p]) == [p.variable] && ScannedIn([p]) == ScannedOf(p) && PrintAll([p]) == Print(p)
  {
    hide ScannedOf, Print;
    assert [p][1..] == [];
    assert PrintAll([]) == "" && ScannedIn([]) == [] && References([]) == [];
    assert Print(p) + "" == Print(p);
  }

  /** Two references in a row. */
  lemma TwoReferences(a: Part, b: Part)
    requires a.Reference? && b.Reference? && PartOk(a) && PartOk(b) && NameOk(a.variable) && NameOk(b.variable)
    ensures DocOk(Text([a, b])) && References([a, b]) == [a.variable, b.variable]
    ensures ScannedIn([a, b]) == ScannedOf(a) + ScannedOf(b) && PrintAll([a, b]) == Print(a) + Print(b)
  {
    hide PartOk, NameOk, ScannedOf, Print;
    var parts := [a, b];
    assert parts[1..] == [b] && [b][1..] == [];
    assert PartsOk([b][1..]) && PartsOk([b]) && PartsOk(parts);
    OneReference(b);
    assert forall p <- parts :: p == a || p == b;
    assert CleanParts(parts);
  }

  lemma TrailingScan()
    ensures PartOk(PLAIN) && PartOk(TRAILING) && ScannedOf(PLAIN) == ["k"] && ScannedOf(TRAILING) == ["k "]
    ensures Print(PLAIN) + Print(TRAILING) == "{{secret.k}}{{secret.k }}"
  {
    PaddedIsClean();
    assert PLAIN.variable[7..] == "k";
    EscapeAllPlain("");
    assert " "[1..] == "" && EscapeAll(" ") == " " + EscapeAll("");
    assert TRAILING.variable[7..] + EscapeAll(" ") == "k" + " ";
    hide EscapeAll, PartOk;
    assert "k" + "" == "k" && "k" + " " == "k ";
  }

  /** A space before the closing braces makes another name of the secret for the scan: next to
      an unpadded mention of it, the whole store resolves the spec and the load still fails. */
  lemma TrailingSpaceFailsTheLoad(env: Env)
    requires "k" in env.secrets && "k " !in env.secrets
    ensures var parts := [PLAIN, TRAILING];
            var spec := Str(PrintAll(parts));
            && PrintAll(parts) == "{{secret.k}}{{secret.k }}" && SecretsUnpadded(parts)
            && Resolve(spec, NamesOf(env)).Success?
            && FirstMissing(env.secrets, Scan(ToText(spec))) == Some("k ")
  {
    PaddedIsClean();
    TrailingScan();
    hide NameOk, PartOk, Print, Scan, ToText, ScannedOf, References, PrintAll, DocOk, NamesOf, Resolve, FirstMissing;
    TwoReferences(PLAIN, TRAILING);
    MentionedTwice(PLAIN, TRAILING, env);
    assert [PLAIN, TRAILING][0] == PLAIN;
    assert IsReferenceTo(PLAIN, "secret.k") && Unpadded(PLAIN);
  }

  lemma MentionedTwice(a: Part, b: Part, env: Env)
    requires a.Reference? && b.Reference? && PartOk(a) && PartOk(b) && NameOk(a.variable) && b.variable == a.variable
    requires NAMESPACE <= a.variable && a.variable[7..] in env.secrets
    requires |ScannedOf(a)| == 1 && ScannedOf(a)[0] in env.secrets && |ScannedOf(b)| == 1 && ScannedOf(b)[0] !in env.secrets
    ensures Resolve(Str(PrintAll([a, b])), NamesOf(env)).Success?
    ensures FirstMissing(env.secrets, Scan(ToText(Str(PrintAll([a, b]))))) == Some(ScannedOf(b)[0])
  {
    var d := Text([a, b]);
    TwoReferences(a, b);
    assert AllParts(d) == [a, b] && ToJson(d) == Str(PrintAll([a, b]));
    hide NameOk, PartOk, Scan, ToText, ScannedOf, ScannedIn, References, PrintAll, DocOk, Resolve, Variables, ToJson, AllParts;
    ScanOfTree(d);
    assert ScannedOf(a) + ScannedOf(b) == [ScannedOf(a)[0]] + [ScannedOf(b)[0]] + [];
    MissingIsFirst(env.secrets, [ScannedOf(a)[0]], ScannedOf(b)[0], []);
    SecretLookup(env, a.variable);
    hide NamesOf, FirstMissing;
    VariablesOfTree(d);
    ResolvesIffAllBound(ToJson(d), NamesOf(env));
  }

  lemma SecretLookup(env: Env, v: string)
    requires NAMESPACE <= v && v[7..] in env.secrets
    ensures NamesOf(env)(v) == Success(Str(env.secrets[v[7..]]))
  {
    assert v[0] == 's' && v[1] == 'e';
    assert "input."[0] == 'i' && "config."[0] == 'c';
  }
}
