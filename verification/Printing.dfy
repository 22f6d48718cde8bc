/** Templates written out from their parts, and what the resolver makes of them. */
module Printing {
  import opened Wrappers
  import opened Text
  import opened Template
  import opened TemplateLaws

  import J = Json

  /** A stretch of text, or a reference with whatever padding stands inside its braces. */
  datatype Part =
    | Literal(text: string)
    | Reference(lead: string, variable: string, trail: string)

  /** Literals and names are free of braces, padding is white space, names have none at their ends. */
  ghost predicate PartOk(p: Part) {
    match p
    case Literal(text) => NoBraces(text)
    case Reference(lead, v, trail) =>
      && Blank(lead) && Blank(trail) && NoBraces(v)
      && (v != [] ==> !IsSpace(v[0]) && !IsSpace(v[|v| - 1]))
  }

  ghost predicate PartsOk(parts: seq<Part>) {
    parts == [] || (PartOk(parts[0]) && PartsOk(parts[1..]))
  }

  function Print(p: Part): string {
    match p
    case Literal(text) => text
    case Reference(lead, v, trail) => OPEN + (lead + v + trail) + CLOSE
  }

  function PrintAll(parts: seq<Part>): string {
    if parts == [] then "" else Print(parts[0]) + PrintAll(parts[1..])
  }

  /** The names the parts refer to, in order. */
  function References(parts: seq<Part>): seq<string> {
    if parts == [] then []
    else (if parts[0].Reference? then [parts[0].variable] else []) + References(parts[1..])
  }

  function LiteralText(parts: seq<Part>): string {
    if parts == [] then ""
    else (if parts[0].Literal? then parts[0].text else "") + LiteralText(parts[1..])
  }

  /** The reading a template's author has in mind: every part replaced by its own text. */
  function Substitute(parts: seq<Part>, names: Names): Result<string, ResolveError> {
    if parts == [] then Success("")
    else
      match parts[0]
      case Literal(text) => Prepend(text, Substitute(parts[1..], names))
      case Reference(_, v, _) =>
        if names(v).Failure? then Failure(names(v).error)
        else Prepend(Inline(names(v).value), Substitute(parts[1..], names))
  }

  ghost predicate BlankLiterals(parts: seq<Part>) {
    parts == [] || (parts[0].Literal? && Blank(parts[0].text) && BlankLiterals(parts[1..]))
  }

  /** The name, when the parts are one reference among blank literals. */
  ghost function Lone(parts: seq<Part>): Option<string> {
    if parts == [] then None
    else
      match parts[0]
      case Literal(text) => if Blank(text) then Lone(parts[1..]) else None
      case Reference(_, v, _) => if BlankLiterals(parts[1..]) then Some(v) else None
  }

  // Finding references in printed text

  lemma {:induction false} FindPast(t: string, s: string, p: string)
    requires p != [] && forall i | 0 <= i < |t| :: t[i] != p[0]
    ensures Find(t + s, p) == (if Find(s, p).None? then None else Some(|t| + Find(s, p).value))
  {
    if t == [] {
      assert t + s == s;
    } else {
      assert (t + s)[1..] == t[1..] + s && (t + s)[0] == t[0];
      FindPast(t[1..], s, p);
    }
  }

  lemma HolePastLiteral(t: string, s: string)
    requires NoBraces(t)
    ensures FirstHole(t + s).Some? == FirstHole(s).Some?
    ensures FirstHole(s).Some? ==>
              && FirstHole(t + s).value == Shift(FirstHole(s).value, |t|)
              && HoleName(t + s, FirstHole(t + s).value) == HoleName(s, FirstHole(s).value)
  {
    hide Find, HoleName;
    FindPast(t, s, OPEN);
    if Find(s, OPEN).Some? {
      DropOfConcat(t, s, Find(s, OPEN).value);
      if FirstHole(s).Some? {
        NameOfShifted(t, s, FirstHole(s).value);
      }
    }
  }

  lemma HolesPastLiteral(t: string, s: string)
    requires NoBraces(t)
    ensures Holes(t + s) == Holes(s)
  {
    hide FirstHole, HoleName, Find;
    HolePastLiteral(t, s);
    var hole := FirstHole(s);
    if hole.Some? {
      DropOfConcat(t, s, hole.value.close + 2);
    }
  }

  lemma RenderWithout(s: string, names: Names)
    requires FirstHole(s).None?
    ensures Render(s, names) == Success(s)
  {
    hide FirstHole;
  }

  lemma RenderPastLiteral(t: string, s: string, names: Names)
    requires NoBraces(t)
    ensures Render(t + s, names) == Prepend(t, Render(s, names))
  {
    hide FirstHole, HoleName, Inline, Find, Render, NoBraces, Prepend;
    HolePastLiteral(t, s);
    if FirstHole(s).Some? {
      var hole := FirstHole(s).value;
      RenderStep(s, names, hole);
      RenderStep(t + s, names, FirstHole(t + s).value);
      DropOfConcat(t, s, hole.close + 2);
      DropOfConcat(t, s, hole.open);
      var value := names(HoleName(s, hole));
      if value.Success? {
        PrependTwice(t, s[..hole.open] + Inline(value.value), Render(s[hole.close + 2..], names));
        assert t + (s[..hole.open] + Inline(value.value)) == (t + s[..hole.open]) + Inline(value.value);
      } else {
        PrependOutcome(t, Render(s, names));
      }
    } else {
      RenderWithout(s, names);
      RenderWithout(t + s, names);
      PrependOutcome(t, Render(s, names));
    }
  }

  lemma PrependOutcome(t: string, r: Result<string, ResolveError>)
    ensures Prepend(t, r) == if r.Success? then Success(t + r.value) else r
  {
  }

  lemma HoleOfReference(p: Part, s: string)
    requires PartOk(p) && p.Reference?
    ensures FirstHole(Print(p) + s).Some?
    ensures var hole := FirstHole(Print(p) + s).value;
            && hole == Hole(0, |Print(p)| - 2)
            && HoleName(Print(p) + s, hole) == p.variable
            && (Print(p) + s)[hole.close + 2..] == s
  {
    hide Trim;
    var body := p.lead + p.variable + p.trail;
    var text := Print(p) + s;
    assert OPEN <= text;
    assert Find(text, OPEN) == Some(0);
    assert text == (OPEN + body) + (CLOSE + s);
    FindPast(OPEN + body, CLOSE + s, CLOSE);
    assert CLOSE <= CLOSE + s;
    assert text[0..] == text;
    assert text[2..|body| + 2] == body;
    TrimPadded(p.lead, p.variable, p.trail);
  }

  /** The loop, on printed parts, finds exactly their references and substitutes them. */
  lemma {:induction false} RenderPrinted(parts: seq<Part>, names: Names)
    requires PartsOk(parts)
    ensures Render(PrintAll(parts), names) == Substitute(parts, names)
    ensures Holes(PrintAll(parts)) == References(parts)
  {
    hide FirstHole, HoleName, Inline, Find, Print, Trim;
    if parts == [] {
      NoHoleInNothing();
    } else {
      var p, rest := parts[0], PrintAll(parts[1..]);
      RenderPrinted(parts[1..], names);
      if p.Literal? {
        LiteralPrintsItself(p);
        RenderPastLiteral(p.text, rest, names);
        HolesPastLiteral(p.text, rest);
      } else {
        HoleOfReference(p, rest);
        RenderStep(Print(p) + rest, names, FirstHole(Print(p) + rest).value);
        assert (Print(p) + rest)[..0] == "";
        assert forall x: string :: "" + x == x;
      }
    }
  }

  lemma NoHoleInNothing()
    ensures FirstHole("").None?
  {
  }

  lemma LiteralPrintsItself(p: Part)
    requires p.Literal?
    ensures Print(p) == p.text
    ensures PartOk(p) ==> NoBraces(p.text)
  {
  }

  // The shortcut

  lemma TrimEndKeeps(a: string, s: string)
    requires a != [] && !IsSpace(a[|a| - 1])
    ensures a <= TrimEnd(a + s)
    decreases |s|
  {
    if s == [] {
      assert a + s == a;
    } else if IsSpace(s[|s| - 1]) {
      assert (a + s)[..|a + s| - 1] == a + s[..|s| - 1];
      TrimEndKeeps(a, s[..|s| - 1]);
    }
  }

  lemma TrimStartStops(a: string, s: string)
    requires !Blank(a)
    ensures TrimStart(a + s) == TrimStart(a) + s && TrimStart(a) != [] && !IsSpace(TrimStart(a)[0])
    ensures NoBraces(a) ==> NoBraces(TrimStart(a))
  {
    assert a != [];
    assert (a + s)[1..] == a[1..] + s;
    if IsSpace(a[0]) {
      TrimStartStops(a[1..], s);
    }
  }

  lemma FirstSurvivesTrimEnd(s: string)
    requires TrimEnd(s) != []
    ensures s != [] && TrimEnd(s)[0] == s[0]
  {
    var tail := TrimEndShape(s);
    hide TrimEnd;
  }

  /** Text that starts, blanks aside, with something other than a brace is no lone reference. */
  lemma NotSingleAfterText(t: string, s: string)
    requires NoBraces(t) && !Blank(t)
    ensures SingleTemplate(t + s).None?
  {
    TrimStartStops(t, s);
    hide TrimStart, Find;
    if Trim(t + s) != [] {
      FirstSurvivesTrimEnd(TrimStart(t) + s);
      assert Trim(t + s)[0] == TrimStart(t)[0];
    }
  }

  lemma SingleAfterBlank(t: string, s: string)
    requires Blank(t)
    ensures SingleTemplate(t + s) == SingleTemplate(s)
  {
    TrimStartBlank(t, s);
    hide TrimStart, TrimEnd, Find;
  }

  lemma OpenSurvivesTrim(s: string, i: nat)
    requires OccursAt(s, OPEN, i)
    ensures Find(Trim(s), OPEN).Some?
  {
    var head := TrimStartShape(s);
    var tail := TrimEndShape(TrimStart(s));
    hide TrimStart, TrimEnd, Find;
    var core := Trim(s);
    assert s == head + (core + tail);
    assert s[i] == s[i..][0] == '{' && s[i + 1] == s[i..][1] == '{';
    assert i >= |head|;
    assert s[|head| + (i - |head|)] == (core + tail)[i - |head|];
    assert s[|head| + (i + 1 - |head|)] == (core + tail)[i + 1 - |head|];
    assert i + 1 - |head| < |core|;
    assert core[i - |head|..][0] == '{' && core[i - |head|..][1] == '{';
    assert OccursAt(core, OPEN, i - |head|);
    FindFirst(core, OPEN);
  }

  lemma {:induction false} ReferenceFree(parts: seq<Part>)
    requires PartsOk(parts) && References(parts) == []
    ensures NoBraces(PrintAll(parts))
    ensures Blank(PrintAll(parts)) ==> BlankLiterals(parts)
  {
    if parts != [] {
      assert parts[0].Literal?;
      ReferenceFree(parts[1..]);
      var t, rest := parts[0].text, PrintAll(parts[1..]);
      assert PrintAll(parts) == t + rest;
      if Blank(t + rest) {
        assert forall i | 0 <= i < |t| :: t[i] == (t + rest)[i];
        assert forall i | 0 <= i < |rest| :: rest[i] == (t + rest)[|t| + i];
      }
    }
  }

  lemma {:induction false} BlankLiteralsPrintBlank(parts: seq<Part>)
    requires BlankLiterals(parts)
    ensures Blank(PrintAll(parts)) && References(parts) == []
  {
    if parts != [] {
      BlankLiteralsPrintBlank(parts[1..]);
    }
  }

  lemma {:induction false} SplitAtReference(parts: seq<Part>) returns (before: string, r: Part, after: string)
    requires PartsOk(parts) && References(parts) != []
    ensures r.Reference? && PartOk(r) && PrintAll(parts) == before + Print(r) + after
  {
    if parts[0].Reference? {
      before, r, after := "", parts[0], PrintAll(parts[1..]);
      assert "" + Print(r) == Print(r);
    } else {
      var b;
      b, r, after := SplitAtReference(parts[1..]);
      before := parts[0].text + b;
      assert parts[0].text + (b + Print(r) + after) == before + Print(r) + after;
    }
  }

  lemma SingleReference(r: Part, blank: string)
    requires PartOk(r) && r.Reference? && Blank(blank)
    ensures SingleTemplate(Print(r) + blank) == Some(r.variable)
  {
    var body := r.lead + r.variable + r.trail;
    var text := Print(r);
    assert text == OPEN + body + CLOSE;
    assert text[|text| - 2..] == CLOSE;
    assert text[2..|text| - 2] == body;
    assert TrimStart(text + blank) == text + blank by { assert (text + blank)[0] == '{'; }
    TrimEndBlank(text, blank);
    assert TrimEnd(text) == text by { assert text[|text| - 1] == '}'; }
    TrimPadded(r.lead, r.variable, r.trail);
    hide TrimStart, TrimEnd;
    assert Trim(text + blank) == text;
    FindPast(r.variable, "", OPEN);
    assert r.variable + "" == r.variable;
  }

  lemma LastOfTrimEnd(first: string, more: string)
    requires first != [] && !IsSpace(first[|first| - 1]) && !Blank(more) && NoBraces(more)
    ensures !EndsWith(TrimEnd(first + more), CLOSE)
  {
    var text := first + more;
    var tail := TrimEndShape(text);
    hide TrimEnd;
    var trimmed := TrimEnd(text);
    var i :| 0 <= i < |more| && !IsSpace(more[i]);
    assert text[|first| + i] == more[i];
    assert |first| + i < |trimmed|;
    assert trimmed[|trimmed| - 1] == text[|trimmed| - 1] == more[|trimmed| - 1 - |first|];
    assert |trimmed| >= 2 ==> trimmed[|trimmed| - 2..][1] == trimmed[|trimmed| - 1] != CLOSE[1];
  }

  lemma SecondReferenceStaysInside(first: string, before: string, second: string, after: string)
    requires OPEN <= first && OPEN <= second && |first| >= 4 && |second| >= 4
    requires second[|second| - 1] == '}'
    ensures var trimmed := TrimEnd(first + (before + second + after));
            && |trimmed| >= 4
            && Find(Trim(trimmed[2..|trimmed| - 2]), OPEN).Some?
  {
    var upto := first + before + second;
    assert first + (before + second + after) == upto + after;
    TrimEndKeeps(upto, after);
    hide TrimEnd, Find;
    var trimmed := TrimEnd(upto + after);
    var at := |first| + |before|;
    assert trimmed[at] == upto[at] == second[0] && trimmed[at + 1] == upto[at + 1] == second[1];
    var inside := trimmed[2..|trimmed| - 2];
    assert inside[at - 2] == '{' && inside[at - 1] == '{';
    assert inside[at - 2..][0] == '{' && inside[at - 2..][1] == '{';
    assert OccursAt(inside, OPEN, at - 2);
    OpenSurvivesTrim(inside, at - 2);
  }

  lemma PrintedReferenceShape(r: Part)
    requires r.Reference?
    ensures OPEN <= Print(r) && |Print(r)| >= 4 && Print(r)[|Print(r)| - 1] == '}'
  {
  }

  lemma TrimStartsAtBrace(s: string)
    requires OPEN <= s
    ensures TrimStart(s) == s
  {
    assert s[0] == '{';
  }

  /** A reference followed by more text than blanks is not taken for a lone one. */
  lemma NotSingleBeforeMore(r: Part, rest: seq<Part>)
    requires PartOk(r) && r.Reference? && PartsOk(rest) && !BlankLiterals(rest)
    ensures SingleTemplate(Print(r) + PrintAll(rest)).None?
  {
    hide TrimStart, TrimEnd, Find, PartOk, Print, PartsOk, PrintAll, BlankLiterals, NoBraces, Blank;
    PrintedReferenceShape(r);
    TrimStartsAtBrace(Print(r) + PrintAll(rest));
    if References(rest) == [] {
      ReferenceFree(rest);
      LastOfTrimEnd(Print(r), PrintAll(rest));
    } else {
      var before, r2, after := SplitAtReference(rest);
      PrintedReferenceShape(r2);
      SecondReferenceStaysInside(Print(r), before, Print(r2), after);
    }
  }

  /** The shortcut is taken for a single reference among blank literals, and for nothing else. */
  lemma {:induction false} ShortcutExactly(parts: seq<Part>)
    requires PartsOk(parts)
    ensures SingleTemplate(PrintAll(parts)) == Lone(parts)
  {
    hide SingleTemplate, Print, Blank;
    if parts == [] {
      NothingIsNotSingle();
    } else {
      var p, rest := parts[0], PrintAll(parts[1..]);
      if p.Literal? {
        LiteralPrintsItself(p);
        if Blank(p.text) {
          SingleAfterBlank(p.text, rest);
          ShortcutExactly(parts[1..]);
        } else {
          NotSingleAfterText(p.text, rest);
        }
      } else if BlankLiterals(parts[1..]) {
        BlankLiteralsPrintBlank(parts[1..]);
        SingleReference(p, rest);
      } else {
        NotSingleBeforeMore(p, parts[1..]);
      }
    }
  }

  lemma NothingIsNotSingle()
    ensures SingleTemplate("").None?
  {
  }

  // The two theorems

  lemma {:induction false} LoneReferences(parts: seq<Part>)
    requires Lone(parts).Some?
    ensures References(parts) == [Lone(parts).value]
  {
    if parts[0].Literal? {
      LoneReferences(parts[1..]);
    } else {
      BlankLiteralsPrintBlank(parts[1..]);
    }
  }

  /** A printed template is one raw value when it is a lone reference, and otherwise the
      string with every reference substituted; and its variables are its references. */
  lemma PrintThenResolve(parts: seq<Part>, names: Names)
    requires PartsOk(parts)
    ensures ResolveString(PrintAll(parts), names) ==
              match Lone(parts)
              case Some(v) => names(v)
              case None =>
                var text := Substitute(parts, names);
                if text.Success? then Success(J.Str(text.value)) else Failure(text.error)
    ensures VariablesOfString(PrintAll(parts)) == References(parts)
  {
    hide SingleTemplate, Render, Holes, Substitute, References;
    ShortcutExactly(parts);
    RenderPrinted(parts, names);
    if Lone(parts).Some? {
      LoneReferences(parts);
    }
  }

  lemma {:induction false} SubstituteBlank(parts: seq<Part>, names: Names)
    requires BlankLiterals(parts)
    ensures Substitute(parts, names) == Success(PrintAll(parts)) && LiteralText(parts) == PrintAll(parts)
  {
    if parts != [] {
      SubstituteBlank(parts[1..], names);
    }
  }

  lemma {:induction false} LoneSubstitutes(parts: seq<Part>, names: Names) returns (before: string, after: string)
    requires Lone(parts).Some? && names(Lone(parts).value).Success?
    ensures LiteralText(parts) == before + after
    ensures Substitute(parts, names) == Success(before + Inline(names(Lone(parts).value).value) + after)
  {
    hide Inline;
    var value := names(Lone(parts).value).value;
    if parts[0].Literal? {
      var b, a := LoneSubstitutes(parts[1..], names);
      before, after := parts[0].text + b, a;
      assert parts[0].text + (b + a) == before + after;
      assert parts[0].text + (b + Inline(value) + a) == before + Inline(value) + after;
    } else {
      SubstituteBlank(parts[1..], names);
      before, after := "", PrintAll(parts[1..]);
      assert "" + after == after;
      assert Inline(value) + after == "" + Inline(value) + after;
    }
  }

  /** For a lone reference the shortcut and the loop agree exactly when the value is a
      string and no white space stands around the braces. */
  lemma ShortcutAgreesExactly(parts: seq<Part>, names: Names)
    requires PartsOk(parts) && Lone(parts).Some? && names(Lone(parts).value).Success?
    ensures Render(PrintAll(parts), names).Success?
    ensures ResolveString(PrintAll(parts), names) == Success(J.Str(Render(PrintAll(parts), names).value))
            <==> names(Lone(parts).value).value.Str? && LiteralText(parts) == ""
  {
    hide SingleTemplate, Render, Holes, Substitute, References, Lone, LiteralText;
    PrintThenResolve(parts, names);
    RenderPrinted(parts, names);
    var before, after := LoneSubstitutes(parts, names);
    var value := names(Lone(parts).value).value;
    if value.Str? {
      assert |before + value.text + after| == |before + after| + |value.text|;
      if before + after == "" {
        assert before == "" && after == "" && "" + value.text + "" == value.text;
      }
    }
  }
}
