/** The template resolver of crates/common/src/template.rs. */
module Template {
  import opened Wrappers
  import opened Text
  import opened Json

  /** The four maps a variable is looked up in. */
  datatype Env = Env(
    input: map<string, Json>,
    config: map<string, Json>,
    secrets: map<string, string>,
    execution: map<string, Json>)

  datatype ResolveError = Unresolved(variable: string) | UnknownNamespace(variable: string)

  const OPEN := "{{"
  const CLOSE := "}}"

  function Lookup(m: map<string, Json>, key: string, variable: string): Result<Json, ResolveError> {
    if key in m then Success(m[key]) else Failure(Unresolved(variable))
  }

  function ResolveVariable(variable: string, env: Env): Result<Json, ResolveError> {
    if "input." <= variable then
      Lookup(env.input, variable[6..], variable)
    else if "config." <= variable then
      Lookup(env.config, variable[7..], variable)
    else if "secret." <= variable then
      if variable[7..] in env.secrets then Success(Str(env.secrets[variable[7..]])) else Failure(Unresolved(variable))
    else if "execution." <= variable then
      Lookup(env.execution, variable[10..], variable)
    else
      Failure(UnknownNamespace(variable))
  }

  /** How the resolver below sees the maps: as the value, or error, of every name. */
  type Names = string -> Result<Json, ResolveError>

  function NamesOf(env: Env): Names {
    (variable: string) => ResolveVariable(variable, env)
  }

  /** The inner text when the whole trimmed string is one reference. */
  function SingleTemplate(s: string): Option<string> {
    var trimmed := Trim(s);
    if OPEN <= trimmed && EndsWith(trimmed, CLOSE) then
      SingleIsLongEnough(trimmed);
      var inner := Trim(trimmed[2..|trimmed| - 2]);
      if Find(inner, OPEN).None? then Some(inner) else None
    else
      None
  }

  /** The two braces of each end cannot share a character, so the slice is in range. */
  lemma SingleIsLongEnough(s: string)
    requires OPEN <= s && EndsWith(s, CLOSE)
    ensures |s| >= 4
  {
    var tail := s[|s| - 2..];
    assert s[1] == '{' && tail[0] == '}' && tail[0] == s[|s| - 2];
    assert s[0] == '{';
  }

  /** How a value reads inside a longer string. */
  function Inline(v: Json): string {
    if v.Str? then v.text else ToText(v)
  }

  /** The positions of a reference's opening and closing braces. */
  datatype Hole = Hole(open: nat, close: nat)

  /** Where the first reference of `s` opens and closes, if it has one. */
  function FirstHole(s: string): (r: Option<Hole>)
    ensures r.Some? ==> r.value.open + 2 <= r.value.close <= |s| - 2
  {
    var open := Find(s, OPEN);
    if open.None? then None
    else
      var close := Find(s[open.value..], CLOSE);
      if close.None? then None
      else
        ClosesAfterOpening(s);
        Some(Hole(open.value, open.value + close.value))
  }

  /** The closing braces cannot overlap the opening ones. */
  lemma ClosesAfterOpening(s: string)
    requires Find(s, OPEN).Some?
    requires Find(s[Find(s, OPEN).value..], CLOSE).Some?
    ensures Find(s[Find(s, OPEN).value..], CLOSE).value >= 2
  {
    FindFirst(s, OPEN);
    var suffix := s[Find(s, OPEN).value..];
    FindFirst(suffix, CLOSE);
    var close := Find(suffix, CLOSE).value;
    assert suffix[0] == '{' && suffix[1] == '{';
    assert suffix[close..][0] == '}';
  }

  function HoleName(s: string, hole: Hole): string
    requires hole.open + 2 <= hole.close <= |s|
  {
    Trim(s[hole.open + 2..hole.close])
  }

  /** Put `text` in front of a successful rendering. */
  function Prepend(text: string, r: Result<string, ResolveError>): Result<string, ResolveError> {
    if r.Success? then Success(text + r.value) else r
  }

  /** Left-to-right rendering of a string; substituted text is never looked at again. */
  function Render(s: string, names: Names): Result<string, ResolveError>
    decreases |s|
  {
    var hole := FirstHole(s);
    if hole.None? then
      Success(s)
    else
      var value := names(HoleName(s, hole.value));
      if value.Failure? then Failure(value.error)
      else Prepend(s[..hole.value.open] + Inline(value.value), Render(s[hole.value.close + 2..], names))
  }

  function ResolveString(s: string, names: Names): Result<Json, ResolveError> {
    var single := SingleTemplate(s);
    if single.Some? then
      names(single.value)
    else
      var text :- Render(s, names);
      Success(Str(text))
  }

  /** Resolving a tree: keys and values of objects in key order, items in order, and the
      first error wins.  Two keys resolving to one name keep the later value. */
  function Resolve(j: Json, names: Names): Result<Json, ResolveError>
    decreases j, 1
  {
    match j
    case Str(s) => ResolveString(s, names)
    case Obj(fields) =>
      var resolved :- ResolveFields(fields, [], names);
      Success(Obj(resolved))
    case Arr(items) =>
      var resolved :- ResolveItems(items, names);
      Success(Arr(resolved))
    case _ => Success(j)
  }

  function ResolveFields(fields: seq<Field>, done: seq<Field>, names: Names): Result<seq<Field>, ResolveError>
    decreases fields, 0
  {
    if fields == [] then Success(done)
    else
      var key :- ResolveString(fields[0].key, names);
      var value :- Resolve(fields[0].value, names);
      ResolveFields(fields[1..], Insert(done, Inline(key), value), names)
  }

  function ResolveItems(items: seq<Json>, names: Names): Result<seq<Json>, ResolveError>
    decreases items, 0
  {
    if items == [] then Success([])
    else
      var first :- Resolve(items[0], names);
      var rest :- ResolveItems(items[1..], names);
      Success([first] + rest)
  }

  // The source's loops

  lemma PrependNothing(r: Result<string, ResolveError>)
    ensures Prepend("", r) == r
  {
    assert r.Success? ==> "" + r.value == r.value;
  }

  lemma PrependTwice(a: string, b: string, r: Result<string, ResolveError>)
    ensures Prepend(a, Prepend(b, r)) == Prepend(a + b, r)
  {
    assert r.Success? ==> a + (b + r.value) == (a + b) + r.value;
  }

  lemma RenderStep(s: string, names: Names, hole: Hole)
    requires FirstHole(s).Some? && FirstHole(s).value == hole
    ensures hole.open + 2 <= hole.close && hole.close + 2 <= |s|
    ensures var value := names(HoleName(s, hole));
            Render(s, names) ==
              if value.Failure? then Failure(value.error)
              else Prepend(s[..hole.open] + Inline(value.value), Render(s[hole.close + 2..], names))
  {
    hide Find, Trim, FirstHole, HoleName, Inline, Prepend;
  }

  lemma RenderDone(s: string, names: Names, done: string, read: nat)
    requires read <= |s| && FirstHole(s[read..]).None?
    requires Render(s, names) == Prepend(done, Render(s[read..], names))
    ensures Render(s, names) == Success(done + s[read..])
  {
  }

  /** The two searches of a loop turn, at absolute positions of the buffer. */
  function NextHole(buffer: string, start: nat): (r: Option<Hole>)
    requires start <= |buffer|
    ensures r.Some? ==> start <= r.value.open && r.value.open + 2 <= r.value.close <= |buffer| - 2
  {
    var found := Find(buffer[start..], OPEN);
    if found.None? then None
    else
      var open := start + found.value;
      var end := Find(buffer[open..], CLOSE);
      if end.None? then None
      else
        ClosesAfterOpening(buffer[start..]);
        assert buffer[start..][found.value..] == buffer[open..];
        Some(Hole(open, open + end.value))
  }

  lemma DropOfConcat(done: string, rest: string, k: nat)
    requires k <= |rest|
    ensures (done + rest)[|done|..] == rest
    ensures (done + rest)[|done| + k..] == rest[k..]
    ensures (done + rest)[..|done| + k] == done + rest[..k]
  {
  }

  function Shift(hole: Hole, offset: nat): Hole {
    Hole(hole.open + offset, hole.close + offset)
  }

  /** They find exactly the first reference of the unread part. */
  lemma NextHoleIsFirst(done: string, rest: string)
    ensures var next := NextHole(done + rest, |done|);
            && next.Some? == FirstHole(rest).Some?
            && (next.Some? ==> next.value == Shift(FirstHole(rest).value, |done|))
  {
    DropOfConcat(done, rest, 0);
    var found := Find(rest, OPEN);
    if found.Some? {
      DropOfConcat(done, rest, found.value);
    }
  }

  lemma NameOfShifted(done: string, rest: string, hole: Hole)
    requires hole.open + 2 <= hole.close <= |rest|
    ensures HoleName(done + rest, Shift(hole, |done|)) == HoleName(rest, hole)
  {
    assert (done + rest)[|done| + hole.open + 2..|done| + hole.close] == rest[hole.open + 2..hole.close];
  }

  /** `resolve_string` */
  method ResolveStringInPlace(s: string, names: Names) returns (r: Result<Json, ResolveError>)
    ensures r == ResolveString(s, names)
  {
    var single := SingleTemplate(s);
    if single.Some? {
      return names(single.value);
    }
    var text := Interpolate(s, names);
    return if text.Success? then Success(Str(text.value)) else Failure(text.error);
  }

  /** One turn of the loop: with `done` written and `s` read up to `read`, the next
      reference is an error, or is replaced and the reading moves past it. */
  lemma Turn(s: string, names: Names, done: string, read: nat, buffer: string) returns (read': nat)
    requires read <= |s| && buffer == done + s[read..]
    requires NextHole(buffer, |done|).Some?
    requires Render(s, names) == Prepend(done, Render(s[read..], names))
    ensures var next := NextHole(buffer, |done|).value;
            var value := names(HoleName(buffer, next));
            if value.Failure? then
              Render(s, names) == Failure(value.error)
            else
              && read < read' <= |s| && s[read'..] == buffer[next.close + 2..]
              && Render(s, names) == Prepend(buffer[..next.open] + Inline(value.value), Render(s[read'..], names))
  {
    hide Find;
    hide Trim;
    hide Render;
    var rest := s[read..];
    NextHoleIsFirst(done, rest);
    var hole := FirstHole(rest).value;
    NameOfShifted(done, rest, hole);
    RenderStep(rest, names, hole);
    read' := read + hole.close + 2;
    assert rest[hole.close + 2..] == s[read'..];
    DropOfConcat(done, rest, hole.close + 2);
    DropOfConcat(done, rest, hole.open);
    var value := names(HoleName(rest, hole));
    if value.Success? {
      PrependTwice(done, rest[..hole.open] + Inline(value.value), Render(s[read'..], names));
      assert done + (rest[..hole.open] + Inline(value.value)) == buffer[..hole.open + |done|] + Inline(value.value);
    }
  }

  /** The interpolation loop: the buffer is rewritten in place while `start` walks over it.
      What lies before `start` is finished text, and what lies from `start` on is always an
      unread suffix of the original string. */
  method Interpolate(s: string, names: Names) returns (r: Result<string, ResolveError>)
    ensures r == Render(s, names)
  {
    hide *;
    var result := s;
    var start := 0;
    ghost var done, read := "", 0;
    PrependNothing(Render(s, names));
    DropOfConcat("", s, 0);
    while true
      invariant 0 <= read <= |s| && start == |done|
      invariant result == done + s[read..]
      invariant Render(s, names) == Prepend(done, Render(s[read..], names))
      decreases |result| - start
    {
      var next := NextHole(result, start);
      if next.None? {
        break;
      }
      ghost var read' := Turn(s, names, done, read, result);
      var resolved := names(HoleName(result, next.value));
      if resolved.Failure? {
        return Failure(resolved.error);
      }
      var replacement := Inline(resolved.value);
      done, read := result[..next.value.open] + replacement, read';
      result := result[..next.value.open] + replacement + result[next.value.close + 2..];
      start := next.value.open + |replacement|;
    }
    NextHoleIsFirst(done, s[read..]);
    RenderDone(s, names, done, read);
    return Success(result);
  }

  /** `resolve`: the recursion over the tree, filling the result map field by field. */
  method ResolveTree(j: Json, names: Names) returns (r: Result<Json, ResolveError>)
    ensures r == Resolve(j, names)
    decreases j
  {
    if j.Str? {
      r := ResolveStringInPlace(j.text, names);
    } else if j.Obj? {
      var fields, result: seq<Field> := j.fields, [];
      for i := 0 to |fields|
        invariant ResolveFields(fields, [], names) == ResolveFields(fields[i..], result, names)
      {
        assert fields[i..][0] == fields[i] && fields[i..][1..] == fields[i + 1..];
        var key := ResolveStringInPlace(fields[i].key, names);
        if key.Failure? {
          return Failure(key.error);
        }
        var value := ResolveTree(fields[i].value, names);
        if value.Failure? {
          return Failure(value.error);
        }
        result := Insert(result, Inline(key.value), value.value);
      }
      assert fields[|fields|..] == [];
      r := Success(Obj(result));
    } else if j.Arr? {
      var items, resolved: seq<Json> := j.items, [];
      JoinedNothing(ResolveItems(items, names));
      for i := 0 to |items|
        invariant ResolveItems(items, names) == Joined(resolved, ResolveItems(items[i..], names))
      {
        assert items[i..][0] == items[i] && items[i..][1..] == items[i + 1..];
        var item := ResolveTree(items[i], names);
        if item.Failure? {
          return Failure(item.error);
        }
        ghost var rest := ResolveItems(items[i + 1..], names);
        assert rest.Success? ==> resolved + ([item.value] + rest.value) == (resolved + [item.value]) + rest.value;
        resolved := resolved + [item.value];
      }
      assert items[|items|..] == [] && resolved + [] == resolved;
      r := Success(Arr(resolved));
    } else {
      r := Success(j);
    }
  }

  lemma JoinedNothing(r: Result<seq<Json>, ResolveError>)
    ensures Joined([], r) == r
  {
    assert r.Success? ==> [] + r.value == r.value;
  }

  ghost function Joined(done: seq<Json>, rest: Result<seq<Json>, ResolveError>): Result<seq<Json>, ResolveError> {
    if rest.Success? then Success(done + rest.value) else rest
  }
}
