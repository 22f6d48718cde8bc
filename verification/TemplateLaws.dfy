/** What the resolver promises: when it succeeds, what its result depends on, and what it
    leaves alone. */
module TemplateLaws {
  import opened Wrappers
  import opened Text
  import opened Json
  import opened Template

  // The variables of a tree, in the order the resolver meets them

  function Holes(s: string): seq<string>
    decreases |s|
  {
    var hole := FirstHole(s);
    if hole.None? then [] else [HoleName(s, hole.value)] + Holes(s[hole.value.close + 2..])
  }

  function VariablesOfString(s: string): seq<string> {
    var single := SingleTemplate(s);
    if single.Some? then [single.value] else Holes(s)
  }

  function Variables(j: Json): seq<string>
    decreases j, 1
  {
    match j
    case Str(s) => VariablesOfString(s)
    case Obj(fields) => VariablesOfFields(fields)
    case Arr(items) => VariablesOfItems(items)
    case _ => []
  }

  function VariablesOfFields(fields: seq<Field>): seq<string>
    decreases fields, 0
  {
    if fields == [] then []
    else VariablesOfString(fields[0].key) + Variables(fields[0].value) + VariablesOfFields(fields[1..])
  }

  function VariablesOfItems(items: seq<Json>): seq<string>
    decreases items, 0
  {
    if items == [] then [] else Variables(items[0]) + VariablesOfItems(items[1..])
  }

  // Success and errors

  /** The error of the first unbound variable. */
  function FirstError(variables: seq<string>, names: Names): Option<ResolveError> {
    if variables == [] then None
    else if names(variables[0]).Failure? then Some(names(variables[0]).error)
    else FirstError(variables[1..], names)
  }

  ghost predicate AllBound(variables: seq<string>, names: Names) {
    forall v <- variables :: names(v).Success?
  }

  lemma {:induction false} FirstErrorIffUnbound(variables: seq<string>, names: Names)
    ensures FirstError(variables, names).None? <==> AllBound(variables, names)
  {
    if variables != [] {
      FirstErrorIffUnbound(variables[1..], names);
      assert variables == [variables[0]] + variables[1..];
    }
  }

  lemma {:induction false} FirstErrorConcat(a: seq<string>, b: seq<string>, names: Names)
    ensures FirstError(a + b, names) ==
            if FirstError(a, names).Some? then FirstError(a, names) else FirstError(b, names)
  {
    if a == [] {
      assert a + b == b;
    } else {
      assert (a + b)[1..] == a[1..] + b;
      FirstErrorConcat(a[1..], b, names);
    }
  }

  /** `r` is a success, or the given error. */
  ghost predicate FailsWith<T>(r: Result<T, ResolveError>, error: Option<ResolveError>) {
    match error
    case None => r.Success?
    case Some(e) => r == Failure(e)
  }

  lemma {:induction false} RenderFailsAtFirst(s: string, names: Names)
    ensures FailsWith(Render(s, names), FirstError(Holes(s), names))
    decreases |s|
  {
    hide Find, Trim, Inline;
    var hole := FirstHole(s);
    if hole.Some? {
      RenderStep(s, names, hole.value);
      RenderFailsAtFirst(s[hole.value.close + 2..], names);
    }
  }

  lemma StringFailsAtFirst(s: string, names: Names)
    ensures FailsWith(ResolveString(s, names), FirstError(VariablesOfString(s), names))
  {
    hide Find, Trim, Render, Holes;
    RenderFailsAtFirst(s, names);
  }

  /** Resolving a tree stops at the first unbound variable of any key or value, in reading
      order, with that variable's error; and it succeeds when there is none. */
  lemma {:induction false} ResolveFailsAtFirst(j: Json, names: Names)
    ensures FailsWith(Resolve(j, names), FirstError(Variables(j), names))
    decreases j, 1
  {
    hide ResolveString, VariablesOfString;
    match j
    case Str(s) => StringFailsAtFirst(s, names);
    case Obj(fields) => FieldsFailAtFirst(fields, [], names);
    case Arr(items) => ItemsFailAtFirst(items, names);
    case _ =>
  }

  lemma {:induction false} FieldsFailAtFirst(fields: seq<Field>, done: seq<Field>, names: Names)
    ensures FailsWith(ResolveFields(fields, done, names), FirstError(VariablesOfFields(fields), names))
    decreases fields, 0
  {
    hide ResolveString, VariablesOfString, Inline;
    if fields != [] {
      var f := fields[0];
      StringFailsAtFirst(f.key, names);
      ResolveFailsAtFirst(f.value, names);
      FirstErrorConcat(VariablesOfString(f.key) + Variables(f.value), VariablesOfFields(fields[1..]), names);
      FirstErrorConcat(VariablesOfString(f.key), Variables(f.value), names);
      var key, value := ResolveString(f.key, names), Resolve(f.value, names);
      if key.Success? && value.Success? {
        FieldsFailAtFirst(fields[1..], Insert(done, Inline(key.value), value.value), names);
      }
    }
  }

  lemma {:induction false} ItemsFailAtFirst(items: seq<Json>, names: Names)
    ensures FailsWith(ResolveItems(items, names), FirstError(VariablesOfItems(items), names))
    decreases items, 0
  {
    if items != [] {
      ResolveFailsAtFirst(items[0], names);
      FirstErrorConcat(Variables(items[0]), VariablesOfItems(items[1..]), names);
      ItemsFailAtFirst(items[1..], names);
    }
  }

  /** A tree resolves iff each variable in it has a namespace it is bound in. */
  lemma ResolvesIffAllBound(j: Json, names: Names)
    ensures Resolve(j, names).Success? <==> AllBound(Variables(j), names)
  {
    hide *;
    ResolveSucceedsIffNoError(j, names);
    FirstErrorIffUnbound(Variables(j), names);
  }

  lemma ResolveSucceedsIffNoError(j: Json, names: Names)
    ensures Resolve(j, names).Success? <==> FirstError(Variables(j), names).None?
  {
    hide Resolve, Variables, FirstError;
    ResolveFailsAtFirst(j, names);
  }

  // Dependence

  ghost predicate Agree(variables: seq<string>, a: Names, b: Names) {
    forall v <- variables :: a(v) == b(v)
  }

  lemma {:induction false} RenderAgrees(s: string, a: Names, b: Names)
    requires Agree(Holes(s), a, b)
    ensures Render(s, a) == Render(s, b)
    decreases |s|
  {
    hide Find, Trim, Inline;
    var hole := FirstHole(s);
    if hole.Some? {
      var rest := s[hole.value.close + 2..];
      assert Holes(s) == [HoleName(s, hole.value)] + Holes(rest);
      assert HoleName(s, hole.value) in Holes(s);
      assert forall v <- Holes(rest) :: v in Holes(s);
      RenderStep(s, a, hole.value);
      RenderStep(s, b, hole.value);
      RenderAgrees(rest, a, b);
    }
  }

  lemma StringAgrees(s: string, a: Names, b: Names)
    requires Agree(VariablesOfString(s), a, b)
    ensures ResolveString(s, a) == ResolveString(s, b)
  {
    hide Find, Trim, Render, Holes;
    var single := SingleTemplate(s);
    if single.Some? {
      assert single.value in VariablesOfString(s);
    } else {
      RenderAgrees(s, a, b);
    }
  }

  /** The outcome depends on nothing but the variables that occur in the tree. */
  lemma {:induction false} ResolveAgrees(j: Json, a: Names, b: Names)
    requires Agree(Variables(j), a, b)
    ensures Resolve(j, a) == Resolve(j, b)
    decreases j, 1
  {
    hide ResolveString, VariablesOfString;
    match j
    case Str(s) => StringAgrees(s, a, b);
    case Obj(fields) => FieldsAgree(fields, [], a, b);
    case Arr(items) => ItemsAgree(items, a, b);
    case _ =>
  }

  lemma {:induction false} FieldsAgree(fields: seq<Field>, done: seq<Field>, a: Names, b: Names)
    requires Agree(VariablesOfFields(fields), a, b)
    ensures ResolveFields(fields, done, a) == ResolveFields(fields, done, b)
    decreases fields, 0
  {
    hide ResolveString, VariablesOfString, Inline;
    if fields != [] {
      var f := fields[0];
      var k, v, rest := VariablesOfString(f.key), Variables(f.value), VariablesOfFields(fields[1..]);
      assert VariablesOfFields(fields) == k + v + rest;
      assert forall x <- k :: x in VariablesOfFields(fields);
      assert forall x <- v :: x in VariablesOfFields(fields);
      assert forall x <- rest :: x in VariablesOfFields(fields);
      StringAgrees(f.key, a, b);
      ResolveAgrees(f.value, a, b);
      var key, value := ResolveString(f.key, a), Resolve(f.value, a);
      if key.Success? && value.Success? {
        FieldsAgree(fields[1..], Insert(done, Inline(key.value), value.value), a, b);
      }
    }
  }

  lemma {:induction false} ItemsAgree(items: seq<Json>, a: Names, b: Names)
    requires Agree(VariablesOfItems(items), a, b)
    ensures ResolveItems(items, a) == ResolveItems(items, b)
    decreases items, 0
  {
    if items != [] {
      assert VariablesOfItems(items) == Variables(items[0]) + VariablesOfItems(items[1..]);
      assert forall x <- Variables(items[0]) :: x in VariablesOfItems(items);
      assert forall x <- VariablesOfItems(items[1..]) :: x in VariablesOfItems(items);
      ResolveAgrees(items[0], a, b);
      ItemsAgree(items[1..], a, b);
    }
  }

  // Trees without references

  ghost predicate PlainString(s: string) {
    Find(s, OPEN).None?
  }

  ghost predicate Plain(j: Json)
    decreases j, 1
  {
    match j
    case Str(s) => PlainString(s)
    case Obj(fields) => PlainFields(fields)
    case Arr(items) => forall item <- items :: Plain(item)
    case _ => true
  }

  ghost predicate PlainFields(fields: seq<Field>)
    decreases fields, 0
  {
    fields == [] || (PlainString(fields[0].key) && Plain(fields[0].value) && PlainFields(fields[1..]))
  }

  lemma PlainStringResolvesToItself(s: string, names: Names)
    requires PlainString(s)
    ensures ResolveString(s, names) == Success(Str(s))
  {
    var head := TrimStartShape(s);
    var tail := TrimEndShape(TrimStart(s));
    hide TrimStart, TrimEnd, Find;
    var trimmed := Trim(s);
    assert s == head + (trimmed + tail);
    if OPEN <= trimmed {
      assert s[|head|..] == trimmed + tail;
      assert OccursAt(s, OPEN, |head|);
      FindFirst(s, OPEN);
      assert false;
    }
  }

  /** A tree with no opening braces in any key or string resolves to itself. */
  lemma {:induction false} PlainResolvesToItself(j: Json, names: Names)
    requires Plain(j) && WellFormed(j)
    ensures Resolve(j, names) == Success(j)
    decreases j, 1
  {
    hide ResolveString, PlainString;
    match j
    case Str(s) => PlainStringResolvesToItself(s, names);
    case Obj(fields) =>
      PlainFieldsResolve([], fields, names);
      assert [] + fields == fields;
    case Arr(items) => PlainItemsResolve(items, names);
    case _ =>
  }

  lemma {:induction false} PlainFieldsResolve(done: seq<Field>, fields: seq<Field>, names: Names)
    requires PlainFields(fields) && WellFormedFields(fields) && Sorted(done + fields)
    ensures ResolveFields(fields, done, names) == Success(done + fields)
    decreases fields, 0
  {
    hide ResolveString, PlainString, Less;
    if fields == [] {
      assert done + fields == done;
    } else {
      var f := fields[0];
      PlainStringResolvesToItself(f.key, names);
      PlainResolvesToItself(f.value, names);
      forall d <- done ensures Less(d.key, f.key) {
        var i :| 0 <= i < |done| && done[i] == d;
        assert (done + fields)[i] == d && (done + fields)[|done|] == f;
      }
      InsertLast(done, f.key, f.value);
      assert done + [f] + fields[1..] == done + fields;
      PlainFieldsResolve(done + [f], fields[1..], names);
    }
  }

  lemma {:induction false} PlainItemsResolve(items: seq<Json>, names: Names)
    requires forall item <- items :: Plain(item) && WellFormed(item)
    ensures ResolveItems(items, names) == Success(items)
    decreases items, 0
  {
    if items != [] {
      PlainResolvesToItself(items[0], names);
      PlainItemsResolve(items[1..], names);
      assert items == [items[0]] + items[1..];
    }
  }

  // Objects

  /** What the resolved object holds under `name`: the value of the last field, in key
      order, whose key resolves to `name`. */
  ghost function LastWins(fields: seq<Field>, name: string, names: Names): seq<Json> {
    if fields == [] then []
    else
      var later := LastWins(fields[1..], name, names);
      if later != [] then later
      else
        var key, value := ResolveString(fields[0].key, names), Resolve(fields[0].value, names);
        if key.Success? && value.Success? && Inline(key.value) == name then [value.value] else []
  }

  /** A resolved object is again sorted, and each name holds what the last field with that
      resolved key gave it. */
  lemma {:induction false} ResolvedObject(fields: seq<Field>, done: seq<Field>, names: Names, name: string)
    requires Sorted(done) && ResolveFields(fields, done, names).Success?
    ensures var result := ResolveFields(fields, done, names).value;
            && Sorted(result)
            && Get(result, name) ==
               if LastWins(fields, name, names) != [] then LastWins(fields, name, names) else Get(done, name)
  {
    hide ResolveString, Resolve, Inline, Less, Sorted;
    if fields != [] {
      var key, value := ResolveString(fields[0].key, names), Resolve(fields[0].value, names);
      InsertSorted(done, Inline(key.value), value.value);
      GetInserted(done, Inline(key.value), value.value, name);
      ResolvedObject(fields[1..], Insert(done, Inline(key.value), value.value), names, name);
    }
  }
}
