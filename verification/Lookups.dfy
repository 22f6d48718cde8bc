/** What a variable stands for, and the maps a worker looks it up in. */
module Lookups {
  import opened Wrappers
  import opened Text
  import opened Json
  import opened Template
  import opened TemplateLaws
  import opened Printing

  /** Each namespace reads its own map under the rest of the name, and a secret is a string. */
  lemma NamesLookUp(env: Env, k: string)
    ensures NamesOf(env)("input." + k) == if k in env.input then Success(env.input[k]) else Failure(Unresolved("input." + k))
    ensures NamesOf(env)("config." + k) == if k in env.config then Success(env.config[k]) else Failure(Unresolved("config." + k))
    ensures NamesOf(env)("secret." + k) == if k in env.secrets then Success(Str(env.secrets[k])) else Failure(Unresolved("secret." + k))
    ensures NamesOf(env)("execution." + k) ==
            if k in env.execution then Success(env.execution[k]) else Failure(Unresolved("execution." + k))
  {
    var input, config, secret, execution := "input." + k, "config." + k, "secret." + k, "execution." + k;
    assert input[0] == 'i' && config[0] == 'c' && secret[0] == 's' && execution[0] == 'e';
    assert "input."[0] == 'i' && "config."[0] == 'c' && "secret."[0] == 's' && "execution."[0] == 'e';
    assert input[6..] == k && config[7..] == k && secret[7..] == k && execution[10..] == k;
  }

  /** Any other name is an error of its own. */
  lemma OtherNamesAreUnknown(env: Env, v: string)
    requires !("input." <= v) && !("config." <= v) && !("secret." <= v) && !("execution." <= v)
    ensures NamesOf(env)(v) == Failure(UnknownNamespace(v))
  {
  }

  /** The name has a namespace, and the rest of it is in that namespace's map. */
  predicate Stored(v: string, env: Env) {
    || ("input." <= v && v[6..] in env.input)
    || ("config." <= v && v[7..] in env.config)
    || ("secret." <= v && v[7..] in env.secrets)
    || ("execution." <= v && v[10..] in env.execution)
  }

  lemma StoredIsBound(v: string, env: Env)
    ensures NamesOf(env)(v).Success? <==> Stored(v, env)
  {
    assert "input."[0] == 'i' && "config."[0] == 'c' && "secret."[0] == 's' && "execution."[0] == 'e';
    if v != [] {
      assert "input." <= v ==> v[0] == 'i';
      assert "config." <= v ==> v[0] == 'c';
      assert "secret." <= v ==> v[0] == 's';
      assert "execution." <= v ==> v[0] == 'e';
    }
  }

  /** A tree resolves if and only if each name in its keys and values is stored where its
      namespace says. */
  lemma ResolvesIffStored(j: Json, env: Env)
    ensures Resolve(j, NamesOf(env)).Success? <==> forall v <- Variables(j) :: Stored(v, env)
  {
    ResolvesIffAllBound(j, NamesOf(env));
    hide Resolve, Variables, NamesOf;
    forall v ensures NamesOf(env)(v).Success? <==> Stored(v, env) {
      StoredIsBound(v, env);
    }
    hide Stored;
  }

  /** The two hold the same under the name. */
  predicate SameUnder(v: string, a: Env, b: Env) {
    && ("input." <= v ==> if v[6..] in a.input then v[6..] in b.input && b.input[v[6..]] == a.input[v[6..]] else v[6..] !in b.input)
    && ("config." <= v ==> if v[7..] in a.config then v[7..] in b.config && b.config[v[7..]] == a.config[v[7..]] else v[7..] !in b.config)
    && ("secret." <= v ==> if v[7..] in a.secrets then v[7..] in b.secrets && b.secrets[v[7..]] == a.secrets[v[7..]] else v[7..] !in b.secrets)
    && ("execution." <= v ==>
          if v[10..] in a.execution then v[10..] in b.execution && b.execution[v[10..]] == a.execution[v[10..]] else v[10..] !in b.execution)
  }

  lemma SameUnderSame(v: string, a: Env, b: Env)
    requires SameUnder(v, a, b)
    ensures NamesOf(a)(v) == NamesOf(b)(v)
  {
  }

  /** Maps that agree on the names in a tree resolve it to the same value or the same error. */
  lemma ResolvesTheSame(j: Json, a: Env, b: Env)
    requires forall v <- Variables(j) :: SameUnder(v, a, b)
    ensures Resolve(j, NamesOf(a)) == Resolve(j, NamesOf(b))
  {
    hide Resolve, Variables, NamesOf, SameUnder;
    forall v <- Variables(j) ensures NamesOf(a)(v) == NamesOf(b)(v) {
      SameUnderSame(v, a, b);
    }
    ResolveAgrees(j, NamesOf(a), NamesOf(b));
  }

  /** Inside a longer string, a string stands as it is and any other value as its JSON text. */
  lemma InlineIs(v: Json)
    ensures match v
            case Str(text) => Inline(v) == text
            case Null => Inline(v) == "null"
            case Bool(b) => Inline(v) == if b then "true" else "false"
            case Num(digits) => Inline(v) == digits
            case _ => Inline(v) == ToText(v)
  {
  }

  predicate KeyOk(k: string) {
    k != "" && NoBraces(k) && !IsSpace(k[0]) && !IsSpace(k[|k| - 1])
  }

  ghost predicate NameParts(a: string, v: string, b: string, w: string, c: string) {
    NoBraces(a) && NoBraces(b) && NoBraces(c) && KeyOk(v) && KeyOk(w)
  }

  /** Two references between literals resolve to the concatenation of their values. */
  lemma TwoNamesResolve(a: string, v: string, b: string, w: string, c: string, names: Names)
    requires NameParts(a, v, b, w, c) && names(v).Success? && names(w).Success?
    ensures ResolveString(a + ("{{" + v + "}}") + b + ("{{" + w + "}}") + c, names) ==
            Success(Str(a + Inline(names(v).value) + b + Inline(names(w).value) + c))
  {
    var r1, r2 := Reference("", v, ""), Reference("", w, "");
    var x, y := Inline(names(v).value), Inline(names(w).value);
    ReferencePrints(v);
    ReferencePrints(w);
    FiveParts(Literal(a), r1, Literal(b), r2, Literal(c));
    FivePrinted(a, r1, b, r2, c);
    FiveSubstituted(a, r1, b, r2, c, names);
    hide *;
    PrintThenResolve([Literal(a), r1, Literal(b), r2, Literal(c)], names);
    FiveJoined(a, "{{" + v + "}}", b, "{{" + w + "}}", c);
    FiveJoined(a, x, b, y, c);
  }

  lemma FiveJoined<T>(a: seq<T>, x: seq<T>, b: seq<T>, y: seq<T>, c: seq<T>)
    ensures a + x + b + y + c == a + (x + (b + (y + c)))
  {
  }

  lemma ReferencePrints(v: string)
    ensures Print(Reference("", v, "")) == "{{" + v + "}}"
  {
    assert "" + v + "" == v;
  }

  lemma FiveParts(p: Part, q: Part, r: Part, s: Part, t: Part)
    requires p.Literal? && r.Literal? && t.Literal? && q.Reference? && s.Reference?
    requires PartOk(p) && PartOk(q) && PartOk(r) && PartOk(s) && PartOk(t)
    ensures PartsOk([p, q, r, s, t]) && Lone([p, q, r, s, t]) == None
  {
    hide PartOk, Blank;
    var parts := [p, q, r, s, t];
    assert parts[1..] == [q, r, s, t] && [q, r, s, t][1..] == [r, s, t] && [r, s, t][1..] == [s, t] && [s, t][1..] == [t] && [t][1..] == [];
    assert PartsOk([t]) && PartsOk([s, t]) && PartsOk([r, s, t]) && PartsOk([q, r, s, t]);
    assert !BlankLiterals([s, t]);
    assert !BlankLiterals([r, s, t]);
    assert Lone([q, r, s, t]) == None;
  }

  lemma FivePrinted(a: string, r1: Part, b: string, r2: Part, c: string)
    ensures PrintAll([Literal(a), r1, Literal(b), r2, Literal(c)]) == a + (Print(r1) + (b + (Print(r2) + c)))
  {
    var p, r, t := Literal(a), Literal(b), Literal(c);
    var parts := [p, r1, r, r2, t];
    assert parts[1..] == [r1, r, r2, t] && [r1, r, r2, t][1..] == [r, r2, t] && [r, r2, t][1..] == [r2, t] && [r2, t][1..] == [t] && [t][1..] == [];
    assert c + "" == c;
    assert Print(p) == a && Print(r) == b && Print(t) == c;
    hide Print;
    assert PrintAll([t]) == c;
    assert PrintAll([r2, t]) == Print(r2) + c;
    assert PrintAll([r, r2, t]) == b + (Print(r2) + c);
    assert PrintAll([r1, r, r2, t]) == Print(r1) + (b + (Print(r2) + c));
  }

  lemma FiveSubstituted(a: string, r1: Part, b: string, r2: Part, c: string, names: Names)
    requires r1.Reference? && r2.Reference? && names(r1.variable).Success? && names(r2.variable).Success?
    ensures Substitute([Literal(a), r1, Literal(b), r2, Literal(c)], names) ==
            Success(a + (Inline(names(r1.variable).value) + (b + (Inline(names(r2.variable).value) + c))))
  {
    hide Inline;
    var p, r, t := Literal(a), Literal(b), Literal(c);
    var parts := [p, r1, r, r2, t];
    assert parts[1..] == [r1, r, r2, t] && [r1, r, r2, t][1..] == [r, r2, t] && [r, r2, t][1..] == [r2, t] && [r2, t][1..] == [t] && [t][1..] == [];
    assert c + "" == c;
    assert Substitute([t], names) == Success(c);
    assert Substitute([r2, t], names) == Success(Inline(names(r2.variable).value) + c);
    assert Substitute([r, r2, t], names) == Success(b + (Inline(names(r2.variable).value) + c));
    assert Substitute([r1, r, r2, t], names) == Success(Inline(names(r1.variable).value) + (b + (Inline(names(r2.variable).value) + c)));
  }

  /** The documented use: a base address from the config, a path, an identifier from the input. */
  lemma ConfigThenInput(env: Env, a: string, k: string, b: string, m: string, c: string)
    requires NameParts(a, "config." + k, b, "input." + m, c)
    requires k in env.config && env.config[k].Str? && m in env.input && env.input[m].Str?
    ensures ResolveString(a + ("{{" + ("config." + k) + "}}") + b + ("{{" + ("input." + m) + "}}") + c, NamesOf(env)) ==
            Success(Str(a + env.config[k].text + b + env.input[m].text + c))
  {
    NamesLookUp(env, k);
    NamesLookUp(env, m);
    hide NamesOf, ResolveString, NameParts;
    TwoNamesResolve(a, "config." + k, b, "input." + m, c, NamesOf(env));
  }

  // The maps of one execution

  /** `input_map`: the input's fields, if it is an object. */
  function InputMap(input: Option<Json>): (r: map<string, Json>) {
    if input.Some? && input.value.Obj? then FieldMap(input.value.fields) else map[]
  }

  function FieldMap(fields: seq<Field>): map<string, Json> {
    if fields == [] then map[] else FieldMap(fields[..|fields| - 1])[fields[|fields| - 1].key := fields[|fields| - 1].value]
  }

  /** The map holds a field under its key, and nothing else. */
  lemma {:induction false} FieldMapHolds(fields: seq<Field>, k: string)
    requires forall i, j | 0 <= i < j < |fields| :: fields[i].key != fields[j].key
    ensures k in FieldMap(fields) <==> exists i | 0 <= i < |fields| :: fields[i].key == k
    ensures forall i | 0 <= i < |fields| :: fields[i].key == k ==> k in FieldMap(fields) && FieldMap(fields)[k] == fields[i].value
  {
    if fields != [] {
      var n := |fields| - 1;
      FieldMapHolds(fields[..n], k);
    }
  }

  /** An input name stands for the field of that name, if the input is an object. */
  lemma InputLooksUp(input: Option<Json>, k: string)
    requires input.Some? && input.value.Obj? ==> Sorted(input.value.fields)
    ensures k in InputMap(input) <==> input.Some? && input.value.Obj? && exists i | 0 <= i < |input.value.fields| :: input.value.fields[i].key == k
    ensures input.Some? && input.value.Obj? ==>
              forall i | 0 <= i < |input.value.fields| :: input.value.fields[i].key == k ==>
                k in InputMap(input) && InputMap(input)[k] == input.value.fields[i].value
  {
    if input.Some? && input.value.Obj? {
      forall i, j | 0 <= i < j < |input.value.fields| ensures input.value.fields[i].key != input.value.fields[j].key {
        LessIrreflexive(input.value.fields[i].key, input.value.fields[j].key);
      }
      FieldMapHolds(input.value.fields, k);
    }
  }

  /** `execution_map`.  The idempotency key is the job's, or else the execution's own id. */
  method ExecutionMap(jobKey: Option<string>, execution: string, job: string, attempt: string) returns (m: map<string, Json>)
    ensures m.Keys == {"idempotency_key", "attempt_count", "execution_id", "job_id"}
    ensures m["idempotency_key"] == Str(if jobKey.Some? then jobKey.value else execution)
    ensures m["attempt_count"] == Num(attempt) && m["execution_id"] == Str(execution) && m["job_id"] == Str(job)
  {
    DistinctNames();
    var key := if jobKey.Some? then jobKey.value else execution;
    m := map[];
    m := m["idempotency_key" := Str(key)];
    m := m["attempt_count" := Num(attempt)];
    m := m["execution_id" := Str(execution)];
    m := m["job_id" := Str(job)];
  }

  lemma DistinctNames()
    ensures "idempotency_key" != "attempt_count" && "idempotency_key" != "execution_id" && "idempotency_key" != "job_id"
    ensures "attempt_count" != "execution_id" && "attempt_count" != "job_id" && "execution_id" != "job_id"
  {
    assert "idempotency_key"[0] == 'i' && "attempt_count"[0] == 'a' && "execution_id"[0] == 'e' && "job_id"[0] == 'j';
  }

  /** The input becomes the body of a resolved spec that has neither a body nor a template
      for one. */
  function WithBody(spec: Json, input: Option<Json>): Json {
    if spec.Obj? && Get(spec.fields, "body") == [] && Get(spec.fields, "body_template") == [] && input.Some?
    then Obj(Insert(spec.fields, "body", input.value))
    else spec
  }

  /** Nothing but a missing body is filled in. */
  lemma BodyFilledIn(spec: Json, input: Option<Json>, name: string)
    requires spec.Obj? && Sorted(spec.fields)
    ensures WithBody(spec, input).Obj?
    ensures Get(WithBody(spec, input).fields, name) ==
              if name == "body" && Get(spec.fields, "body") == [] && Get(spec.fields, "body_template") == [] && input.Some?
              then [input.value] else Get(spec.fields, name)
  {
    if input.Some? {
      GetInserted(spec.fields, "body", input.value, name);
    }
  }
}
