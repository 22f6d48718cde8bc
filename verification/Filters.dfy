/** Query-string filters of the jobs list: crates/api/src/extractors.rs. */
module Filters {
  import opened Wrappers
  import opened Text
  import opened Basics

  datatype Pair = Pair(key: string, value: string)

  /** `split(',')`: one piece more than there are commas. */
  function Split(s: string): (r: seq<string>)
    ensures r != []
  {
    if s == [] then [""]
    else if s[0] == ',' then [""] + Split(s[1..])
    else var r := Split(s[1..]); [[s[0]] + r[0]] + r[1..]
  }

  /** A string without a comma is one piece. */
  lemma {:induction false} SplitPlain(s: string)
    requires forall i | 0 <= i < |s| :: s[i] != ','
    ensures Split(s) == [s]
  {
    if s != [] {
      SplitPlain(s[1..]);
      assert [s[0]] + s[1..] == s;
      assert [s[1..]][1..] == [];
    }
  }

  /** A piece list with one character put in front of its first piece. */
  function InFront(c: char, pieces: seq<string>): (r: seq<string>)
    requires pieces != []
    ensures r != []
  {
    if c == ',' then [""] + pieces else [[c] + pieces[0]] + pieces[1..]
  }

  lemma SplitInFront(c: char, s: string)
    ensures Split([c] + s) == InFront(c, Split(s))
  {
    assert ([c] + s)[1..] == s;
  }

  lemma InFrontAppend(c: char, t: seq<string>, u: seq<string>)
    requires t != []
    ensures InFront(c, t + u) == InFront(c, t) + u
  {
  }

  lemma {:induction false} SplitJoined(a: string, b: string)
    ensures Split(a + "," + b) == Split(a) + Split(b)
  {
    if a == [] {
      assert a + "," + b == [','] + b;
      SplitInFront(',', b);
      assert Split("") == [""];
    } else {
      hide Split, InFront;
      SplitJoined(a[1..], b);
      SplitInFront(a[0], a[1..]);
      SplitInFront(a[0], a[1..] + "," + b);
      InFrontAppend(a[0], Split(a[1..]), Split(b));
      assert a == [a[0]] + a[1..];
      assert a + "," + b == [a[0]] + (a[1..] + "," + b);
    }
  }

  /** The token in a piece, if it is not blank. */
  function Token(piece: string): seq<string> {
    if Trim(piece) == "" then [] else [Trim(piece)]
  }

  function NonBlank(pieces: seq<string>): seq<string> {
    if pieces == [] then [] else Token(pieces[0]) + NonBlank(pieces[1..])
  }

  lemma NonBlankOne(piece: string)
    ensures NonBlank([piece]) == Token(piece)
  {
    hide Token;
    assert [piece][1..] == [];
    Assoc(Token(piece), [], []);
  }

  lemma {:induction false} NonBlankAppend(a: seq<string>, b: seq<string>)
    ensures NonBlank(a + b) == NonBlank(a) + NonBlank(b)
  {
    hide Token;
    if a == [] {
      Assoc(b, [], NonBlank(b));
      Assoc(NonBlank(b), [], []);
    } else {
      NonBlankAppend(a[1..], b);
      HeadTail(a, b);
      Assoc(Token(a[0]), NonBlank(a[1..]), NonBlank(b));
    }
  }

  /** Every token given for the key, in order. */
  function Tokens(pairs: seq<Pair>, key: string): seq<string> {
    if pairs == [] then []
    else (if pairs[0].key == key then NonBlank(Split(pairs[0].value)) else []) + Tokens(pairs[1..], key)
  }

  lemma {:induction false} TokensAppend(a: seq<Pair>, b: seq<Pair>, key: string)
    ensures Tokens(a + b, key) == Tokens(a, key) + Tokens(b, key)
  {
    hide NonBlank, Split;
    if a == [] {
      Assoc(b, [], []);
      Assoc(Tokens(b, key), [], []);
    } else {
      TokensAppend(a[1..], b, key);
      HeadTail(a, b);
      Assoc(if a[0].key == key then NonBlank(Split(a[0].value)) else [], Tokens(a[1..], key), Tokens(b, key));
    }
  }

  /** One pair whose value is cut at a comma says the same as two pairs. */
  lemma CutAtComma(before: seq<Pair>, name: string, a: string, b: string, rest: seq<Pair>, key: string)
    ensures Tokens(before + [Pair(name, a + "," + b)] + rest, key) == Tokens(before + [Pair(name, a), Pair(name, b)] + rest, key)
  {
    var one, two := [Pair(name, a + "," + b)], [Pair(name, a), Pair(name, b)];
    SplitJoined(a, b);
    NonBlankAppend(Split(a), Split(b));
    assert Tokens(one, key) == Tokens(two, key) by {
      hide Split, NonBlank;
      assert one[1..] == [] && two[1..] == [Pair(name, b)] && two[1..][1..] == [];
    }
    hide Tokens, Split;
    TokensAppend(before, one, key);
    TokensAppend(before + one, rest, key);
    TokensAppend(before, two, key);
    TokensAppend(before + two, rest, key);
  }

  predicate AllParse<T>(tokens: seq<string>, parse: string -> Option<T>) {
    forall i | 0 <= i < |tokens| :: parse(tokens[i]).Some?
  }

  function Values<T>(tokens: seq<string>, parse: string -> Option<T>): (r: seq<T>)
    requires AllParse(tokens, parse)
    ensures |r| == |tokens| && forall i | 0 <= i < |r| :: r[i] == parse(tokens[i]).value
  {
    if tokens == [] then [] else Values(tokens[..|tokens| - 1], parse) + [parse(tokens[|tokens| - 1]).value]
  }

  /** The elements in the order they first appear. */
  function FirstAppearances<T(==)>(values: seq<T>): (r: seq<T>)
    ensures forall i | 0 <= i < |r| :: r[i] in values
    ensures forall i | 0 <= i < |values| :: values[i] in r
  {
    if values == [] then []
    else
      var n := |values| - 1;
      var r := FirstAppearances(values[..n]);
      assert values == values[..n] + [values[n]];
      if values[n] in r then r else r + [values[n]]
  }

  /** The position at which an element first appears. */
  function FirstIndex<T(==)>(values: seq<T>, v: T): (r: nat)
    requires v in values
    ensures r < |values| && values[r] == v && v !in values[..r]
  {
    if values[0] == v then 0
    else
      var r := FirstIndex(values[1..], v);
      assert values[..r + 1] == [values[0]] + values[1..][..r];
      r + 1
  }

  predicate InOrder<T(==)>(values: seq<T>, r: seq<T>)
    requires forall i | 0 <= i < |r| :: r[i] in values
  {
    forall i, j | 0 <= i < j < |r| :: FirstIndex(values, r[i]) < FirstIndex(values, r[j])
  }

  /** In order of first appearance, and so no element twice. */
  lemma {:induction false} FirstAppearancesAre<T>(values: seq<T>)
    ensures InOrder(values, FirstAppearances(values))
  {
    if values != [] {
      var n := |values| - 1;
      var before, last := values[..n], values[n];
      FirstAppearancesAre(before);
      assert values == before + [last];
      var kept := FirstAppearances(before);
      StillInOrder(before, last, kept);
      if last !in kept {
        AppendInOrder(before, last, kept);
      }
    }
  }

  lemma StillInOrder<T>(before: seq<T>, last: T, kept: seq<T>)
    requires (forall i | 0 <= i < |kept| :: kept[i] in before) && InOrder(before, kept)
    ensures InOrder(before + [last], kept)
  {
    forall i | 0 <= i < |kept| ensures FirstIndex(before + [last], kept[i]) == FirstIndex(before, kept[i]) {
      SameFirstIndex(before, last, kept[i]);
    }
    hide FirstIndex;
  }

  lemma AppendInOrder<T>(before: seq<T>, last: T, kept: seq<T>)
    requires (forall i | 0 <= i < |kept| :: kept[i] in before) && last !in before && InOrder(before + [last], kept)
    ensures InOrder(before + [last], kept + [last])
  {
    LastIndex(before, last);
    forall i | 0 <= i < |kept| ensures FirstIndex(before + [last], kept[i]) < |before| {
      SameFirstIndex(before, last, kept[i]);
    }
    hide FirstIndex;
  }

  lemma NoRepeats<T>(values: seq<T>)
    ensures forall i, j | 0 <= i < j < |FirstAppearances(values)| :: FirstAppearances(values)[i] != FirstAppearances(values)[j]
  {
    FirstAppearancesAre(values);
    hide FirstIndex, FirstAppearances;
  }

  lemma LastIndex<T>(before: seq<T>, last: T)
    requires last !in before
    ensures FirstIndex(before + [last], last) == |before|
  {
    var values := before + [last];
    var k := FirstIndex(values, last);
    assert forall m | 0 <= m < |before| :: values[m] == before[m] && before[m] in before;
  }

  lemma SameFirstIndex<T>(before: seq<T>, last: T, v: T)
    requires v in before
    ensures FirstIndex(before + [last], v) == FirstIndex(before, v)
  {
    var values := before + [last];
    var i, k := FirstIndex(before, v), FirstIndex(values, v);
    assert values[..i] == before[..i] && values[i] == v;
    assert k <= i by {
      assert forall m | 0 <= m < k :: values[..k][m] == values[m];
    }
    assert before[..k] == values[..k];
    assert forall m | 0 <= m < i :: before[..i][m] == before[m];
  }

  lemma AppendValue<T>(tokens: seq<string>, token: string, parse: string -> Option<T>)
    requires AllParse(tokens, parse) && parse(token).Some?
    ensures AllParse(tokens + [token], parse)
    ensures Values(tokens + [token], parse) == Values(tokens, parse) + [parse(token).value]
  {
    assert (tokens + [token])[..|tokens|] == tokens;
  }

  /** The error is about this token: it does not parse, and all before it do. */
  predicate FirstBad<T>(tokens: seq<string>, parse: string -> Option<T>, bad: string) {
    exists i | 0 <= i < |tokens| :: tokens[i] == bad && parse(bad).None? && AllParse(tokens[..i], parse)
  }

  /** The tokens of one value, added to those of the values before it. */
  method AddTokens<T(==)>(value: string, parse: string -> Option<T>, before: seq<T>, ghost done: seq<string>)
    returns (out: seq<T>, bad: Option<string>)
    requires AllParse(done, parse) && before == FirstAppearances(Values(done, parse))
    ensures var tokens := done + NonBlank(Split(value));
            match bad
            case None => AllParse(tokens, parse) && out == FirstAppearances(Values(tokens, parse))
            case Some(token) => FirstBad(tokens, parse, token)
  {
    hide Trim, Split, Values, FirstAppearances, NonBlank, AllParse, Token, FirstBad, Seen;
    out := before;
    var pieces := Split(value);
    SeenEnds(done, pieces);
    for j := 0 to |pieces|
      invariant AllParse(Seen(done, pieces, j), parse)
      invariant out == FirstAppearances(Values(Seen(done, pieces, j), parse))
    {
      SeenNext(done, pieces, j);
      var token := Trim(pieces[j]);
      if token == "" {
        continue;
      }
      var parsed := parse(token);
      if parsed.None? {
        BadToken(done + NonBlank(pieces), Seen(done, pieces, j), token, NonBlank(pieces[j + 1..]), parse);
        return out, Some(token);
      }
      Accept(Seen(done, pieces, j), token, parse, out);
      if parsed.value !in out {
        out := out + [parsed.value];
      }
    }
    return out, None;
  }

  /** `parse_filter_list` succeeds exactly when every token parses; the result then holds each
      value once, in order of first appearance, and otherwise names the first bad token. */
  method ParseFilterList<T(==)>(pairs: seq<Pair>, key: string, parse: string -> Option<T>) returns (r: Result<seq<T>, string>)
    ensures r.Success? <==> AllParse(Tokens(pairs, key), parse)
    ensures r.Success? ==> r.value == FirstAppearances(Values(Tokens(pairs, key), parse))
    ensures r.Failure? ==> FirstBad(Tokens(pairs, key), parse, r.error)
  {
    hide Trim, Split, Values, FirstAppearances, Tokens, NonBlank, AllParse, Token, FirstBad;
    var out: seq<T> := [];
    NothingYet(pairs, key, parse);
    for i := 0 to |pairs|
      invariant AllParse(Tokens(pairs[..i], key), parse)
      invariant out == FirstAppearances(Values(Tokens(pairs[..i], key), parse))
    {
      PairStep(pairs, i, key);
      if pairs[i].key != key {
        continue;
      }
      var bad;
      out, bad := AddTokens(pairs[i].value, parse, out, Tokens(pairs[..i], key));
      if bad.Some? {
        BadStays(Tokens(pairs[..i], key) + NonBlank(Split(pairs[i].value)), Tokens(pairs[i + 1..], key), parse, bad.value);
        return Failure(bad.value);
      }
    }
    assert pairs[..|pairs|] == pairs;
    return Success(out);
  }

  lemma BadStays<T>(tokens: seq<string>, rest: seq<string>, parse: string -> Option<T>, bad: string)
    requires FirstBad(tokens, parse, bad)
    ensures FirstBad(tokens + rest, parse, bad) && !AllParse(tokens + rest, parse)
  {
    var i :| 0 <= i < |tokens| && tokens[i] == bad && parse(bad).None? && AllParse(tokens[..i], parse);
    assert (tokens + rest)[i] == bad && (tokens + rest)[..i] == tokens[..i];
  }

  lemma NothingYet<T>(pairs: seq<Pair>, key: string, parse: string -> Option<T>)
    ensures Tokens(pairs[..0], key) == [] && AllParse([], parse) && FirstAppearances(Values([], parse)) == []
  {
  }

  /** The tokens before these pieces, and those of the first `j` pieces. */
  function Seen(done: seq<string>, pieces: seq<string>, j: nat): seq<string>
    requires j <= |pieces|
  {
    done + NonBlank(pieces[..j])
  }

  lemma SeenEnds(done: seq<string>, pieces: seq<string>)
    ensures Seen(done, pieces, 0) == done && Seen(done, pieces, |pieces|) == done + NonBlank(pieces)
  {
    assert pieces[..|pieces|] == pieces;
  }

  lemma SeenNext(done: seq<string>, pieces: seq<string>, j: nat)
    requires j < |pieces|
    ensures var token := Trim(pieces[j]);
            Seen(done, pieces, j + 1) == if token == "" then Seen(done, pieces, j) else Seen(done, pieces, j) + [token]
    ensures done + NonBlank(pieces) == Seen(done, pieces, j + 1) + NonBlank(pieces[j + 1..])
  {
    hide Trim, NonBlank;
    PieceTaken(pieces, j);
    TokenIs(pieces[j]);
    hide Token;
    PiecesCut(pieces, j + 1);
    Assoc(done, NonBlank(pieces[..j]), Token(pieces[j]));
    Assoc(done, NonBlank(pieces[..j + 1]), NonBlank(pieces[j + 1..]));
    Assoc(Seen(done, pieces, j), [], []);
  }

  lemma PairStep(pairs: seq<Pair>, i: nat, key: string)
    requires i < |pairs|
    ensures Tokens(pairs[..i + 1], key) ==
              if pairs[i].key == key then Tokens(pairs[..i], key) + NonBlank(Split(pairs[i].value)) else Tokens(pairs[..i], key)
    ensures Tokens(pairs, key) == Tokens(pairs[..i + 1], key) + Tokens(pairs[i + 1..], key)
  {
    Cut(pairs, i);
    Cut(pairs, i + 1);
    assert [pairs[i]][1..] == [];
    Assoc(Tokens(pairs[..i], key), [], []);
    Assoc(NonBlank(Split(pairs[i].value)), [], []);
    TokensAppend(pairs[..i], [pairs[i]], key);
    TokensAppend(pairs[..i + 1], pairs[i + 1..], key);
    hide Split, NonBlank;
  }

  lemma TokenIs(piece: string)
    ensures Token(piece) == if Trim(piece) == "" then [] else [Trim(piece)]
  {
  }

  lemma PiecesCut(pieces: seq<string>, j: nat)
    requires j <= |pieces|
    ensures NonBlank(pieces) == NonBlank(pieces[..j]) + NonBlank(pieces[j..])
  {
    hide NonBlank;
    Cut(pieces, j);
    NonBlankAppend(pieces[..j], pieces[j..]);
  }

  lemma PieceTaken(pieces: seq<string>, j: nat)
    requires j < |pieces|
    ensures NonBlank(pieces[..j + 1]) == NonBlank(pieces[..j]) + Token(pieces[j])
  {
    hide NonBlank, Token;
    Cut(pieces, j);
    NonBlankOne(pieces[j]);
    NonBlankAppend(pieces[..j], [pieces[j]]);
  }

  lemma Accept<T>(done: seq<string>, token: string, parse: string -> Option<T>, out: seq<T>)
    requires AllParse(done, parse) && out == FirstAppearances(Values(done, parse)) && parse(token).Some?
    ensures AllParse(done + [token], parse)
    ensures var v := parse(token).value;
            FirstAppearances(Values(done + [token], parse)) == if v in out then out else out + [v]
  {
    hide FirstAppearances, Values;
    AppendValue(done, token, parse);
    AppendFirst(Values(done, parse), parse(token).value);
  }

  lemma AppendFirst<T>(values: seq<T>, v: T)
    ensures FirstAppearances(values + [v]) == if v in FirstAppearances(values) then FirstAppearances(values) else FirstAppearances(values) + [v]
  {
    assert (values + [v])[..|values|] == values;
  }

  lemma BadToken<T>(tokens: seq<string>, done: seq<string>, token: string, rest: seq<string>, parse: string -> Option<T>)
    requires tokens == done + [token] + rest && AllParse(done, parse) && parse(token).None?
    ensures FirstBad(tokens, parse, token)
  {
    assert tokens[|done|] == token && tokens[..|done|] == done;
  }

  /** `last_scalar` */
  function LastScalar(pairs: seq<Pair>, key: string): Option<string> {
    if pairs == [] then None
    else
      var n := |pairs| - 1;
      if pairs[n].key == key && Trim(pairs[n].value) != "" then Some(Trim(pairs[n].value)) else LastScalar(pairs[..n], key)
  }

  /** The value kept is that of the last pair with the key that is not blank. */
  lemma {:induction false} LastScalarIsLast(pairs: seq<Pair>, key: string, v: string)
    ensures LastScalar(pairs, key) == Some(v) <==>
              exists i | 0 <= i < |pairs| ::
                && pairs[i].key == key && Trim(pairs[i].value) == v && v != ""
                && (forall k | i < k < |pairs| :: pairs[k].key != key || Trim(pairs[k].value) == "")
  {
    hide Trim;
    if pairs != [] {
      var n := |pairs| - 1;
      LastScalarIsLast(pairs[..n], key, v);
    }
  }
}
