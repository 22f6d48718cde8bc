/** Substring search, trimming and ordering of strings, as `str::find`, `str::trim`
    and `Ord for str` do it.  A string is a sequence of Unicode scalar values. */
module Text {
  import opened Wrappers

  /** The Unicode White_Space property, which `str::trim` strips. */
  predicate IsSpace(c: char) {
    || '\t' <= c <= '\r'
    || c == ' '
    || c == '\U{85}'
    || c == '\U{A0}'
    || c == '\U{1680}'
    || '\U{2000}' <= c <= '\U{200A}'
    || c == '\U{2028}'
    || c == '\U{2029}'
    || c == '\U{202F}'
    || c == '\U{205F}'
    || c == '\U{3000}'
  }

  /** The property by code point. */
  lemma WhiteSpaceIs(c: char)
    ensures IsSpace(c) <==>
              c as int in {9, 10, 11, 12, 13, 32, 133, 160, 5760, 8192, 8193, 8194, 8195, 8196, 8197, 8198, 8199, 8200, 8201, 8202,
                           8232, 8233, 8239, 8287, 12288}
  {
  }

  predicate Blank(s: string) {
    forall i | 0 <= i < |s| :: IsSpace(s[i])
  }

  predicate NoBraces(s: string) {
    forall i | 0 <= i < |s| :: s[i] != '{' && s[i] != '}'
  }

  function TrimStart(s: string): string {
    if s != [] && IsSpace(s[0]) then TrimStart(s[1..]) else s
  }

  function TrimEnd(s: string): string {
    if s != [] && IsSpace(s[|s| - 1]) then TrimEnd(s[..|s| - 1]) else s
  }

  function Trim(s: string): string {
    TrimEnd(TrimStart(s))
  }

  predicate EndsWith(s: string, p: string) {
    |p| <= |s| && s[|s| - |p|..] == p
  }

  /** Index of the first occurrence of `p` in `s`. */
  function Find(s: string, p: string): (r: Option<nat>)
    ensures r.Some? ==> r.value + |p| <= |s|
  {
    if p <= s then Some(0)
    else if s == [] then None
    else
      var rest := Find(s[1..], p);
      if rest.None? then None else Some(rest.value + 1)
  }

  predicate OccursAt(s: string, p: string, i: nat) {
    i <= |s| && p <= s[i..]
  }

  /** `Find` returns the least index with an occurrence, and nothing only when there is none. */
  lemma {:induction false} FindFirst(s: string, p: string)
    ensures match Find(s, p)
            case Some(at) => OccursAt(s, p, at) && forall i: nat | i < at :: !OccursAt(s, p, i)
            case None => forall i: nat :: !OccursAt(s, p, i)
  {
    if p <= s {
    } else if s != [] {
      FindFirst(s[1..], p);
      forall i: nat | 0 < i <= |s|
        ensures OccursAt(s, p, i) == OccursAt(s[1..], p, i - 1)
      {
        assert s[i..] == s[1..][i - 1..];
      }
      var rest := Find(s[1..], p);
      if rest.Some? {
        assert OccursAt(s, p, rest.value + 1) == OccursAt(s[1..], p, rest.value);
        forall i: nat | i < rest.value + 1 ensures !OccursAt(s, p, i) {
          if i > 0 { assert OccursAt(s, p, i) == OccursAt(s[1..], p, i - 1); }
        }
      } else {
        forall i: nat ensures !OccursAt(s, p, i) {
          if 0 < i <= |s| { assert OccursAt(s, p, i) == OccursAt(s[1..], p, i - 1); }
        }
      }
    }
  }

  /** Byte-wise order of UTF-8 strings, which is code point order. */
  predicate Less(a: string, b: string) {
    b != [] && (a == [] || a[0] < b[0] || (a[0] == b[0] && Less(a[1..], b[1..])))
  }

  /** A string is less if it is a proper beginning, or smaller at the first difference. */
  lemma {:induction false} LessExactly(a: string, b: string)
    ensures Less(a, b) <==> exists n: nat :: n <= |a| && n < |b| && a[..n] == b[..n] && (n == |a| || a[n] < b[n])
  {
    if a != [] && b != [] && a[0] == b[0] {
      LessExactly(a[1..], b[1..]);
      if Less(a, b) {
        var n: nat :| n <= |a[1..]| && n < |b[1..]| && a[1..][..n] == b[1..][..n] && (n == |a[1..]| || a[1..][n] < b[1..][n]);
        assert a[..n + 1] == [a[0]] + a[1..][..n] && b[..n + 1] == [b[0]] + b[1..][..n];
      }
      if n: nat :| n <= |a| && n < |b| && a[..n] == b[..n] && (n == |a| || a[n] < b[n]) {
        assert n > 0;
        assert a[1..][..n - 1] == a[..n][1..] && b[1..][..n - 1] == b[..n][1..];
      }
    } else if a == [] && b != [] {
      assert a[..0] == b[..0];
    } else if b != [] {
      assert a[..0] == b[..0];
      if n: nat :| n <= |a| && n < |b| && a[..n] == b[..n] && (n == |a| || a[n] < b[n]) {
        assert n > 0 ==> a[..n][0] == b[..n][0];
      }
    }
  }

  lemma LessTotal(a: string, b: string)
    ensures a == b || Less(a, b) || Less(b, a)
  {
    if a != [] && b != [] && a[0] == b[0] {
      LessTotal(a[1..], b[1..]);
      assert a == [a[0]] + a[1..] && b == [b[0]] + b[1..];
    }
  }

  lemma LessTransitive(a: string, b: string, c: string)
    requires Less(a, b) && Less(b, c)
    ensures Less(a, c)
  {
    if a != [] && a[0] == b[0] == c[0] {
      LessTransitive(a[1..], b[1..], c[1..]);
    }
  }

  lemma LessIrreflexive(a: string, b: string)
    requires Less(a, b)
    ensures a != b && !Less(b, a)
  {
    if a != [] && a[0] == b[0] {
      LessIrreflexive(a[1..], b[1..]);
    }
  }

  // Trimming

  lemma TrimStartBlank(pad: string, s: string)
    requires Blank(pad)
    ensures TrimStart(pad + s) == TrimStart(s)
  {
    if pad == [] {
      assert pad + s == s;
    } else {
      assert (pad + s)[1..] == pad[1..] + s;
      TrimStartBlank(pad[1..], s);
    }
  }

  lemma TrimEndBlank(s: string, pad: string)
    requires Blank(pad)
    ensures TrimEnd(s + pad) == TrimEnd(s)
  {
    if pad == [] {
      assert s + pad == s;
    } else {
      assert (s + pad)[..|s + pad| - 1] == s + pad[..|pad| - 1];
      TrimEndBlank(s, pad[..|pad| - 1]);
    }
  }

  /** Trimming splits a string into blank edges and a core with solid ends. */
  lemma TrimEndShape(s: string) returns (tail: string)
    ensures Blank(tail) && s == TrimEnd(s) + tail
    ensures TrimEnd(s) != [] ==> !IsSpace(TrimEnd(s)[|TrimEnd(s)| - 1])
  {
    if s != [] && IsSpace(s[|s| - 1]) {
      var t := TrimEndShape(s[..|s| - 1]);
      tail := t + [s[|s| - 1]];
      assert s == s[..|s| - 1] + [s[|s| - 1]];
    } else {
      tail := [];
    }
  }

  lemma TrimStartShape(s: string) returns (head: string)
    ensures Blank(head) && s == head + TrimStart(s)
    ensures TrimStart(s) != [] ==> !IsSpace(TrimStart(s)[0])
  {
    if s != [] && IsSpace(s[0]) {
      var h := TrimStartShape(s[1..]);
      head := [s[0]] + h;
      assert s == [s[0]] + s[1..];
    } else {
      head := [];
    }
  }

  /** A core with solid ends survives trimming whatever blank padding surrounds it. */
  lemma TrimPadded(lead: string, core: string, trail: string)
    requires Blank(lead) && Blank(trail)
    requires core != [] ==> !IsSpace(core[0]) && !IsSpace(core[|core| - 1])
    ensures Trim(lead + core + trail) == core
  {
    assert lead + core + trail == lead + (core + trail);
    TrimStartBlank(lead, core + trail);
    if core == [] {
      assert core + trail == trail + [];
      TrimStartBlank(trail, []);
    } else {
      assert TrimStart(core + trail) == core + trail;
      TrimEndBlank(core, trail);
    }
  }
}
