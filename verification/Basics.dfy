/** Arithmetic, counting and sequence facts used in several modules. */
module Basics {
  function Max(a: int, b: int): int {
    if a >= b then a else b
  }

  lemma SubsetCount<T>(a: set<T>, b: set<T>)
    requires a <= b
    ensures |a| <= |b|
  {
    if a != {} {
      var t :| t in a;
      SubsetCount(a - {t}, b - {t});
    }
  }

  lemma Cut<T>(s: seq<T>, j: nat)
    requires j <= |s|
    ensures s == s[..j] + s[j..]
    ensures j < |s| ==> s[..j + 1] == s[..j] + [s[j]]
  {
  }

  lemma Assoc<T>(a: seq<T>, b: seq<T>, c: seq<T>)
    ensures (a + b) + c == a + (b + c)
    ensures a + [] == a == [] + a
  {
  }

  lemma HeadTail<T>(a: seq<T>, b: seq<T>)
    requires a != []
    ensures (a + b)[0] == a[0] && (a + b)[1..] == a[1..] + b
  {
  }
}
