/** Small vocabulary shared by the models: optional values, duplicate-free
    sequences and the cardinality facts they need. */
module Prelude {

  /** How a commit turns out: it takes effect, it does although the caller is told that it
      failed, or it does not. */
  datatype CommitFault = Acked | AckLost | Rejected

  datatype Option<+T> = None | Some(value: T)

  ghost predicate Distinct<T>(s: seq<T>) {
    forall i, j :: 0 <= i < j < |s| ==> s[i] != s[j]
  }

  function Elements<T>(s: seq<T>): set<T> {
    set x | x in s
  }

  lemma {:induction false} DistinctCardinality<T>(s: seq<T>)
    requires Distinct(s)
    ensures |Elements(s)| == |s|
  {
    if s != [] {
      DistinctCardinality(s[1..]);
      assert Elements(s) == {s[0]} + Elements(s[1..]);
      assert s[0] !in Elements(s[1..]);
    } else {
      assert Elements(s) == {};
    }
  }

  lemma {:induction false} SubsetCardinality<T>(a: set<T>, b: set<T>)
    requires a <= b
    ensures |a| <= |b|
    ensures |a| == |b| ==> a == b
  {
    if a != {} {
      var x :| x in a;
      SubsetCardinality(a - {x}, b - {x});
      assert b == (b - {x}) + {x};
      assert a == (a - {x}) + {x};
    } else if b != {} {
      var y :| y in b;
      assert |b| == |b - {y}| + 1;
    }
  }

  lemma UnionCardinality<T>(a: set<T>, b: set<T>)
    requires a !! b
    ensures |a + b| == |a| + |b|
  {
  }

  // ----- letters -----

  function ToUpper(s: string): string {
    seq(|s|, i requires 0 <= i < |s| =>
      if 'a' <= s[i] <= 'z' then (s[i] as int - 'a' as int + 'A' as int) as char else s[i])
  }

  /** Upper case goes letter by letter, and leaves everything but a-z alone. */
  lemma UpperCase(s: string, t: string)
    ensures ToUpper(s + t) == ToUpper(s) + ToUpper(t)
    ensures ToUpper("abcdefghijklmnopqrstuvwxyz") == "ABCDEFGHIJKLMNOPQRSTUVWXYZ"
    ensures (forall i :: 0 <= i < |s| ==> s[i] < 'a' || 'z' < s[i]) ==> ToUpper(s) == s
  {
  }
}
