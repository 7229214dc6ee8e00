/** Facts about sequences without repeated elements, shared by the other modules. */
module Seqs {

  /** No element occurs twice in `s`. */
  ghost predicate NoDups<T>(s: seq<T>) {
    forall a, b :: 0 <= a < b < |s| ==> s[a] != s[b]
  }

  /** A concatenation has no repeats exactly when neither part has and they share nothing. */
  lemma NoDupsAppend<T>(s: seq<T>, t: seq<T>)
    ensures NoDups(s + t) <==> NoDups(s) && NoDups(t) && (forall x :: x in s ==> x !in t)
  {
    if NoDups(s + t) {
      forall x | x in s ensures x !in t {
        var a :| 0 <= a < |s| && s[a] == x;
        forall b | 0 <= b < |t| ensures t[b] != x {
          assert (s + t)[a] == s[a] && (s + t)[|s| + b] == t[b];
        }
      }
      assert forall a :: 0 <= a < |s| ==> s[a] == (s + t)[a];
      assert forall a :: 0 <= a < |t| ==> t[a] == (s + t)[|s| + a];
    } else if NoDups(s) && NoDups(t) && (forall x :: x in s ==> x !in t) {
      forall a, b | 0 <= a < b < |s + t| ensures (s + t)[a] != (s + t)[b] {
        if b < |s| {
          assert (s + t)[a] == s[a] && (s + t)[b] == s[b];
        } else if a >= |s| {
          assert (s + t)[a] == t[a - |s|] && (s + t)[b] == t[b - |s|];
        } else {
          assert (s + t)[a] == s[a] && (s + t)[b] == t[b - |s|];
          assert s[a] in s && s[a] !in t;
        }
      }
    }
  }

  /** A sequence without repeats has as many distinct elements as positions. */
  lemma {:induction false} NoDupsCardinality<T>(s: seq<T>)
    requires NoDups(s)
    ensures |set x | x in s| == |s|
  {
    if s != [] {
      var t := s[1..];
      assert NoDups(t) by {
        assert forall a, b :: 0 <= a < b < |t| ==> t[a] == s[a + 1] && t[b] == s[b + 1];
      }
      NoDupsCardinality(t);
      assert s[0] !in t by {
        assert forall a :: 0 <= a < |t| ==> t[a] == s[a + 1];
      }
      assert (set x | x in s) == {s[0]} + (set x | x in t) by {
        assert s == [s[0]] + t;
      }
    }
  }
}
