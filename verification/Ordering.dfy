/** Code-point order on strings, and the sorted listing of a collection of names. */
module Ordering {

  predicate LexLt(a: string, b: string) {
    if b == "" then false
    else if a == "" then true
    else if a[0] != b[0] then a[0] < b[0]
    else LexLt(a[1..], b[1..])
  }

  lemma {:induction false} LexTotal(a: string, b: string)
    ensures LexLt(a, b) || LexLt(b, a) || a == b
    ensures !(LexLt(a, b) && LexLt(b, a)) && !LexLt(a, a)
  {
    if a != "" && b != "" && a[0] == b[0] {
      LexTotal(a[1..], b[1..]);
      assert a == [a[0]] + a[1..] && b == [b[0]] + b[1..];
    }
    if a != "" { LexTotal(a[1..], a[1..]); }
  }

  /** A string comes before another if it is a proper prefix of it, or has the smaller character where they first
      differ. */
  lemma {:induction false} LexLtMeans(a: string, b: string)
    ensures LexLt(a, b) <==> a < b || exists i :: 0 <= i < |a| && i < |b| && a[..i] == b[..i] && a[i] < b[i]
  {
    if a != "" && b != "" {
      if a[0] == b[0] {
        LexLtMeans(a[1..], b[1..]);
        LexTails(a, b);
      } else if a[0] < b[0] {
        assert a[..0] == b[..0];
      } else {
        forall i | 0 < i < |a| && i < |b| ensures a[..i] != b[..i] {
          assert a[..i][0] == a[0] && b[..i][0] == b[0];
        }
      }
    }
  }

  lemma LexTails(a: string, b: string)
    requires a != "" && b != "" && a[0] == b[0]
    ensures a < b <==> a[1..] < b[1..]
    ensures (exists i :: 0 <= i < |a| && i < |b| && a[..i] == b[..i] && a[i] < b[i])
      <==> exists i :: 0 <= i < |a[1..]| && i < |b[1..]| && a[1..][..i] == b[1..][..i] && a[1..][i] < b[1..][i]
  {
    if i :| 0 <= i < |a| && i < |b| && a[..i] == b[..i] && a[i] < b[i] {
      assert a[1..][..i - 1] == a[..i][1..] == b[..i][1..] == b[1..][..i - 1];
      assert a[1..][i - 1] < b[1..][i - 1];
    }
    if i :| 0 <= i < |a[1..]| && i < |b[1..]| && a[1..][..i] == b[1..][..i] && a[1..][i] < b[1..][i] {
      assert a[..i + 1] == [a[0]] + a[1..][..i] && b[..i + 1] == [b[0]] + b[1..][..i];
      assert a[i + 1] < b[i + 1];
    }
  }

  lemma {:induction false} LexTransitive(a: string, b: string, c: string)
    requires LexLt(a, b) && LexLt(b, c)
    ensures LexLt(a, c)
  {
    if a != "" && a[0] == b[0] == c[0] {
      LexTransitive(a[1..], b[1..], c[1..]);
    }
  }

  /** Strictly ascending: sorted and without repeats. */
  ghost predicate Ascending(names: seq<string>) {
    forall i, j | 0 <= i < j < |names| :: LexLt(names[i], names[j])
  }

  function Insert(x: string, sorted: seq<string>): seq<string> {
    if sorted == [] then [x]
    else if x == sorted[0] then sorted
    else if LexLt(x, sorted[0]) then [x] + sorted
    else [sorted[0]] + Insert(x, sorted[1..])
  }

  /** `sorted` of the set of the given names. */
  function SortedDistinct(names: seq<string>): seq<string> {
    if names == [] then [] else Insert(names[0], SortedDistinct(names[1..]))
  }

  function Elements<T>(s: seq<T>): set<T> { set x | x in s }

  lemma {:induction false} InsertElements(x: string, sorted: seq<string>)
    ensures Elements(Insert(x, sorted)) == Elements(sorted) + {x}
  {
    if sorted != [] && x != sorted[0] && !LexLt(x, sorted[0]) {
      InsertElements(x, sorted[1..]);
      assert sorted == [sorted[0]] + sorted[1..];
      assert forall y :: y in Insert(x, sorted) <==> y == sorted[0] || y in Insert(x, sorted[1..]);
      assert forall y :: y in Insert(x, sorted[1..]) <==> y in Elements(sorted[1..]) + {x};
    }
  }

  lemma {:induction false} InsertAscending(x: string, sorted: seq<string>)
    requires Ascending(sorted)
    ensures Ascending(Insert(x, sorted))
  {
    if sorted == [] || x == sorted[0] {
    } else if LexLt(x, sorted[0]) {
      forall j | 0 < j < |sorted| ensures LexLt(x, sorted[j]) { LexTransitive(x, sorted[0], sorted[j]); }
    } else {
      var rest := sorted[1..];
      InsertAscending(x, rest);
      InsertElements(x, rest);
      LexTotal(x, sorted[0]);
      var all := Insert(x, rest);
      forall j | 0 <= j < |all| ensures LexLt(sorted[0], all[j]) {
        assert all[j] in Elements(rest) + {x};
        if all[j] != x {
          var k :| 0 <= k < |rest| && rest[k] == all[j];
          assert LexLt(sorted[0], sorted[k + 1]);
        }
      }
    }
  }

  /** The listing is strictly ascending and has exactly the given names. */
  lemma {:induction false} SortedDistinctIsSorted(names: seq<string>)
    ensures Ascending(SortedDistinct(names))
    ensures Elements(SortedDistinct(names)) == Elements(names)
  {
    if names != [] {
      SortedDistinctIsSorted(names[1..]);
      InsertAscending(names[0], SortedDistinct(names[1..]));
      InsertElements(names[0], SortedDistinct(names[1..]));
      assert names == [names[0]] + names[1..];
    }
  }

  /** A strictly ascending list is its own listing. */
  lemma {:induction false} SortedDistinctIdentity(names: seq<string>)
    requires Ascending(names)
    ensures SortedDistinct(names) == names
  {
    if names != [] {
      SortedDistinctIdentity(names[1..]);
      if |names| > 1 { LexTotal(names[0], names[1]); }
    }
  }

  /** Two strictly ascending lists of the same names are equal. */
  lemma {:induction false} AscendingUnique(a: seq<string>, b: seq<string>)
    requires Ascending(a) && Ascending(b) && Elements(a) == Elements(b)
    ensures a == b
  {
    NoElements(a);
    NoElements(b);
    if a != [] {
      HeadIsLeast(a, b);
      HeadIsLeast(b, a);
      LexTotal(a[0], b[0]);
      TailElements(a);
      TailElements(b);
      AscendingUnique(a[1..], b[1..]);
      assert a == [a[0]] + a[1..] && b == [b[0]] + b[1..];
    }
  }

  lemma NoElements(a: seq<string>)
    ensures Elements(a) == {} <==> a == []
  {
    assert a != [] ==> a[0] in Elements(a);
  }

  lemma HeadIsLeast(a: seq<string>, b: seq<string>)
    requires a != [] && b != [] && Ascending(a) && Elements(a) == Elements(b)
    ensures a[0] == b[0] || LexLt(a[0], b[0])
  {
    assert b[0] in Elements(a);
    var k :| 0 <= k < |a| && a[k] == b[0];
  }

  lemma TailElements(a: seq<string>)
    requires a != [] && Ascending(a)
    ensures Elements(a[1..]) == Elements(a) - {a[0]}
  {
    forall k | 1 <= k < |a| ensures a[k] != a[0] { LexTotal(a[0], a[0]); }
    assert a == [a[0]] + a[1..];
  }
}
