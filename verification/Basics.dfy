/** Shared vocabulary: options, the code-point order Python's sorted() uses on
    strings, and the sorted listing of a finite set of identifiers. */
module Basics {
  datatype Option<+T> = None | Some(value: T)

  /** Lexicographic order by code point. */
  predicate StrLe(a: string, b: string)
    decreases |a|
  {
    a == [] ||
    (b != [] && (a[0] < b[0] || (a[0] == b[0] && StrLe(a[1..], b[1..]))))
  }

  predicate StrLt(a: string, b: string) {
    StrLe(a, b) && a != b
  }

  /** At the first difference the smaller character decides, else the shorter string. */
  predicate Differs(a: string, b: string, k: nat) {
    k < |a| && k < |b| && a[..k] == b[..k] && a[k] < b[k]
  }

  lemma {:induction false} StrLeSays(a: string, b: string)
    ensures StrLe(a, b) <==> a <= b || exists k: nat :: Differs(a, b, k)
    decreases |a|
  {
    if a != [] && b != [] && a[0] == b[0] {
      StrLeSays(a[1..], b[1..]);
      if k: nat :| Differs(a[1..], b[1..], k) {
        assert a[..k + 1] == [a[0]] + a[1..][..k] && b[..k + 1] == [b[0]] + b[1..][..k];
        assert Differs(a, b, k + 1);
      }
      if k: nat :| Differs(a, b, k) {
        assert k > 0;
        assert a[1..][..k - 1] == a[..k][1..] && b[1..][..k - 1] == b[..k][1..];
        assert Differs(a[1..], b[1..], k - 1);
      }
      assert a <= b <==> a[1..] <= b[1..] by {
        assert a == [a[0]] + a[1..] && b == [b[0]] + b[1..];
      }
    } else if a != [] && b != [] {
      assert a[0] < b[0] ==> Differs(a, b, 0);
      assert forall k: nat :: Differs(a, b, k) && k > 0 ==> a[..k][0] == b[..k][0];
    }
  }

  lemma StrLeTotal(a: string, b: string)
    ensures StrLe(a, b) || StrLe(b, a)
    decreases |a|
  {
    if a != [] && b != [] && a[0] == b[0] {
      StrLeTotal(a[1..], b[1..]);
    }
  }

  lemma StrLeAntisymmetric(a: string, b: string)
    requires StrLe(a, b) && StrLe(b, a)
    ensures a == b
    decreases |a|
  {
    if a != [] && b != [] {
      StrLeAntisymmetric(a[1..], b[1..]);
      assert a == [a[0]] + a[1..] && b == [b[0]] + b[1..];
    }
  }

  lemma StrLeTransitive(a: string, b: string, c: string)
    requires StrLe(a, b) && StrLe(b, c)
    ensures StrLe(a, c)
    decreases |a|
  {
    if a != [] && a[0] == b[0] == c[0] {
      StrLeTransitive(a[1..], b[1..], c[1..]);
    }
  }

  predicate Ascending(ids: seq<string>) {
    forall i, j :: 0 <= i < j < |ids| ==> StrLt(ids[i], ids[j])
  }

  /** In strict order of what each is known by. */
  predicate OrderedBy<T>(items: seq<T>, id: T -> string) {
    forall i, j :: 0 <= i < j < |items| ==> StrLt(id(items[i]), id(items[j]))
  }

  predicate IsLeast(s: set<string>, m: string) {
    m in s && forall x :: x in s ==> StrLe(m, x)
  }

  lemma LeastExists(s: set<string>)
    requires s != {}
    ensures exists m :: IsLeast(s, m)
  {
    var x :| x in s;
    if s == {x} {
      StrLeTotal(x, x);
      assert IsLeast(s, x);
    } else {
      var rest := s - {x};
      assert s == rest + {x};
      LeastExists(rest);
      var m :| IsLeast(rest, m);
      StrLeTotal(x, m);
      StrLeTotal(x, x);
      if StrLe(x, m) {
        forall y | y in s
          ensures StrLe(x, y)
        {
          if y != x { StrLeTransitive(x, m, y); }
        }
        assert IsLeast(s, x);
      } else {
        assert IsLeast(s, m);
      }
    }
  }

  lemma LeastUnique()
    ensures forall s, m, n :: IsLeast(s, m) && IsLeast(s, n) ==> m == n
  {
    forall s, m, n | IsLeast(s, m) && IsLeast(s, n)
      ensures m == n
    {
      StrLeAntisymmetric(m, n);
    }
  }

  /** Python's sorted() on a set of strings. */
  function SortedIds(s: set<string>): (ids: seq<string>)
    ensures Ascending(ids)
    ensures forall x :: x in ids <==> x in s
    ensures |ids| == |s|
    decreases |s|
  {
    if s == {} then
      []
    else
      LeastExists(s);
      LeastUnique();
      var m :| IsLeast(s, m);
      var rest := SortedIds(s - {m});
      assert forall i :: 0 <= i < |rest| ==> rest[i] in s - {m};
      [m] + rest
  }

  /** In order, repeats allowed. */
  predicate InOrder(names: seq<string>) {
    forall i, j :: 0 <= i < j < |names| ==> StrLe(names[i], names[j])
  }

  function Inserted(names: seq<string>, x: string): seq<string> {
    if names == [] || StrLe(x, names[0]) then [x] + names else [names[0]] + Inserted(names[1..], x)
  }

  lemma {:induction false} InsertedFits(names: seq<string>, x: string)
    requires InOrder(names)
    ensures InOrder(Inserted(names, x)) && multiset(Inserted(names, x)) == multiset(names) + multiset{x}
    ensures forall n :: n in Inserted(names, x) <==> n == x || n in names
  {
    if names != [] {
      var head, rest := names[0], names[1..];
      assert names == [head] + rest;
      StrLeTotal(x, head);
      if StrLe(x, head) {
        forall j | 0 <= j < |names|
          ensures StrLe(x, names[j])
        {
          if j > 0 { StrLeTransitive(x, head, names[j]); }
        }
      } else {
        InsertedFits(rest, x);
        forall n | n in Inserted(rest, x)
          ensures StrLe(head, n)
        {
          if n != x {
            var k :| 0 <= k < |rest| && rest[k] == n;
            assert names[k + 1] == n;
          }
        }
        assert forall j :: 0 <= j < |Inserted(rest, x)| ==> Inserted(rest, x)[j] in Inserted(rest, x);
      }
    }
  }

  /** Python's sorted() on a list. */
  function SortedList(names: seq<string>): (sorted: seq<string>)
    ensures InOrder(sorted) && multiset(sorted) == multiset(names)
  {
    if names == [] then []
    else
      var rest := SortedList(names[1..]);
      InsertedFits(rest, names[0]);
      assert names == [names[0]] + names[1..];
      Inserted(rest, names[0])
  }
}
