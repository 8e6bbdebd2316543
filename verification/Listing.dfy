/** Byte order on names: the order in which a directory or a bucket lists them. */
module Listing {
  predicate Less(a: string, b: string) {
    b != "" && (a == "" || a[0] < b[0] || (a[0] == b[0] && Less(a[1..], b[1..])))
  }

  predicate Sorted(names: seq<string>) {
    forall i, j :: 0 <= i < j < |names| ==> Less(names[i], names[j])
  }

  function Names(names: seq<string>): set<string> {
    set n | n in names
  }

  lemma {:induction false} LessIrreflexive(a: string)
    ensures !Less(a, a)
  {
    if a != "" {
      LessIrreflexive(a[1..]);
    }
  }

  lemma {:induction false} LessTransitive(a: string, b: string, c: string)
    requires Less(a, b) && Less(b, c)
    ensures Less(a, c)
  {
    if a != "" && a[0] == b[0] == c[0] {
      LessTransitive(a[1..], b[1..], c[1..]);
    }
  }

  lemma {:induction false} LessTotal(a: string, b: string)
    ensures Less(a, b) || a == b || Less(b, a)
  {
    if a != "" && b != "" && a[0] == b[0] {
      LessTotal(a[1..], b[1..]);
      assert a == [a[0]] + a[1..] && b == [b[0]] + b[1..];
    }
  }

  lemma {:induction false} LessAfterPrefix(prefix: string, a: string, b: string)
    ensures Less(prefix + a, prefix + b) <==> Less(a, b)
  {
    if prefix == "" {
      assert prefix + a == a && prefix + b == b;
    } else {
      assert (prefix + a)[1..] == prefix[1..] + a && (prefix + b)[1..] == prefix[1..] + b;
      LessAfterPrefix(prefix[1..], a, b);
    }
  }

  predicate IsLeast(m: string, names: set<string>) {
    m in names && forall n :: n in names ==> m == n || Less(m, n)
  }

  lemma {:induction false} LeastExists(names: set<string>) returns (m: string)
    requires names != {}
    ensures IsLeast(m, names)
    decreases |names|
  {
    var n :| n in names;
    if names == {n} {
      m := n;
    } else {
      m := LeastExists(names - {n});
      LessTotal(m, n);
      if Less(n, m) {
        forall x | x in names ensures n == x || Less(n, x) {
          if x != n && x != m {
            LessTransitive(n, m, x);
          }
        }
        m := n;
      }
    }
  }

  lemma TailNames(a: seq<string>)
    requires a != [] && Sorted(a)
    ensures Names(a[1..]) == Names(a) - {a[0]}
  {
    LessIrreflexive(a[0]);
    assert forall n :: n in a[1..] ==> n in a && n != a[0];
    forall n | n in Names(a) - {a[0]} ensures n in a[1..] {
      var i :| 0 <= i < |a| && a[i] == n;
      assert a[1..][i - 1] == n;
    }
  }

  lemma SameHead(a: seq<string>, b: seq<string>)
    requires a != [] && b != [] && Sorted(a) && Sorted(b)
    requires a[0] in b && b[0] in a
    ensures a[0] == b[0]
  {
    if a[0] != b[0] {
      var i :| 0 <= i < |b| && b[i] == a[0];
      var j :| 0 <= j < |a| && a[j] == b[0];
      assert Less(b[0], b[i]) && Less(a[0], a[j]);
      LessTransitive(a[0], b[0], a[0]);
      LessIrreflexive(a[0]);
    }
  }

  lemma NamesOfNone(list: seq<string>)
    ensures Names(list) == {} <==> list == []
  {
    if list != [] {
      assert list[0] in Names(list);
    }
  }

  /** Two sorted lists of the same names are the same list. */
  lemma {:induction false} SortedIsUnique(a: seq<string>, b: seq<string>)
    requires Sorted(a) && Sorted(b) && Names(a) == Names(b)
    ensures a == b
  {
    NamesOfNone(a);
    NamesOfNone(b);
    if a != [] {
      assert a[0] in Names(a);
      assert b[0] in Names(b);
      SameHead(a, b);
      assert Names(a[1..]) == Names(a) - {a[0]} by { TailNames(a); }
      assert Names(b[1..]) == Names(b) - {b[0]} by { TailNames(b); }
      SortedIsUnique(a[1..], b[1..]);
      assert a == [a[0]] + a[1..] && b == [b[0]] + b[1..];
    }
  }

  /** `all` is what the list names plus `rest`, and the list comes first. */
  predicate Splits(list: seq<string>, rest: set<string>, all: set<string>) {
    && Sorted(list)
    && Names(list) + rest == all && Names(list) !! rest
    && forall a, b :: a in list && b in rest ==> Less(a, b)
  }

  lemma MoveLeast(list: seq<string>, rest: set<string>, all: set<string>, m: string)
    requires Splits(list, rest, all) && IsLeast(m, rest)
    ensures Splits(list + [m], rest - {m}, all)
  {}

  /** The names in order: what reading a directory gives. */
  method SortNames(names: set<string>) returns (list: seq<string>)
    ensures Sorted(list) && Names(list) == names
  {
    list := [];
    var todo := names;
    while todo != {}
      invariant Splits(list, todo, names)
      decreases |todo|
    {
      ghost var least := LeastExists(todo);
      var m :| m in todo && forall n :: n in todo ==> m == n || Less(m, n);
      MoveLeast(list, todo, names, m);
      list := list + [m];
      todo := todo - {m};
    }
  }
}
