/**
 * Class bodies as the metaclasses and `inspect.getmembers` see them: an ordered
 * list of named members, of which only the attribute declarations are kept.
 */
module Declarations {

  /** One named member of a class: a declared attribute, a routine, or any other value. */
  datatype Member<T> = Attr(name: string, attr: T) | Routine(name: string) | OtherValue(name: string)

  /** The attribute members of `body`, with their names, in body order. */
  function Collect<T>(body: seq<Member<T>>): (r: seq<(string, T)>)
    ensures |r| <= |body|
  {
    if body == [] then []
    else match body[0]
      case Attr(n, a) => [(n, a)] + Collect(body[1..])
      case _ => Collect(body[1..])
  }

  /** Collecting keeps order: the members of a longer body come after those of its prefix. */
  lemma {:induction false} CollectAppend<T>(a: seq<Member<T>>, b: seq<Member<T>>)
    ensures Collect(a + b) == Collect(a) + Collect(b)
  {
    if a == [] {
      assert a + b == b;
    } else {
      assert (a + b)[0] == a[0];
      assert (a + b)[1..] == a[1..] + b;
      CollectAppend(a[1..], b);
    }
  }

  /** Exactly the attribute members are collected, under their own names. */
  lemma {:induction false} CollectMembership<T>(body: seq<Member<T>>, n: string, x: T)
    ensures (n, x) in Collect(body) <==> Attr(n, x) in body
  {
    if body != [] {
      CollectMembership(body[1..], n, x);
      assert body == [body[0]] + body[1..];
    }
  }

  /** `name.startswith('__') and name.endswith('__')`. */
  predicate IsDunder(name: string) {
    |name| >= 2 && name[..2] == "__" && name[|name| - 2..] == "__"
  }

  /** The non-routine, non-dunder members, in the order given (creator.py:68-71). */
  function UserDefined<T>(members: seq<Member<T>>): (r: seq<Member<T>>)
    ensures forall m | m in r :: m in members && !m.Routine? && !IsDunder(m.name)
    ensures forall m | m in members && !m.Routine? && !IsDunder(m.name) :: m in r
  {
    if members == [] then []
    else if members[0].Routine? || IsDunder(members[0].name) then UserDefined(members[1..])
    else [members[0]] + UserDefined(members[1..])
  }

  /** Python's `<` on str: lexicographic by character code. */
  predicate NameLess(a: string, b: string) {
    if a == [] then b != []
    else if b == [] then false
    else if a[0] != b[0] then a[0] < b[0]
    else NameLess(a[1..], b[1..])
  }

  /** Names strictly increasing, as `inspect.getmembers` reports them. */
  predicate SortedMembers<T>(ms: seq<Member<T>>) {
    forall i, j | 0 <= i < j < |ms| :: NameLess(ms[i].name, ms[j].name)
  }

  predicate SortedPairs<T>(ps: seq<(string, T)>) {
    forall i, j | 0 <= i < j < |ps| :: NameLess(ps[i].0, ps[j].0)
  }

  /** Dropping members keeps a by-name order. */
  lemma {:induction false} UserDefinedSorted<T>(ms: seq<Member<T>>)
    requires SortedMembers(ms)
    ensures SortedMembers(UserDefined(ms))
  {
    if ms != [] {
      UserDefinedSorted(ms[1..]);
      var rest := UserDefined(ms[1..]);
      forall m | m in rest ensures NameLess(ms[0].name, m.name) {
        var j :| 0 <= j < |ms[1..]| && ms[1..][j] == m;
        assert ms[j + 1] == m;
      }
      if !ms[0].Routine? && !IsDunder(ms[0].name) {
        SortedInFront(ms[0], rest);
      }
    }
  }

  /** A member named before everything in a sorted list can go in front of it. */
  lemma SortedInFront<T>(m: Member<T>, rest: seq<Member<T>>)
    requires SortedMembers(rest)
    requires forall x | x in rest :: NameLess(m.name, x.name)
    ensures SortedMembers([m] + rest)
  {
    var r := [m] + rest;
    forall i, j | 0 <= i < j < |r| ensures NameLess(r[i].name, r[j].name) {
      if i == 0 {
        assert r[j] in rest;
      } else {
        assert r[i] == rest[i - 1] && r[j] == rest[j - 1];
      }
    }
  }

  /** Collecting from a by-name sorted list yields a by-name sorted list. */
  lemma {:induction false} CollectSorted<T>(ms: seq<Member<T>>)
    requires SortedMembers(ms)
    ensures SortedPairs(Collect(ms))
  {
    if ms != [] {
      CollectSorted(ms[1..]);
      if ms[0].Attr? {
        var rest := Collect(ms[1..]);
        forall p | p in rest ensures NameLess(ms[0].name, p.0) {
          CollectMembership(ms[1..], p.0, p.1);
          var j :| 0 <= j < |ms[1..]| && ms[1..][j] == Attr(p.0, p.1);
          assert ms[j + 1] == Attr(p.0, p.1);
        }
        var r := [(ms[0].name, ms[0].attr)] + rest;
        forall i, j | 0 <= i < j < |r| ensures NameLess(r[i].0, r[j].0) {
          if i == 0 {
            assert r[j] in rest;
          } else {
            assert r[i] == rest[i - 1] && r[j] == rest[j - 1];
          }
        }
      }
    }
  }
}
