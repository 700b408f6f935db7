/** Vocabulary shared by all models: optional values, HTTP-style failures, and row counting. */
module Common {
  datatype Option<+T> = None | Some(value: T)

  /** The exception classes the services throw. */
  datatype Failure = BadRequest | Unauthorized | Forbidden | NotFound | Conflict

  datatype Result<+T> = Ok(value: T) | Err(failure: Failure)

  /** A field of an update: given it is taken over, left out it stays. */
  predicate TakesOver<T(==)>(given: Option<T>, before: T, after: T) {
    (given.Some? ==> after == given.value) && (given.None? ==> after == before)
  }

  /** The members of a list. */
  function Elements<T>(list: seq<T>): set<T> { set x | x in list }

  predicate Distinct<T(==)>(list: seq<T>) {
    forall i, j :: 0 <= i < j < |list| ==> list[i] != list[j]
  }

  /** A list has as many members as entries exactly when nothing repeats. */
  lemma {:induction false} MembersCount<T>(list: seq<T>)
    ensures |Elements(list)| <= |list|
    ensures |Elements(list)| == |list| <==> Distinct(list)
  {
    if list != [] {
      var init, x := list[..|list| - 1], list[|list| - 1];
      assert list == init + [x];
      MembersCount(init);
      assert Elements(list) == Elements(init) + {x};
      if Distinct(list) {
        assert x !in Elements(init);
        assert Distinct(init);
      }
      if Distinct(init) && x !in init {
        assert Distinct(list);
      }
    }
  }

  /** The rows of a table that satisfy a filter, as a `findMany` selects them. */
  function RowsWhere<K, V>(table: map<K, V>, filter: V -> bool): set<K> {
    set k | k in table && filter(table[k])
  }

  /** What `count({ where })` returns. */
  function CountWhere<K, V>(table: map<K, V>, filter: V -> bool): nat {
    |RowsWhere(table, filter)|
  }

  /** How writing one row moves a filtered count. */
  lemma CountWhereUpdate<K, V>(table: map<K, V>, k: K, v: V, filter: V -> bool)
    ensures CountWhere(table[k := v], filter)
         == CountWhere(table, filter)
            - (if k in table && filter(table[k]) then 1 else 0)
            + (if filter(v) then 1 else 0)
  {
    var before, after := RowsWhere(table, filter), RowsWhere(table[k := v], filter);
    assert after - {k} == before - {k};
    assert k in after <==> filter(v);
    assert k in before <==> k in table && filter(table[k]);
    assert |before| == |before - {k}| + (if k in before then 1 else 0);
    assert |after| == |after - {k}| + (if k in after then 1 else 0);
  }

  /** A count that is positive has a row behind it, and a row makes the count positive. */
  lemma CountWherePositive<K, V>(table: map<K, V>, filter: V -> bool)
    ensures CountWhere(table, filter) > 0 <==> exists k :: k in table && filter(table[k])
  {
    if CountWhere(table, filter) > 0 {
      var k :| k in RowsWhere(table, filter);
      assert k in table && filter(table[k]);
    } else {
      forall k | k in table ensures !filter(table[k]) {
        assert k in RowsWhere(table, filter) <==> filter(table[k]);
      }
    }
  }

  /** `findUnique`: the row a filter picks out, if there is one. */
  ghost function FindOne<K(!new), V>(table: map<K, V>, filter: V -> bool): (found: Option<K>)
    ensures found.Some? ==> found.value in table && filter(table[found.value])
    ensures found.None? ==> forall k :: k in table ==> !filter(table[k])
  {
    if exists k :: k in table && filter(table[k]) then
      var k :| k in table && filter(table[k]);
      Some(k)
    else None
  }

  predicate Unique<K, V>(table: map<K, V>, filter: V -> bool) {
    forall i, j :: i in table && j in table && filter(table[i]) && filter(table[j]) ==> i == j
  }

  method FindUnique<K(!new, ==), V>(table: map<K, V>, filter: V -> bool) returns (found: Option<K>)
    requires Unique(table, filter)
    ensures found == FindOne(table, filter)
  {
    var rest := table.Keys;
    while rest != {}
      invariant rest <= table.Keys
      invariant forall k :: k in table && k !in rest ==> !filter(table[k])
      decreases rest
    {
      var k :| k in rest;
      if filter(table[k]) { return Some(k); }
      rest := rest - {k};
    }
    found := None;
  }

  /** A duplicate-free list and the rest of the set it was taken from. */
  ghost predicate Splits<T>(list: seq<T>, rest: set<T>, all: set<T>) {
    Distinct(list) && Elements(list) !! rest && Elements(list) + rest == all
  }

  lemma TakeOne<T>(list: seq<T>, rest: set<T>, all: set<T>, x: T)
    requires Splits(list, rest, all) && x in rest
    ensures Splits(list + [x], rest - {x}, all)
  {
    assert Elements(list + [x]) == Elements(list) + {x};
    assert x !in Elements(list);
  }

  lemma SubsetOfSameSize<T>(a: set<T>, b: set<T>)
    requires a <= b && |b| <= |a|
    ensures a == b
  {
    assert b == a + (b - a);
  }

  /** `findMany({ take })`: as many of the selected rows as allowed, in no promised order. */
  method FindMany<T(==)>(selected: set<T>, take: nat) returns (found: seq<T>)
    ensures Distinct(found) && Elements(found) <= selected
    ensures |found| == |Elements(found)| == if |selected| <= take then |selected| else take
  {
    var rest := selected;
    found := [];
    while rest != {} && |found| < take
      invariant |found| <= take && |found| + |rest| == |selected|
      invariant Splits(found, rest, selected)
      decreases rest
    {
      var x :| x in rest;
      TakeOne(found, rest, selected, x);
      rest, found := rest - {x}, found + [x];
    }
    MembersCount(found);
  }
}
