/** Shared vocabulary of the model: entity identifiers, the optional value that
    stands for a Java `null`, and the outcome of an operation that may throw. */
module Base {

  /** Entity identifiers are the UUID strings the entities are created with. */
  type Id = string

  /** A Java reference that may be `null`. */
  datatype Option<+T> = None | Some(value: T)

  /** The unchecked exceptions the services throw. */
  datatype Error =
    | IllegalArgument(message: string)   // java.lang.IllegalArgumentException
    | IllegalState(message: string)      // java.lang.IllegalStateException
    | NullPointer                        // a dereference of a null value

  /** A value-returning operation that may throw. */
  datatype Result<+T> = Success(value: T) | Failure(error: Error)

  /** A `void` operation that may throw. */
  datatype Outcome = Pass | Fail(error: Error)

  /** The map a list of entities is loaded into by `list.forEach(e -> map.put(key(e), e))`:
      a later entry with the same key replaces an earlier one. */
  function IndexBy<T>(s: seq<T>, key: T -> Id): (m: map<Id, T>)
    ensures m.Keys == set i | 0 <= i < |s| :: key(s[i])
    ensures forall k :: k in m ==> key(m[k]) == k
    ensures forall k :: k in m ==> exists i :: 0 <= i < |s| && s[i] == m[k]
  {
    if s == [] then map[]
    else
      var m' := IndexBy(s[..|s| - 1], key);
      var last := s[|s| - 1];
      assert forall i :: 0 <= i < |s| - 1 ==> s[..|s| - 1][i] == s[i];
      m'[key(last) := last]
  }

  /** When no two entries share a key, each entry is stored under its key. */
  lemma {:induction false} IndexByAt<T>(s: seq<T>, key: T -> Id, i: nat)
    requires forall i, j :: 0 <= i < j < |s| ==> key(s[i]) != key(s[j])
    requires i < |s|
    ensures key(s[i]) in IndexBy(s, key) && IndexBy(s, key)[key(s[i])] == s[i]
  {
    var init := s[..|s| - 1];
    if i < |init| {
      assert init[i] == s[i];
      assert forall p, q :: 0 <= p < q < |init| ==> init[p] == s[p] && init[q] == s[q];
      IndexByAt(init, key, i);
      assert key(s[i]) != key(s[|s| - 1]);
    }
  }

  /** When no two entries share a key, none is lost. */
  lemma {:induction false} IndexBySize<T>(s: seq<T>, key: T -> Id)
    requires forall i, j :: 0 <= i < j < |s| ==> key(s[i]) != key(s[j])
    ensures |IndexBy(s, key)| == |s|
  {
    if s != [] {
      var init := s[..|s| - 1];
      var last := s[|s| - 1];
      assert forall i :: 0 <= i < |init| ==> init[i] == s[i];
      IndexBySize(init, key);
      assert key(last) !in IndexBy(init, key);
    }
  }

  /** When no two entries share a key, every entry is stored under its key
      and none is lost. */
  lemma IndexByDistinct<T>(s: seq<T>, key: T -> Id)
    requires forall i, j :: 0 <= i < j < |s| ==> key(s[i]) != key(s[j])
    ensures forall i :: 0 <= i < |s| ==> key(s[i]) in IndexBy(s, key) && IndexBy(s, key)[key(s[i])] == s[i]
    ensures |IndexBy(s, key)| == |s|
  {
    forall i | 0 <= i < |s|
      ensures key(s[i]) in IndexBy(s, key) && IndexBy(s, key)[key(s[i])] == s[i]
    {
      IndexByAt(s, key, i);
    }
    IndexBySize(s, key);
  }

  /** A subset has at most as many elements as the set containing it. */
  lemma {:induction false} SubsetCardinality<T>(a: set<T>, b: set<T>)
    requires a <= b
    ensures |a| <= |b|
    decreases a
  {
    if a != {} {
      var x :| x in a;
      SubsetCardinality(a - {x}, b - {x});
    }
  }

  /** Two disjoint subsets of a set together have at most its size. */
  lemma DisjointSubsetsCardinality<T>(a: set<T>, b: set<T>, c: set<T>)
    requires a <= c && b <= c && a !! b
    ensures |a| + |b| <= |c|
  {
    assert |a + b| == |a| + |b|;
    SubsetCardinality(a + b, c);
  }
}
