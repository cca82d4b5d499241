/** Notes and the list computations the controller performs on them. A note is
    a JavaScript object: deleting and toggling pick their target by object
    identity, so a note is a class here and `==` on notes is reference
    equality. No note object is ever changed after it is built. */
module Notes {
  import opened NameOrder

  class Note {
    const id: string
    const name: string
    const description: string
    const completed: bool
    /** The session tag of the client that created the note. */
    const clientId: string

    constructor (id: string, name: string, description: string, completed: bool, clientId: string)
      ensures this.id == id && this.name == name && this.description == description
      ensures this.completed == completed && this.clientId == clientId
    {
      this.id := id;
      this.name := name;
      this.description := description;
      this.completed := completed;
      this.clientId := clientId;
    }
  }

  /** Display order: non-decreasing by name. */
  predicate SortedByName(s: seq<Note>)
  {
    forall i, j :: 0 <= i < j < |s| ==> NameLe(s[i].name, s[j].name)
  }

  /** No two entries of the list carry the same id. */
  predicate DistinctIds(s: seq<Note>)
  {
    forall i, j :: 0 <= i < j < |s| ==> s[i].id != s[j].id
  }

  /** The two notes hold the same data apart, possibly, from `completed`. */
  predicate SameExceptCompleted(x: Note, y: Note)
  {
    x.id == y.id && x.name == y.name && x.description == y.description && x.clientId == y.clientId
  }

  /** The list filtered by object identity: every occurrence of the object `t`
      removed, every other entry kept. */
  function Without(s: seq<Note>, t: Note): (r: seq<Note>)
    ensures t !in r
    ensures multiset(r) == multiset(s)[t := 0]
    ensures |r| == |s| - multiset(s)[t]
  {
    if s == [] then []
    else
      assert s == [s[0]] + s[1..];
      if s[0] == t then Without(s[1..], t) else [s[0]] + Without(s[1..], t)
  }

  /** Filtering distributes over concatenation, so the survivors keep their
      relative order. */
  lemma {:induction false} WithoutAppend(a: seq<Note>, b: seq<Note>, t: Note)
    ensures Without(a + b, t) == Without(a, t) + Without(b, t)
  {
    if a == [] {
      assert a + b == b;
    } else {
      assert (a + b)[0] == a[0];
      assert (a + b)[1..] == a[1..] + b;
      WithoutAppend(a[1..], b, t);
    }
  }

  /** Removing a note that is not in the list changes nothing. */
  lemma {:induction false} WithoutAbsent(s: seq<Note>, t: Note)
    requires t !in s
    ensures Without(s, t) == s
  {
    if s != [] {
      WithoutAbsent(s[1..], t);
    }
  }

  /** Every survivor was in the list; `Without` invents nothing. */
  lemma WithoutSubset(s: seq<Note>, t: Note, x: Note)
    requires x in Without(s, t)
    ensures x in s && x != t
  {
    assert x in multiset(Without(s, t));
  }

  /** Deleting keeps the list sorted. */
  lemma {:induction false} WithoutSorted(s: seq<Note>, t: Note)
    requires SortedByName(s)
    ensures SortedByName(Without(s, t))
  {
    if s != [] {
      assert SortedByName(s[1..]);
      WithoutSorted(s[1..], t);
      if s[0] != t {
        var w := Without(s[1..], t);
        forall j | 0 <= j < |w| ensures NameLe(s[0].name, w[j].name) {
          WithoutSubset(s[1..], t, w[j]);
          var k :| 0 <= k < |s[1..]| && s[1..][k] == w[j];
          assert s[k + 1] == w[j];
        }
      }
    }
  }

  /** Deleting keeps ids distinct. */
  lemma {:induction false} WithoutDistinct(s: seq<Note>, t: Note)
    requires DistinctIds(s)
    ensures DistinctIds(Without(s, t))
  {
    if s != [] {
      assert DistinctIds(s[1..]);
      WithoutDistinct(s[1..], t);
      if s[0] != t {
        var w := Without(s[1..], t);
        forall j | 0 <= j < |w| ensures s[0].id != w[j].id {
          WithoutSubset(s[1..], t, w[j]);
          var k :| 0 <= k < |s[1..]| && s[1..][k] == w[j];
          assert s[k + 1] == w[j];
        }
      }
    }
  }

  /** The fetched items sorted in place by name: afterwards the array is a
      permutation of what it held and is non-decreasing by name. */
  method SortByName(a: array<Note>)
    modifies a
    ensures SortedByName(a[..])
    ensures multiset(a[..]) == old(multiset(a[..]))
  {
    var i := 0;
    while i < a.Length
      invariant 0 <= i <= a.Length
      invariant SortedByName(a[..i])
      invariant multiset(a[..]) == old(multiset(a[..]))
    {
      Insert(a, i);
      i := i + 1;
    }
    assert a[..a.Length] == a[..];
  }

  /** One step of the sort: moves `a[i]` left into the sorted prefix `a[..i]`,
      so that `a[..i + 1]` is sorted. */
  method Insert(a: array<Note>, i: nat)
    requires i < a.Length && SortedByName(a[..i])
    modifies a
    ensures SortedByName(a[..i + 1])
    ensures multiset(a[..]) == old(multiset(a[..]))
  {
    var j := i;
    while 0 < j && !NameLe(a[j - 1].name, a[j].name)
      invariant 0 <= j <= i
      invariant forall p, q :: 0 <= p < q <= i && p != j && q != j ==> NameLe(a[p].name, a[q].name)
      invariant forall q :: j < q <= i ==> NameLe(a[j].name, a[q].name)
      invariant multiset(a[..]) == old(multiset(a[..]))
    {
      NameLeTotal(a[j - 1].name, a[j].name);
      Swap(a, j);
      j := j - 1;
    }
    if 0 < j {
      forall p | 0 <= p < j - 1 ensures NameLe(a[p].name, a[j].name) {
        NameLeTransitive(a[p].name, a[j - 1].name, a[j].name);
      }
    }
  }

  /** Exchanges `a[j - 1]` and `a[j]`. */
  method Swap(a: array<Note>, j: nat)
    requires 0 < j < a.Length
    modifies a
    ensures a[..] == old(a[..])[j - 1 := old(a[j])][j := old(a[j - 1])]
    ensures multiset(a[..]) == old(multiset(a[..]))
  {
    a[j - 1], a[j] := a[j], a[j - 1];
  }

  /** The list mapped to copies: every entry is rebuilt as a new object, no two
      of them the same, with the same data, and only the copies of `t` have
      `completed` negated. */
  method ToggleCompleted(s: seq<Note>, t: Note) returns (r: seq<Note>)
    ensures |r| == |s|
    ensures forall i :: 0 <= i < |s| ==> fresh(r[i]) && SameExceptCompleted(r[i], s[i])
    ensures forall i, j :: 0 <= i < j < |r| ==> r[i] != r[j]
    ensures forall i :: 0 <= i < |s| ==> (r[i].completed != s[i].completed <==> s[i] == t)
  {
    r := [];
    for i := 0 to |s|
      invariant |r| == i
      invariant forall k :: 0 <= k < i ==> fresh(r[k]) && SameExceptCompleted(r[k], s[k])
      invariant forall k, l :: 0 <= k < l < i ==> r[k] != r[l]
      invariant forall k :: 0 <= k < i ==> (r[k].completed != s[k].completed <==> s[k] == t)
    {
      var x := s[i];
      var copy := new Note(x.id, x.name, x.description, if x == t then !x.completed else x.completed, x.clientId);
      r := r + [copy];
    }
  }
}
