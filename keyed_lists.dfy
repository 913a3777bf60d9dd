/** The list operations the slices perform on records keyed by `_id`:
    `filter` out an id, `map` over the entries with an id, and `findIndex` of
    an id. Each is generic in the record type, given the record's `_id`
    accessor `idOf`. */
module KeyedLists {
  import opened Common

  /** `s.filter(x => idOf(x) !== id)`. */
  function RemoveById<T>(s: seq<T>, idOf: T -> Id, id: Id): (r: seq<T>)
    ensures |r| <= |s|
    ensures forall x :: x in r ==> x in s && idOf(x) != id
    ensures forall x :: x in s && idOf(x) != id ==> x in r
  {
    if s == [] then []
    else if idOf(s[0]) == id then RemoveById(s[1..], idOf, id)
    else [s[0]] + RemoveById(s[1..], idOf, id)
  }

  /** `s.map(x => idOf(x) === id ? f(x) : x)`. */
  function MapWhereId<T>(s: seq<T>, idOf: T -> Id, id: Id, f: T -> T): (r: seq<T>)
    ensures |r| == |s|
    ensures forall i :: 0 <= i < |s| ==> r[i] == if idOf(s[i]) == id then f(s[i]) else s[i]
  {
    if s == [] then []
    else [if idOf(s[0]) == id then f(s[0]) else s[0]] + MapWhereId(s[1..], idOf, id, f)
  }

  /** `s.map(x => idOf(x) === idOf(y) ? y : x)`. */
  function ReplaceById<T>(s: seq<T>, idOf: T -> Id, y: T): (r: seq<T>)
  {
    MapWhereId(s, idOf, idOf(y), _ => y)
  }

  /** The index `s.findIndex(x => idOf(x) === id)` reports, as an option. */
  function FirstIndex<T>(s: seq<T>, idOf: T -> Id, id: Id): (r: Option<nat>)
    ensures r.Some? ==> r.value < |s| && idOf(s[r.value]) == id
    ensures r.Some? ==> forall j :: 0 <= j < r.value ==> idOf(s[j]) != id
    ensures r.None? <==> forall j :: 0 <= j < |s| ==> idOf(s[j]) != id
  {
    if s == [] then None
    else if idOf(s[0]) == id then Some(0)
    else match FirstIndex(s[1..], idOf, id)
      case None => None
      case Some(k) => Some(k + 1)
  }

  /** `s.findIndex(x => idOf(x) === id)`: the first matching index, or -1. */
  method FindIndex<T>(s: seq<T>, idOf: T -> Id, id: Id) returns (index: int)
    ensures index == match FirstIndex(s, idOf, id) case Some(k) => k case None => -1
  {
    index := 0;
    while index < |s|
      invariant 0 <= index <= |s|
      invariant forall j :: 0 <= j < index ==> idOf(s[j]) != id
    {
      if idOf(s[index]) == id {
        FirstIndexIsFirst(s, idOf, id, index);
        return;
      }
      index := index + 1;
    }
    index := -1;
  }

  /** Any first match is the one FirstIndex reports. */
  lemma FirstIndexIsFirst<T>(s: seq<T>, idOf: T -> Id, id: Id, k: nat)
    requires k < |s| && idOf(s[k]) == id
    requires forall j :: 0 <= j < k ==> idOf(s[j]) != id
    ensures FirstIndex(s, idOf, id) == Some(k)
  {
  }

  /** Filtering distributes over concatenation. */
  lemma {:induction false} RemoveByIdAppend<T>(a: seq<T>, b: seq<T>, idOf: T -> Id, id: Id)
    ensures RemoveById(a + b, idOf, id) == RemoveById(a, idOf, id) + RemoveById(b, idOf, id)
  {
    if a == [] {
      assert a + b == b;
    } else {
      assert (a + b)[0] == a[0];
      assert (a + b)[1..] == a[1..] + b;
      RemoveByIdAppend(a[1..], b, idOf, id);
    }
  }

  /** Filtering out an id that no entry carries changes nothing. */
  lemma {:induction false} RemoveByIdAbsent<T>(s: seq<T>, idOf: T -> Id, id: Id)
    requires forall j :: 0 <= j < |s| ==> idOf(s[j]) != id
    ensures RemoveById(s, idOf, id) == s
  {
    if s != [] {
      RemoveByIdAbsent(s[1..], idOf, id);
    }
  }

  /** The number of entries carrying `id`. */
  function CountId<T>(s: seq<T>, idOf: T -> Id, id: Id): nat
  {
    if s == [] then 0 else (if idOf(s[0]) == id then 1 else 0) + CountId(s[1..], idOf, id)
  }

  /** Exactly the entries carrying `id` are dropped. */
  lemma {:induction false} RemoveByIdLength<T>(s: seq<T>, idOf: T -> Id, id: Id)
    ensures |RemoveById(s, idOf, id)| == |s| - CountId(s, idOf, id)
  {
    if s != [] {
      RemoveByIdLength(s[1..], idOf, id);
    }
  }

  /** `a` is an order-preserving selection from `b`. */
  predicate IsSubsequence<T(==)>(a: seq<T>, b: seq<T>)
    decreases |b|
  {
    a == [] || (b != [] && if a[0] == b[0] then IsSubsequence(a[1..], b[1..]) else IsSubsequence(a, b[1..]))
  }

  lemma {:induction false} SubsequenceDropHead<T>(a: seq<T>, b: seq<T>)
    requires a != [] && IsSubsequence(a, b)
    ensures IsSubsequence(a[1..], b)
    decreases |b|, 1
  {
    if a[0] != b[0] {
      SubsequenceDropHead(a, b[1..]);
      SubsequenceSkip(a[1..], b);
    } else {
      SubsequenceSkip(a[1..], b);
    }
  }

  /** An element of the larger sequence may always be skipped. */
  lemma {:induction false} SubsequenceSkip<T>(a: seq<T>, b: seq<T>)
    requires b != [] && IsSubsequence(a, b[1..])
    ensures IsSubsequence(a, b)
    decreases |b|, 0
  {
    if a != [] && a[0] == b[0] {
      SubsequenceDropHead(a, b[1..]);
    }
  }

  /** The entries that survive the filter keep their relative order. */
  lemma {:induction false} RemoveByIdIsSubsequence<T>(s: seq<T>, idOf: T -> Id, id: Id)
    ensures IsSubsequence(RemoveById(s, idOf, id), s)
  {
    if s != [] {
      RemoveByIdIsSubsequence(s[1..], idOf, id);
      var rest := RemoveById(s[1..], idOf, id);
      if idOf(s[0]) == id {
        SubsequenceSkip(rest, s);
      } else {
        assert ([s[0]] + rest)[1..] == rest;
      }
    }
  }

  /** Replacing by id keeps every entry's id. */
  lemma ReplaceByIdKeepsIds<T>(s: seq<T>, idOf: T -> Id, y: T)
    ensures |ReplaceById(s, idOf, y)| == |s|
    ensures forall i :: 0 <= i < |s| ==> idOf(ReplaceById(s, idOf, y)[i]) == idOf(s[i])
  {
  }

  /** Replaying the same replacement is the same as applying it once. */
  lemma ReplaceByIdIdempotent<T>(s: seq<T>, idOf: T -> Id, y: T)
    ensures ReplaceById(ReplaceById(s, idOf, y), idOf, y) == ReplaceById(s, idOf, y)
  {
    var once := ReplaceById(s, idOf, y);
    var twice := ReplaceById(once, idOf, y);
    assert |twice| == |once|;
    forall i | 0 <= i < |once| ensures twice[i] == once[i] {
    }
  }

  /** Replacing an id that no entry carries changes nothing, and replacing
      affects exactly the entries that carry the replacement's id. */
  lemma ReplaceByIdAffectsOnlyMatches<T>(s: seq<T>, idOf: T -> Id, y: T)
    ensures forall i :: 0 <= i < |s| ==>
      (ReplaceById(s, idOf, y)[i] == y || ReplaceById(s, idOf, y)[i] == s[i])
    ensures (forall j :: 0 <= j < |s| ==> idOf(s[j]) != idOf(y)) ==> ReplaceById(s, idOf, y) == s
  {
  }

  /** A map whose change is self-inverse and keeps ids, applied twice,
      restores the list. */
  lemma MapWhereIdInvolution<T>(s: seq<T>, idOf: T -> Id, id: Id, f: T -> T)
    requires forall x :: idOf(f(x)) == idOf(x) && f(f(x)) == x
    ensures MapWhereId(MapWhereId(s, idOf, id, f), idOf, id, f) == s
  {
    var once := MapWhereId(s, idOf, id, f);
    var twice := MapWhereId(once, idOf, id, f);
    forall i | 0 <= i < |s| ensures twice[i] == s[i] {
      assert idOf(once[i]) == idOf(s[i]);
    }
  }
}
