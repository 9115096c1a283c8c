/** The in-memory record store shared by the customer, inventory and supplier
    services: a list of records addressed by their `id`, with a first-match
    `findIndex`, a shallow-merge update and a one-element `splice` delete.
    The list is a value; each service call returns the new list together
    with the value its promise resolves with. */
module Store {
  import opened Wrappers

  /** The store after a call, and the value the call resolved with. */
  datatype Step<R, V> = Step(items: seq<R>, value: V)

  /** Some record carries `id`. */
  predicate HasId<R>(s: seq<R>, id: string, idOf: R -> string) {
    exists i :: 0 <= i < |s| && idOf(s[i]) == id
  }

  /** `i` is the index `findIndex(r => r.id === id)` finds: the first record with `id`. */
  predicate FirstWithId<R>(s: seq<R>, id: string, idOf: R -> string, i: int) {
    0 <= i < |s| && idOf(s[i]) == id && forall j :: 0 <= j < i ==> idOf(s[j]) != id
  }

  /** No two records share an id. */
  predicate UniqueIds<R>(s: seq<R>, idOf: R -> string) {
    forall i, j :: 0 <= i < j < |s| ==> idOf(s[i]) != idOf(s[j])
  }

  /** `findIndex` by id, with `None` for its `-1`. */
  function FindIndex<R>(s: seq<R>, id: string, idOf: R -> string): (r: Option<nat>)
    ensures r.None? <==> !HasId(s, id, idOf)
    ensures r.Some? ==> FirstWithId(s, id, idOf, r.value)
  {
    if |s| == 0 then None
    else if idOf(s[0]) == id then Some(0)
    else
      assert forall k :: 0 <= k < |s| - 1 ==> s[1..][k] == s[k + 1];
      match FindIndex(s[1..], id, idOf)
      case None =>
        assert forall k :: 1 <= k < |s| ==> s[k] == s[1..][k - 1];
        None
      case Some(k) => Some(k + 1)
  }

  /** The first record with a given id is unique. */
  lemma FirstWithIdUnique<R>(s: seq<R>, id: string, idOf: R -> string, i: int, j: int)
    requires FirstWithId(s, id, idOf, i) && FirstWithId(s, id, idOf, j)
    ensures i == j
  {
  }

  /** What an add promises: the record goes after all existing ones, which
      are unchanged, and the call resolves with it. */
  ghost predicate AddOutcome<R>(s: seq<R>, rec: R, r: Step<R, R>) {
    |r.items| == |s| + 1 && r.items[..|s|] == s && r.items[|s|] == rec && r.value == rec
  }

  /** `push`: the record goes at the end and the call resolves with it. */
  function Add<R>(s: seq<R>, rec: R): (r: Step<R, R>)
    ensures AddOutcome(s, rec, r)
  {
    Step(s + [rec], rec)
  }

  /** What an update promises: on an absent id the store is unchanged and the
      call resolves `null`; otherwise only the first record with the id is
      replaced, by its merge with the patch, and that merged record is returned. */
  ghost predicate UpdateOutcome<R, P>(s: seq<R>, id: string, patch: P, idOf: R -> string, merge: (R, P) -> R, r: Step<R, Option<R>>) {
    if !HasId(s, id, idOf) then r.items == s && r.value == None
    else exists i :: FirstWithId(s, id, idOf, i) && r.value == Some(merge(s[i], patch))
                  && |r.items| == |s| && r.items[i] == merge(s[i], patch)
                  && forall j :: 0 <= j < |s| && j != i ==> r.items[j] == s[j]
  }

  /** `s[index] = merge(s[index], patch)` on the first match, or `null`. */
  function Update<R, P>(s: seq<R>, id: string, patch: P, idOf: R -> string, merge: (R, P) -> R): (r: Step<R, Option<R>>)
    ensures UpdateOutcome(s, id, patch, idOf, merge, r)
  {
    match FindIndex(s, id, idOf)
    case None => Step(s, None)
    case Some(i) => Step(s[i := merge(s[i], patch)], Some(merge(s[i], patch)))
  }

  /** What a delete promises: on an absent id the store is unchanged and the
      call resolves `false`; otherwise exactly the first record with the id is
      cut out, the rest keep their order, and the call resolves `true`. */
  ghost predicate DeleteOutcome<R>(s: seq<R>, id: string, idOf: R -> string, r: Step<R, bool>) {
    if !HasId(s, id, idOf) then r.items == s && !r.value
    else exists i :: FirstWithId(s, id, idOf, i) && r.items == s[..i] + s[i + 1..] && r.value
  }

  /** `splice(index, 1)` on the first match, resolving `true`; `false` when absent. */
  function Delete<R>(s: seq<R>, id: string, idOf: R -> string): (r: Step<R, bool>)
    ensures DeleteOutcome(s, id, idOf, r)
  {
    match FindIndex(s, id, idOf)
    case None => Step(s, false)
    case Some(i) => Step(s[..i] + s[i + 1..], true)
  }

  /** A delete never grows the store and shrinks it by one exactly when it reports success. */
  lemma DeleteShrinks<R>(s: seq<R>, id: string, idOf: R -> string)
    ensures |Delete(s, id, idOf).items| == if Delete(s, id, idOf).value then |s| - 1 else |s|
  {
  }

  /** Removing the only record with an id leaves none with it. */
  lemma {:induction false} RemovedIdGone<R>(s: seq<R>, id: string, idOf: R -> string, i: int)
    requires UniqueIds(s, idOf) && 0 <= i < |s| && idOf(s[i]) == id
    ensures !HasId(s[..i] + s[i + 1..], id, idOf)
    ensures UniqueIds(s[..i] + s[i + 1..], idOf)
  {
    var t := s[..i] + s[i + 1..];
    assert forall k :: 0 <= k < |t| ==> t[k] == if k < i then s[k] else s[k + 1];
  }

  /** With unique ids, deleting an id twice answers true then false, and the
      second call changes nothing. */
  lemma DeleteTwice<R>(s: seq<R>, id: string, idOf: R -> string)
    requires UniqueIds(s, idOf) && HasId(s, id, idOf)
    ensures Delete(s, id, idOf).value
    ensures !Delete(Delete(s, id, idOf).items, id, idOf).value
    ensures Delete(Delete(s, id, idOf).items, id, idOf).items == Delete(s, id, idOf).items
  {
    var i := FindIndex(s, id, idOf).value;
    RemovedIdGone(s, id, idOf, i);
  }

  /** An added record whose id is already taken is shadowed: update and
      delete by that id still reach the older record, never the new one. */
  lemma AddShadowed<R>(s: seq<R>, rec: R, idOf: R -> string)
    requires HasId(s, idOf(rec), idOf)
    ensures FindIndex(Add(s, rec).items, idOf(rec), idOf) == FindIndex(s, idOf(rec), idOf)
    ensures FindIndex(Add(s, rec).items, idOf(rec), idOf).value < |s|
  {
    var t := Add(s, rec).items;
    var i := FindIndex(s, idOf(rec), idOf).value;
    assert FirstWithId(t, idOf(rec), idOf, i);
    FirstWithIdUnique(t, idOf(rec), idOf, i, FindIndex(t, idOf(rec), idOf).value);
  }

  /** An added record with a fresh id is the one update and delete reach. */
  lemma AddFresh<R>(s: seq<R>, rec: R, idOf: R -> string)
    requires !HasId(s, idOf(rec), idOf)
    ensures FindIndex(Add(s, rec).items, idOf(rec), idOf) == Some(|s|)
  {
    var t := Add(s, rec).items;
    assert FirstWithId(t, idOf(rec), idOf, |s|);
    FirstWithIdUnique(t, idOf(rec), idOf, |s|, FindIndex(t, idOf(rec), idOf).value);
  }
}
