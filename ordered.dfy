/**
 * Insertion-ordered key sets: a JavaScript object used as a dictionary
 * remembers the order in which its keys were first written, and listing it
 * gives the keys in that order, each once.
 */
module InsertionOrder {

  /** No key appears twice. */
  predicate NoDup(xs: seq<string>)
  {
    forall i, j :: 0 <= i < j < |xs| ==> xs[i] != xs[j]
  }

  /** Writing key `x`: a new key goes to the end, a known key keeps its place. */
  function Register(xs: seq<string>, x: string): (r: seq<string>)
    ensures forall y :: y in r <==> y in xs || y == x
    ensures xs <= r
    ensures NoDup(xs) ==> NoDup(r)
  {
    if x in xs then xs else xs + [x]
  }

  /** Writing the keys `ys` one after another. */
  function AddAll(xs: seq<string>, ys: seq<string>): (r: seq<string>)
    ensures forall y :: y in r <==> y in xs || y in ys
    ensures xs <= r
    ensures NoDup(xs) ==> NoDup(r)
    decreases |ys|
  {
    if ys == [] then xs else Register(AddAll(xs, ys[..|ys| - 1]), ys[|ys| - 1])
  }

  /** The keys of a dictionary written with the keys `ys`, starting empty. */
  function Dedup(ys: seq<string>): (r: seq<string>)
    ensures NoDup(r)
    ensures forall y :: y in r <==> y in ys
  {
    AddAll([], ys)
  }

  /** Where `y` first occurs in `ys`. */
  function FirstIndex(ys: seq<string>, y: string): (i: nat)
    requires y in ys
    ensures i < |ys| && ys[i] == y
    ensures forall k :: 0 <= k < i ==> ys[k] != y
  {
    if ys[0] == y then 0 else 1 + FirstIndex(ys[1..], y)
  }

  /** Writing two batches of keys is writing their concatenation. */
  lemma {:induction false} AddAllAppend(xs: seq<string>, ys: seq<string>, zs: seq<string>)
    ensures AddAll(AddAll(xs, ys), zs) == AddAll(xs, ys + zs)
    decreases |zs|
  {
    if zs == [] {
      assert ys + zs == ys;
    } else {
      var zs' := zs[..|zs| - 1];
      AddAllAppend(xs, ys, zs');
      assert (ys + zs)[..|ys + zs| - 1] == ys + zs';
    }
  }

  /** `FirstIndex` only looks at the first occurrence, so appending does not move it. */
  lemma FirstIndexAppend(ys: seq<string>, z: string, y: string)
    requires y in ys
    ensures FirstIndex(ys + [z], y) == FirstIndex(ys, y)
  {
    var i := FirstIndex(ys, y);
    var j := FirstIndex(ys + [z], y);
    assert (ys + [z])[i] == y;
    assert j <= i;
    assert ys[j] == y;
  }

  /** The keys come out in the order of their first write. */
  lemma {:induction false} DedupFirstSeen(ys: seq<string>)
    ensures var r := Dedup(ys);
      forall i, j :: 0 <= i < j < |r| ==> FirstIndex(ys, r[i]) < FirstIndex(ys, r[j])
    decreases |ys|
  {
    if ys != [] {
      var front := ys[..|ys| - 1];
      var y := ys[|ys| - 1];
      assert ys == front + [y];
      DedupFirstSeen(front);
      var old_ := Dedup(front);
      var r := Dedup(ys);
      assert r == Register(old_, y);
      forall x | x in old_
        ensures FirstIndex(ys, x) == FirstIndex(front, x)
      {
        FirstIndexAppend(front, y, x);
      }
      if y !in old_ {
        assert FirstIndex(ys, y) == |front|;
      }
    }
  }
}
