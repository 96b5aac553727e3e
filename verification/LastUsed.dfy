/**
 * A JavaScript `Map` from client code to last-used time: entries in insertion order, where a
 * deleted entry leaves a hole, so deleting while iterating disturbs no other entry.
 */
module LastUsed {
  import opened Options

  datatype Slot = Used(code: string, at: int) | Gone

  type Slots = seq<Slot>

  predicate Distinct(slots: Slots) {
    forall i, j :: 0 <= i < j < |slots| && slots[i].Used? && slots[j].Used? ==> slots[i].code != slots[j].code
  }

  /** The entry of a code, as `get` finds it. */
  predicate Has(slots: Slots, code: string, at: int) {
    exists i :: 0 <= i < |slots| && slots[i] == Used(code, at)
  }

  predicate HasCode(slots: Slots, code: string) {
    exists i :: 0 <= i < |slots| && slots[i].Used? && slots[i].code == code
  }

  /** `map.set(code, at)`: an existing entry keeps its place. */
  function Put(slots: Slots, code: string, at: int): (r: Slots)
    ensures |r| >= |slots|
  {
    if HasCode(slots, code)
    then seq(|slots|, i requires 0 <= i < |slots| => if slots[i].Used? && slots[i].code == code then Used(code, at) else slots[i])
    else slots + [Used(code, at)]
  }

  /** `map.delete(code)`. */
  function Delete(slots: Slots, code: string): (r: Slots)
    ensures |r| == |slots|
  {
    seq(|slots|, i requires 0 <= i < |slots| => if slots[i].Used? && slots[i].code == code then Gone else slots[i])
  }

  lemma PutMeans(slots: Slots, code: string, at: int)
    requires Distinct(slots)
    ensures Distinct(Put(slots, code, at))
    ensures forall c, t :: Has(Put(slots, code, at), c, t) <==> if c == code then t == at else Has(slots, c, t)
  {
    var r := Put(slots, code, at);
    forall c, t
      ensures Has(r, c, t) <==> if c == code then t == at else Has(slots, c, t)
    {
      if c == code {
        if HasCode(slots, code) {
          var i :| 0 <= i < |slots| && slots[i].Used? && slots[i].code == code;
          assert r[i] == Used(code, at);
        } else {
          assert r[|slots|] == Used(code, at);
        }
      } else if Has(slots, c, t) {
        var i :| 0 <= i < |slots| && slots[i] == Used(c, t);
        assert r[i] == Used(c, t);
      }
    }
  }

  lemma DeleteMeans(slots: Slots, code: string)
    requires Distinct(slots)
    ensures Distinct(Delete(slots, code))
    ensures forall c, t :: Has(Delete(slots, code), c, t) <==> c != code && Has(slots, c, t)
  {
    var r := Delete(slots, code);
    forall c, t
      ensures Has(r, c, t) <==> c != code && Has(slots, c, t)
    {
      if c != code && Has(slots, c, t) {
        var i :| 0 <= i < |slots| && slots[i] == Used(c, t);
        assert r[i] == Used(c, t);
      }
    }
  }

  lemma OneTime(slots: Slots, code: string, s: int, t: int)
    requires Distinct(slots) && Has(slots, code, s) && Has(slots, code, t)
    ensures s == t
  {
  }

  ghost predicate OldestAt(slots: Slots, code: string, i: nat) {
    && i < |slots| && slots[i].Used? && slots[i].code == code
    && (forall j :: 0 <= j < |slots| && slots[j].Used? ==> slots[i].at <= slots[j].at)
    && (forall j :: 0 <= j < i && slots[j].Used? ==> slots[i].at < slots[j].at)
  }

  /** The result of the minimum search: the first entry with the least time. */
  ghost predicate IsOldest(slots: Slots, code: string) {
    exists i :: OldestAt(slots, code, i)
  }

  /** The search loop over the entries. */
  method FindOldest(slots: Slots) returns (oldest: Option<string>)
    ensures oldest == Oldest(slots)
  {
    oldest := None;
    var time := 0;
    for i := 0 to |slots|
      invariant oldest == Oldest(slots[..i])
      invariant oldest.Some? ==> time == slots[OldestIndex(slots[..i])].at
    {
      assert slots[..i + 1][..i] == slots[..i];
      if slots[i].Used? && (oldest.None? || slots[i].at < time) {
        oldest, time := Some(slots[i].code), slots[i].at;
      }
    }
    assert slots[..|slots|] == slots;
  }

  /** Where the first entry with the least time is; the length if there is no entry. */
  function OldestIndex(slots: Slots): (k: nat)
    ensures k <= |slots|
    ensures k == |slots| <==> forall i :: 0 <= i < |slots| ==> slots[i].Gone?
    ensures k < |slots| ==> slots[k].Used? && OldestAt(slots, slots[k].code, k)
  {
    if slots == [] then 0
    else
      var last := |slots| - 1;
      var k := OldestIndex(slots[..last]);
      assert forall i :: 0 <= i < last ==> slots[..last][i] == slots[i];
      if slots[last].Gone? then if k == last then |slots| else k
      else if k == last || slots[last].at < slots[k].at then last else k
  }

  function Oldest(slots: Slots): (r: Option<string>)
    ensures r.None? <==> forall i :: 0 <= i < |slots| ==> slots[i].Gone?
    ensures r.Some? ==> IsOldest(slots, r.value)
  {
    var k := OldestIndex(slots);
    if k < |slots| then Some(slots[k].code) else None
  }
}
