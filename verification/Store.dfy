/** Writing one value per token into a slot-indexed memory, as the store kernel does. */
module Store {

  datatype Write<T> = Write(slot: int, value: T)

  /** The writes one after the other; a negative slot stores nothing. */
  function StoreAll<T>(mem: seq<T>, ws: seq<Write<T>>): (r: seq<T>)
    ensures |r| == |mem|
    decreases |ws|
  {
    if ws == [] then mem
    else StoreAll(if 0 <= ws[0].slot < |mem| then mem[ws[0].slot := ws[0].value] else mem, ws[1..])
  }

  ghost predicate DistinctSlots<T>(ws: seq<Write<T>>) {
    forall i, j :: 0 <= i < j < |ws| && ws[i].slot >= 0 && ws[j].slot >= 0 ==> ws[i].slot != ws[j].slot
  }

  /** Nobody writes slot `x`. */
  ghost predicate Untouched<T>(ws: seq<Write<T>>, x: int) {
    forall k :: 0 <= k < |ws| ==> ws[k].slot != x
  }

  lemma {:induction false} StoreUntouched<T>(mem: seq<T>, ws: seq<Write<T>>, x: nat)
    requires x < |mem| && Untouched(ws, x)
    ensures StoreAll(mem, ws)[x] == mem[x]
    decreases |ws|
  {
    if ws != [] {
      StoreUntouched(if 0 <= ws[0].slot < |mem| then mem[ws[0].slot := ws[0].value] else mem, ws[1..], x);
    }
  }

  lemma {:induction false} StoreWritten<T>(mem: seq<T>, ws: seq<Write<T>>, k: nat)
    requires DistinctSlots(ws) && k < |ws| && 0 <= ws[k].slot < |mem|
    ensures StoreAll(mem, ws)[ws[k].slot] == ws[k].value
    decreases |ws|
  {
    var mem' := if 0 <= ws[0].slot < |mem| then mem[ws[0].slot := ws[0].value] else mem;
    if k == 0 {
      StoreUntouched(mem', ws[1..], ws[0].slot);
    } else {
      StoreWritten(mem', ws[1..], k - 1);
    }
  }

  /** The per-token programs may run in any order: lists with the same writes leave the same memory. */
  lemma StoreAnyOrder<T>(mem: seq<T>, ws: seq<Write<T>>, ws': seq<Write<T>>)
    requires DistinctSlots(ws) && DistinctSlots(ws')
    requires forall w :: w in ws <==> w in ws'
    ensures StoreAll(mem, ws) == StoreAll(mem, ws')
  {
    forall x: nat | x < |mem|
      ensures StoreAll(mem, ws)[x] == StoreAll(mem, ws')[x]
    {
      if Untouched(ws, x) {
        forall k | 0 <= k < |ws'|
          ensures ws'[k].slot != x
        {
          assert ws'[k] in ws;
        }
        StoreUntouched(mem, ws, x);
        StoreUntouched(mem, ws', x);
      } else {
        var k :| 0 <= k < |ws| && ws[k].slot == x;
        assert ws[k] in ws';
        var j :| 0 <= j < |ws'| && ws'[j] == ws[k];
        StoreWritten(mem, ws, k);
        StoreWritten(mem, ws', j);
      }
    }
  }
}
