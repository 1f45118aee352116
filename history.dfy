/**
 * The simulation history: one storage key holding the newest-first list of
 * simulation records. The browser's storage slot for that key is modelled as
 * `stored`, where `None` means the key is absent.
 */
module History {
  import opened Wrappers

  /** One saved simulation; `id` and `fecha` are supplied by the caller (clock values). */
  datatype Simulacion = Simulacion(
    id: int,
    fecha: string,
    nombre: string,
    monto: real,
    cuotas: real,
    montoFinal: real,
    valorCuota: real,
    tasa: real)

  /** What `splice(i, 1)` leaves: the record at `i` gone and every later one moved up by one. */
  function RemovedAt(h: seq<Simulacion>, i: int): (r: seq<Simulacion>)
    requires 0 <= i < |h|
    ensures |r| == |h| - 1
    ensures forall j :: 0 <= j < i ==> r[j] == h[j]
    ensures forall j :: i <= j < |r| ==> r[j] == h[j + 1]
    ensures multiset(r) + multiset{h[i]} == multiset(h)
  {
    assert h == h[..i] + [h[i]] + h[i + 1..];
    h[..i] + h[i + 1..]
  }

  /** Deleting the newest record right after adding it gives back the earlier history. */
  lemma {:induction false} RemoveNewestUndoesAdd(h: seq<Simulacion>, s: Simulacion)
    ensures RemovedAt([s] + h, 0) == h
  {
    var r := RemovedAt([s] + h, 0);
    assert |r| == |h|;
    assert forall j :: 0 <= j < |h| ==> r[j] == ([s] + h)[j + 1] == h[j];
  }

  class HistoryStore {
    /** The storage slot of the key `simulacionesPrestamo_v1`: `None` when the key is absent. */
    var stored: Option<seq<Simulacion>>

    /** A store over whatever the slot holds when the page loads. */
    constructor(slot: Option<seq<Simulacion>>)
      ensures stored == slot
    {
      stored := slot;
    }

    /** The history as a read sees it: the stored list, or empty when nothing is stored. */
    function Contents(): (h: seq<Simulacion>)
      reads this
      ensures stored.None? ==> h == []
      ensures stored.Some? ==> h == stored.value
    {
      if stored.Some? then stored.value else []
    }

    /** `leerHistorial`: the stored list, or the empty list when the key is absent. */
    method Read() returns (h: seq<Simulacion>)
      ensures h == Contents()
    {
      match stored
      case None => h := [];
      case Some(saved) => h := saved;
    }

    /** `guardarHistorial`: overwrites the slot with the whole list. */
    method Save(h: seq<Simulacion>)
      modifies this
      ensures stored == Some(h)
    {
      stored := Some(h);
    }

    /** `agregarSimulacionAlHistorial`: reads, puts the record in front (`unshift`), saves. */
    method Add(s: Simulacion)
      modifies this
      ensures stored == Some([s] + old(Contents()))
      ensures |Contents()| == |old(Contents())| + 1
      ensures Contents()[0] == s && Contents()[1..] == old(Contents())
    {
      var h := Read();
      h := [s] + h;
      Save(h);
    }

    /** The delete handler: removes the record at `index` only when it is in range. */
    method RemoveAt(index: int)
      modifies this
      ensures 0 <= index < |old(Contents())| ==>
        stored == Some(RemovedAt(old(Contents()), index)) && |Contents()| == |old(Contents())| - 1
      ensures !(0 <= index < |old(Contents())|) ==> stored == old(stored)
    {
      var h := Read();
      if 0 <= index < |h| {
        h := RemovedAt(h, index);
        Save(h);
      }
    }

    /** The clear handler: removes the key altogether. */
    method Clear()
      modifies this
      ensures stored == None && Contents() == []
    {
      stored := None;
    }
  }

  /** Reading right after a save returns exactly what was saved. */
  method SaveThenRead(store: HistoryStore, h: seq<Simulacion>) returns (r: seq<Simulacion>)
    modifies store
    ensures r == h
  {
    store.Save(h);
    r := store.Read();
  }

  /** Whatever was stored before, a read after clearing returns the empty list. */
  method ClearThenRead(store: HistoryStore) returns (r: seq<Simulacion>)
    modifies store
    ensures r == []
  {
    store.Clear();
    r := store.Read();
  }

  /** Two additions: the later one comes first, the earlier one second, the old history after. */
  method AddTwiceThenRead(store: HistoryStore, a: Simulacion, b: Simulacion) returns (r: seq<Simulacion>)
    modifies store
    ensures r == [b, a] + old(store.Contents())
  {
    store.Add(a);
    store.Add(b);
    r := store.Read();
  }
}
