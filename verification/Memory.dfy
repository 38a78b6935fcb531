/** The alias memory of one function frame: which synchronisation object each place holds. */
module AliasMemory {
  import opened Wrappers
  import opened Mir
  import opened ControlPoints

  datatype Value =
    | Mutex(id: Point)
    | MutexGuard(mutex: Point)
    | JoinHandle(thread: ThreadName)
    | Condvar(id: Point)
    | Bundle(values: seq<Value>)

  type Cells = map<Place, Value>

  // ---------------------------------------------------------------------------------------------
  // Specification of the operations; `None` is a panic of the translator.

  function GetMutex(cells: Cells, place: Place): Option<Point> {
    if place in cells && cells[place].Mutex? then Some(cells[place].id) else None
  }

  function GetGuard(cells: Cells, place: Place): Option<Point> {
    if place in cells && cells[place].MutexGuard? then Some(cells[place].mutex) else None
  }

  function GetHandle(cells: Cells, place: Place): Option<ThreadName> {
    if place in cells && cells[place].JoinHandle? then Some(cells[place].thread) else None
  }

  function GetCondvar(cells: Cells, place: Place): Option<Point> {
    if place in cells && cells[place].Condvar? then Some(cells[place].id) else None
  }

  function GetBundle(cells: Cells, place: Place): Option<seq<Value>> {
    if place in cells && cells[place].Bundle? then Some(cells[place].values) else None
  }

  function LinkedAlias(cells: Cells, place: Place, linked: Place): Option<Cells> {
    if linked in cells then Some(cells[place := cells[linked]]) else None
  }

  function LinkedBundle(cells: Cells, place: Place, values: seq<Value>): Option<Cells> {
    if place in cells then None else Some(cells[place := Bundle(values)])
  }

  function LinkedField(cells: Cells, place: Place, bundle: Place, index: nat): Option<Cells> {
    match GetBundle(cells, bundle)
    case None => None
    case Some(values) =>
      if index < |values| && place !in cells then Some(cells[place := values[index]]) else None
  }

  /** The values of several places, in order. */
  function ValuesOf(cells: Cells, places: seq<Place>): Option<seq<Value>> {
    if places == [] then Some([])
    else
      var last := |places| - 1;
      match ValuesOf(cells, places[..last])
      case None => None
      case Some(values) => if places[last] in cells then Some(values + [cells[places[last]]]) else None
  }

  function CreatedBundle(cells: Cells, place: Place, places: seq<Place>): Option<Cells> {
    match ValuesOf(cells, places)
    case None => None
    case Some(values) => LinkedBundle(cells, place, values)
  }

  // ---------------------------------------------------------------------------------------------
  // The memory object of a frame

  class Memory {
    var cells: Cells

    constructor ()
      ensures cells == map[]
    {
      cells := map[];
    }

    method LinkMutex(place: Place, id: Point)
      modifies this
      ensures cells == old(cells)[place := Mutex(id)]
    {
      cells := cells[place := Mutex(id)];
    }

    method LinkMutexGuard(place: Place, mutex: Point)
      modifies this
      ensures cells == old(cells)[place := MutexGuard(mutex)]
    {
      cells := cells[place := MutexGuard(mutex)];
    }

    method LinkJoinHandle(place: Place, thread: ThreadName)
      modifies this
      ensures cells == old(cells)[place := JoinHandle(thread)]
    {
      cells := cells[place := JoinHandle(thread)];
    }

    method LinkCondvar(place: Place, id: Point)
      modifies this
      ensures cells == old(cells)[place := Condvar(id)]
    {
      cells := cells[place := Condvar(id)];
    }

    method LinkAggregate(place: Place, values: seq<Value>) returns (ok: bool)
      modifies this
      ensures ok == LinkedBundle(old(cells), place, values).Some?
      ensures ok ==> Some(cells) == LinkedBundle(old(cells), place, values)
      ensures ok <==> place !in old(cells)
      ensures ok ==> cells == old(cells)[place := Bundle(values)]
    {
      ok := place !in cells;
      cells := cells[place := Bundle(values)];
    }

    method LinkPlaceToSameValue(place: Place, linked: Place) returns (ok: bool)
      modifies this
      ensures ok == LinkedAlias(old(cells), place, linked).Some?
      ensures ok ==> Some(cells) == LinkedAlias(old(cells), place, linked)
      ensures ok <==> linked in old(cells)
      ensures ok ==> cells == old(cells)[place := old(cells)[linked]]
    {
      ok := linked in cells;
      if ok {
        cells := cells[place := cells[linked]];
      }
    }

    method CreateAggregate(place: Place, places: seq<Place>) returns (ok: bool)
      modifies this
      ensures ok == CreatedBundle(old(cells), place, places).Some?
      ensures ok ==> Some(cells) == CreatedBundle(old(cells), place, places)
      ensures ok <==> place !in old(cells) && forall i :: 0 <= i < |places| ==> places[i] in old(cells)
      ensures ok ==>
        && place in cells && cells[place].Bundle? && cells == old(cells)[place := cells[place]] && |cells[place].values| == |places|
        && forall i :: 0 <= i < |places| ==> cells[place].values[i] == old(cells)[places[i]]
    {
      var values: seq<Value> := [];
      for i := 0 to |places|
        invariant cells == old(cells)
        invariant ValuesOf(cells, places[..i]) == Some(values)
      {
        assert places[..i + 1][..i] == places[..i];
        if places[i] !in cells {
          MissingPlace(cells, places, i);
          return false;
        }
        values := values + [cells[places[i]]];
      }
      assert places[..|places|] == places;
      ValuesAre(cells, places);
      ok := LinkAggregate(place, values);
    }

    method LinkFieldInAggregate(place: Place, bundle: Place, index: nat) returns (ok: bool)
      modifies this
      ensures ok == LinkedField(old(cells), place, bundle, index).Some?
      ensures ok ==> Some(cells) == LinkedField(old(cells), place, bundle, index)
      ensures ok <==> bundle in old(cells) && old(cells)[bundle].Bundle? && index < |old(cells)[bundle].values| && place !in old(cells)
      ensures ok ==> cells == old(cells)[place := old(cells)[bundle].values[index]]
    {
      var values := GetBundle(cells, bundle);
      if values.None? || index >= |values.value| || place in cells {
        return false;
      }
      cells := cells[place := values.value[index]];
      ok := true;
    }
  }

  lemma {:induction false} ValuesAre(cells: Cells, places: seq<Place>)
    requires ValuesOf(cells, places).Some?
    ensures |ValuesOf(cells, places).value| == |places|
    ensures forall i :: 0 <= i < |places| ==> places[i] in cells && ValuesOf(cells, places).value[i] == cells[places[i]]
  {
    if places != [] {
      ValuesAre(cells, places[..|places| - 1]);
    }
  }

  lemma {:induction false} MissingPlace(cells: Cells, places: seq<Place>, i: nat)
    requires i < |places| && places[i] !in cells
    ensures ValuesOf(cells, places).None?
  {
    var last := |places| - 1;
    if i < last {
      MissingPlace(cells, places[..last], i);
    }
  }
}
