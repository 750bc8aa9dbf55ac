/** The manager's target registry: its display order, and what create, update and delete commit to it. */
module JobRegistry {
  import opened Text
  import opened Targets
  import opened JobState
  import opened JobSteps

  predicate LexLess(a: string, b: string) {
    if b == "" then false
    else if a == "" then true
    else a[0] < b[0] || (a[0] == b[0] && LexLess(a[1..], b[1..]))
  }

  // The order of the store's listing: by sort order, then by id.
  predicate Before(t: Target, u: Target) {
    t.sortOrder < u.sortOrder || (t.sortOrder == u.sortOrder && t.id < u.id)
  }

  // The comparison of sortTargetsLocked.
  predicate Less(t: Target, u: Target) {
    if t.sortOrder != u.sortOrder then t.sortOrder < u.sortOrder
    else if t.id != u.id then t.id < u.id
    else LexLess(ToLower(t.name), ToLower(u.name))
  }

  // sort.SliceStable, as insertion: a key goes behind every key it is not less than.
  function Insert(order: seq<Key>, k: Key, cells: map<Key, Cell>): (r: seq<Key>)
    requires k in cells && Listed(cells, order)
    ensures multiset(r) == multiset(order + [k])
    ensures Listed(cells, r)
  {
    if order == [] || !Less(cells[k].target, cells[order[|order| - 1]].target) then order + [k]
    else
      var front, last := order[..|order| - 1], order[|order| - 1];
      assert order == front + [last];
      var r := Insert(front, k, cells) + [last];
      assert forall x <- r :: x in multiset(r);
      r
  }

  function SortTargets(order: seq<Key>, cells: map<Key, Cell>): (r: seq<Key>)
    requires Listed(cells, order)
    ensures multiset(r) == multiset(order)
    ensures Listed(cells, r)
  {
    if order == [] then []
    else
      assert order == order[..|order| - 1] + [order[|order| - 1]];
      Insert(SortTargets(order[..|order| - 1], cells), order[|order| - 1], cells)
  }

  ghost predicate NoRepeats(order: seq<Key>) {
    forall i, j :: 0 <= i < j < |order| ==> order[i] != order[j]
  }

  // The first occurrence of k is taken out.
  function Without(order: seq<Key>, k: Key): (r: seq<Key>)
    ensures forall x <- r :: x in order
    ensures forall x <- order :: x == k || x in r
  {
    if order == [] then []
    else if order[0] == k then order[1..]
    else [order[0]] + Without(order[1..], k)
  }

  // The first occurrence of `oldKey` becomes `newKey`.
  function Renamed(order: seq<Key>, oldKey: Key, newKey: Key): (r: seq<Key>)
    ensures |r| == |order|
    ensures forall x <- r :: x in order || x == newKey
  {
    if order == [] then []
    else if order[0] == oldKey then [newKey] + order[1..]
    else [order[0]] + Renamed(order[1..], oldKey, newKey)
  }

  lemma {:induction false} WithoutAt(order: seq<Key>, k: Key, n: nat)
    requires n < |order| && order[n] == k && k !in order[..n]
    ensures Without(order, k) == order[..n] + order[n + 1..]
  {
    if n > 0 {
      assert order[..n] == [order[0]] + order[1..][..n - 1];
      WithoutAt(order[1..], k, n - 1);
    }
  }

  lemma {:induction false} RenamedAt(order: seq<Key>, oldKey: Key, newKey: Key, n: nat)
    requires n < |order| && order[n] == oldKey && oldKey !in order[..n]
    ensures Renamed(order, oldKey, newKey) == order[n := newKey]
  {
    if n > 0 {
      assert order[..n] == [order[0]] + order[1..][..n - 1];
      RenamedAt(order[1..], oldKey, newKey, n - 1);
      assert order[n := newKey] == [order[0]] + order[1..][n - 1 := newKey];
    }
  }

  // targetKeyByIDLocked
  function KeyOf(cells: map<Key, Cell>, order: seq<Key>, id: int): (r: Option<Key>)
    requires Listed(cells, order)
    ensures r.Some? ==> r.value in order && cells[r.value].target.id == id
    ensures r.None? ==> forall k <- order :: cells[k].target.id != id
  {
    if order == [] then None
    else if cells[order[0]].target.id == id then Some(order[0])
    else KeyOf(cells, order[1..], id)
  }

  // ---------------------------------------------------------------- create, update, delete

  // How the section that persists ends: before it calls persist it has checked everything but Committed's own effect.
  datatype Outcome = Committed | NoSuchTarget | StillBusy | NameTaken

  function CreateOutcome(s: State, name: string): Outcome {
    if Normalize(name) in s.cells then NameTaken else Committed
  }

  function UpdateOutcome(s: State, id: int, name: string): Outcome
    requires Formed(s)
  {
    var k, newKey := KeyOf(s.cells, s.order, id), Normalize(name);
    if k.None? then NoSuchTarget
    else if Busy(s.cells[k.value]) then StillBusy
    else if newKey in s.cells && s.cells[newKey].target.id != id then NameTaken
    else Committed
  }

  function DeleteOutcome(s: State, id: int): Outcome
    requires Formed(s)
  {
    var k := KeyOf(s.cells, s.order, id);
    if k.None? then NoSuchTarget else if Busy(s.cells[k.value]) then StillBusy else Committed
  }

  // CreateTarget, `target` being what persist left in it
  function CreateTarget(s: State, target: Target): (r: State)
    requires Formed(s)
    ensures Formed(r)
  {
    if CreateOutcome(s, target.name) != Committed then s
    else
      var k := Normalize(target.name);
      var cells := s.cells[k := NewCell(target)];
      Broadcast(s.(cells := cells, order := SortTargets(s.order + [k], cells)))
  }

  // The target's entry under its new name.
  function CellsRenamed(cells: map<Key, Cell>, k: Key, newKey: Key, target: Target): map<Key, Cell>
    requires k in cells
  {
    (if newKey == k then cells else cells - {k})[newKey := cells[k].(target := target)]
  }

  function OrderRenamed(order: seq<Key>, k: Key, newKey: Key): seq<Key> {
    if newKey == k then order else Renamed(order, k, newKey)
  }

  lemma RenamedIsListed(cells: map<Key, Cell>, order: seq<Key>, k: Key, newKey: Key, target: Target)
    requires Listed(cells, order) && NoRepeats(order) && k in order
    ensures Listed(CellsRenamed(cells, k, newKey, target), OrderRenamed(order, k, newKey))
  {
    var n :| 0 <= n < |order| && order[n] == k;
    RenamedAt(order, k, newKey, n);
  }

  // The second section of UpdateTarget
  function UpdateTarget(s: State, id: int, target: Target): (r: State)
    requires Formed(s) && NoRepeats(s.order)
    ensures Formed(r)
  {
    if UpdateOutcome(s, id, target.name) != Committed then s
    else
      var k, newKey := KeyOf(s.cells, s.order, id).value, Normalize(target.name);
      var cells, order := CellsRenamed(s.cells, k, newKey, target), OrderRenamed(s.order, k, newKey);
      assert Listed(cells, order) by { RenamedIsListed(s.cells, s.order, k, newKey, target); }
      Broadcast(s.(cells := cells, order := SortTargets(order, cells)))
  }

  lemma WithoutIsListed(cells: map<Key, Cell>, order: seq<Key>, k: Key)
    requires Listed(cells, order) && NoRepeats(order) && k in order
    ensures Listed(cells - {k}, Without(order, k))
  {
    var n :| 0 <= n < |order| && order[n] == k;
    WithoutAt(order, k, n);
  }

  // The second section of DeleteTarget
  function DeleteTarget(s: State, id: int): (r: State)
    requires Formed(s) && NoRepeats(s.order)
    ensures Formed(r)
  {
    if DeleteOutcome(s, id) != Committed then s
    else
      var k := KeyOf(s.cells, s.order, id).value;
      assert Listed(s.cells - {k}, Without(s.order, k)) by { WithoutIsListed(s.cells, s.order, k); }
      Broadcast(s.(cells := s.cells - {k}, order := Without(s.order, k)))
  }
}
