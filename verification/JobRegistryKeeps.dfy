/** Create, update and delete keep the registry well-formed, and with it the whole invariant. */
module JobRegistryKeeps {
  import opened Text
  import opened Targets
  import opened JobState
  import opened JobRegistry
  import opened JobInvariant
  import opened JobApiKeeps

  // ---------------------------------------------------------------- listings without repetitions

  lemma {:induction false} OnceEach(order: seq<Key>, x: Key)
    requires NoRepeats(order)
    ensures multiset(order)[x] == if x in order then 1 else 0
  {
    if order != [] {
      var front, last := order[..|order| - 1], order[|order| - 1];
      assert order == front + [last];
      OnceEach(front, x);
      assert x in order <==> x in front || x == last;
      assert forall n :: 0 <= n < |front| ==> front[n] == order[n];
    }
  }

  lemma SameElementsNoRepeats(order: seq<Key>, r: seq<Key>)
    requires NoRepeats(order) && multiset(r) == multiset(order)
    ensures NoRepeats(r)
  {
    forall i, j | 0 <= i < j < |r| ensures r[i] != r[j] {
      if r[i] == r[j] {
        assert r == r[..j] + [r[j]] + r[j + 1..];
        assert multiset(r) == multiset(r[..j]) + multiset{r[j]} + multiset(r[j + 1..]);
        assert r[..j][i] in multiset(r[..j]);
        OnceEach(order, r[i]);
      }
    }
  }

  // ---------------------------------------------------------------- sorting

  // Listed targets have different ids.
  ghost predicate IDsDiffer(cells: map<Key, Cell>, order: seq<Key>)
    requires Listed(cells, order)
  {
    forall i, j :: 0 <= i < j < |order| ==> cells[order[i]].target.id != cells[order[j]].target.id
  }

  lemma AppendKeepsOrder(r: seq<Key>, last: Key, cells: map<Key, Cell>)
    requires Listed(cells, r + [last]) && last in cells && InOrder(cells, r)
    requires forall x <- r :: Before(cells[x].target, cells[last].target)
    ensures InOrder(cells, r + [last])
  {
  }

  lemma {:induction false} InsertKeepsOrder(order: seq<Key>, k: Key, cells: map<Key, Cell>)
    requires k in cells && Listed(cells, order) && InOrder(cells, order)
    requires forall x <- order :: cells[x].target.id != cells[k].target.id
    ensures InOrder(cells, Insert(order, k, cells))
  {
    if order != [] {
      var front, last := order[..|order| - 1], order[|order| - 1];
      assert forall n :: 0 <= n < |front| ==> front[n] == order[n];
      assert last in order;
      if Less(cells[k].target, cells[last].target) {
        InsertKeepsOrder(front, k, cells);
        var r := Insert(front, k, cells);
        forall x <- r ensures Before(cells[x].target, cells[last].target) {
          assert x in multiset(front + [k]);
        }
        AppendKeepsOrder(r, last, cells);
      } else {
        assert Before(cells[last].target, cells[k].target);
        forall x <- order ensures Before(cells[x].target, cells[k].target) {
          assert x == last || Before(cells[x].target, cells[last].target);
        }
        AppendKeepsOrder(order, k, cells);
      }
    }
  }

  lemma {:induction false} SortSorts(order: seq<Key>, cells: map<Key, Cell>)
    requires Listed(cells, order) && IDsDiffer(cells, order)
    ensures InOrder(cells, SortTargets(order, cells))
  {
    if order != [] {
      var front, last := order[..|order| - 1], order[|order| - 1];
      SortSorts(front, cells);
      var r := SortTargets(front, cells);
      forall x <- r ensures cells[x].target.id != cells[last].target.id {
        assert x in multiset(r);
        var n :| 0 <= n < |front| && front[n] == x;
        assert order[n] == x;
      }
      InsertKeepsOrder(r, last, cells);
    }
  }

  // Everybody else comes before the last one.
  lemma LastIsLast(a: seq<Key>, x: Key, cells: map<Key, Cell>)
    requires Listed(cells, a) && InOrder(cells, a) && x in a
    ensures x == a[|a| - 1] || Before(cells[x].target, cells[a[|a| - 1]].target)
  {
    var n :| 0 <= n < |a| && a[n] == x;
  }

  lemma FrontOf(a: seq<Key>)
    requires a != []
    ensures multiset(a[..|a| - 1]) == multiset(a) - multiset{a[|a| - 1]}
  {
    assert a == a[..|a| - 1] + [a[|a| - 1]];
  }

  // Two listings of the same keys in the store's order are one.
  lemma {:induction false} OrderIsUnique(a: seq<Key>, b: seq<Key>, cells: map<Key, Cell>)
    requires Listed(cells, a) && Listed(cells, b) && InOrder(cells, a) && InOrder(cells, b)
    requires multiset(a) == multiset(b)
    ensures a == b
  {
    assert |a| == |multiset(a)| == |multiset(b)| == |b|;
    if a != [] {
      var last, last' := a[|a| - 1], b[|b| - 1];
      assert last in multiset(b) && last' in multiset(a);
      LastIsLast(a, last', cells);
      LastIsLast(b, last, cells);
      FrontOf(a);
      FrontOf(b);
      OrderIsUnique(a[..|a| - 1], b[..|b| - 1], cells);
    }
  }

  // So whatever way a library sorts, it can only end up where SortTargets does.
  lemma SortIsForced(order: seq<Key>, r: seq<Key>, cells: map<Key, Cell>)
    requires Listed(cells, order) && IDsDiffer(cells, order)
    requires multiset(r) == multiset(order) && Listed(cells, r) && InOrder(cells, r)
    ensures r == SortTargets(order, cells)
  {
    SortSorts(order, cells);
    OrderIsUnique(r, SortTargets(order, cells), cells);
  }

  // ---------------------------------------------------------------- the registry after a commit

  // Each target is filed under its normalized name, and ids are unique.
  ghost predicate Filed(cells: map<Key, Cell>) {
    && (forall k <- cells :: k == Normalize(cells[k].target.name))
    && (forall k, l | k in cells && l in cells :: cells[k].target.id == cells[l].target.id ==> k == l)
  }

  lemma IDsOfListed(cells: map<Key, Cell>, order: seq<Key>)
    requires Filed(cells) && NoRepeats(order) && Listed(cells, order)
    ensures IDsDiffer(cells, order)
  {
    hide Normalize;
  }

  // A sorted listing of exactly the targets there are is a registry.
  lemma SortedIsRegistered(cells: map<Key, Cell>, order: seq<Key>)
    requires Filed(cells) && NoRepeats(order) && Listed(cells, order) && forall k <- cells :: k in order
    ensures Registered(cells, SortTargets(order, cells))
  {
    var r := SortTargets(order, cells);
    SameElementsNoRepeats(order, r);
    forall k <- cells ensures k in r { assert k in multiset(order); }
    IDsOfListed(cells, order);
    SortSorts(order, cells);
    hide NoRepeats, InOrder, Normalize, IDsDiffer;
  }

  lemma CreateRegisters(cells: map<Key, Cell>, order: seq<Key>, k: Key, d: Cell)
    requires Registered(cells, order) && k !in cells && k == Normalize(d.target.name)
    requires forall l <- cells :: cells[l].target.id != d.target.id
    ensures Registered(cells[k := d], SortTargets(order + [k], cells[k := d]))
  {
    SortedIsRegistered(cells[k := d], order + [k]);
  }

  lemma RenamedIsFiled(cells: map<Key, Cell>, k: Key, newKey: Key, target: Target)
    requires Filed(cells) && k in cells && newKey == Normalize(target.name) && (newKey == k || newKey !in cells)
    requires target.id == cells[k].target.id
    ensures Filed(CellsRenamed(cells, k, newKey, target))
  {
    hide Normalize;
  }

  lemma RenamedListsAll(cells: map<Key, Cell>, order: seq<Key>, k: Key, newKey: Key, target: Target)
    requires Listed(cells, order) && NoRepeats(order) && (forall l <- cells :: l in order)
    requires k in cells && (newKey == k || newKey !in cells)
    ensures NoRepeats(OrderRenamed(order, k, newKey))
    ensures forall l <- CellsRenamed(cells, k, newKey, target) :: l in OrderRenamed(order, k, newKey)
  {
    var cells', order' := CellsRenamed(cells, k, newKey, target), OrderRenamed(order, k, newKey);
    if newKey == k { return; }
    var n :| 0 <= n < |order| && order[n] == k;
    RenamedAt(order, k, newKey, n);
    forall l <- cells' ensures l in order' {
      if l == newKey { assert order'[n] == l; }
      else { var m :| 0 <= m < |order| && order[m] == l; assert order'[m] == l; }
    }
  }

  lemma UpdateRegisters(cells: map<Key, Cell>, order: seq<Key>, k: Key, newKey: Key, target: Target)
    requires Registered(cells, order) && k in cells && newKey == Normalize(target.name)
    requires newKey == k || newKey !in cells
    requires target.id == cells[k].target.id
    ensures Listed(CellsRenamed(cells, k, newKey, target), OrderRenamed(order, k, newKey))
    ensures Registered(CellsRenamed(cells, k, newKey, target),
                       SortTargets(OrderRenamed(order, k, newKey), CellsRenamed(cells, k, newKey, target)))
  {
    hide Normalize, InOrder, OrderRenamed;
    RenamedIsListed(cells, order, k, newKey, target);
    var cells', order' := CellsRenamed(cells, k, newKey, target), OrderRenamed(order, k, newKey);
    RenamedIsFiled(cells, k, newKey, target);
    hide CellsRenamed;
    RenamedListsAll(cells, order, k, newKey, target);
    SortedIsRegistered(cells', order');
  }

  function Cut(order: seq<Key>, n: nat): seq<Key>
    requires n < |order|
  {
    order[..n] + order[n + 1..]
  }

  lemma CutKeepsOrder(cells: map<Key, Cell>, order: seq<Key>, n: nat)
    requires n < |order| && NoRepeats(order) && Listed(cells, order) && InOrder(cells, order)
    ensures order[n] !in Cut(order, n) && NoRepeats(Cut(order, n)) && Listed(cells - {order[n]}, Cut(order, n))
    ensures InOrder(cells - {order[n]}, Cut(order, n))
  {
    var r := Cut(order, n);
    forall i | 0 <= i < |r| ensures r[i] == order[if i < n then i else i + 1] {}
  }

  lemma DeleteRegisters(cells: map<Key, Cell>, order: seq<Key>, k: Key)
    requires Registered(cells, order) && k in cells
    ensures k !in Without(order, k)
    ensures Registered(cells - {k}, Without(order, k))
  {
    var n :| 0 <= n < |order| && order[n] == k;
    WithoutAt(order, k, n);
    CutKeepsOrder(cells, order, n);
    hide NoRepeats, InOrder, Cut;
  }

  // ---------------------------------------------------------------- idle targets

  // Busy is exact: a target is idle just when no live goroutine works on it.
  lemma BusyIsExact(s: State, k: Key)
    requires Core(s) && k in s.cells
    ensures Busy(s.cells[k]) <==> exists i :: 0 <= i < |s.workers| && !s.workers[i].pc.Done? && s.workers[i].key == k
  {
    hide Registered, Distinct, Formed;
    var c := s.cells[k];
    assert Shaped(c, k, s.workers, s.env) && Tallied(c, k, s.workers);
    forall i | 0 <= i < |s.workers| && !s.workers[i].pc.Done? && s.workers[i].key == k ensures Busy(c) {
      assert FitsIn(s, i);
      SumAtLeast(s.workers, i, WorkersOf(s.workers[i].kind, k));
    }
    if c.job.workers > 0 { var i := SumWitness(s.workers, WorkersOf(Queue, k)); }
    if c.keepalive.workers > 0 { var i := SumWitness(s.workers, WorkersOf(Keepalive, k)); }
  }

  ghost predicate NoneWorksOn(ws: seq<Worker>, k: Key) {
    forall i :: 0 <= i < |ws| && !ws[i].pc.Done? ==> ws[i].key != k
  }

  lemma NoneCounted(ws: seq<Worker>, k: Key, kind: Owner)
    requires NoneWorksOn(ws, k)
    ensures Sum(ws, WorkersOf(kind, k)) == 0
  {
    if Sum(ws, WorkersOf(kind, k)) > 0 { var i := SumWitness(ws, WorkersOf(kind, k)); }
  }

  // What an idle target's entry looks like: nothing in it refers to a goroutine.
  ghost predicate Vacant(c: Cell) {
    && !Busy(c) && c.job.workers == 0 && c.keepalive.workers == 0
    && c.job.cancel == None && c.job.subscribers == map[] && c.keepalive.cancel == None
    && c.job.nextAttempt == None
    && c.arbiter.cancel == None && c.arbiter.ownerRunID == 0
  }

  lemma NotBusyIsIdle(s: State, k: Key)
    requires Core(s) && k in s.cells && !Busy(s.cells[k])
    ensures Vacant(s.cells[k]) && NoneWorksOn(s.workers, k)
  {
    BusyIsExact(s, k);
    CellFacts(s, k);
    hide Core;
  }

  lemma IdleFits(c: Cell, k: Key, ws: seq<Worker>, env: Env)
    requires Vacant(c) && NoneWorksOn(ws, k)
    ensures Shaped(c, k, ws, env) && Tallied(c, k, ws)
  {
    NoneCounted(ws, k, Queue);
    NoneCounted(ws, k, Keepalive);
  }

  // ---------------------------------------------------------------- the commits

  // Both have k, and its entries differ at most in the target's settings.
  predicate Retargeted(cells: map<Key, Cell>, cells': map<Key, Cell>, k: Key) {
    k in cells && k in cells' && cells'[k].(target := cells[k].target) == cells[k]
  }

  lemma RegisteredIsListed(cells: map<Key, Cell>, order: seq<Key>)
    requires Registered(cells, order)
    ensures Listed(cells, order)
  {
  }

  lemma RetargetFits(w: Worker, i: nat, c: Cell, d: Cell)
    requires d.(target := c.target) == c && Fits(w, i, c)
    ensures Fits(w, i, d)
  {
  }

  lemma RetargetShape(c: Cell, d: Cell, k: Key, ws: seq<Worker>, env: Env)
    requires d.(target := c.target) == c && Shaped(c, k, ws, env) && Tallied(c, k, ws)
    ensures Shaped(d, k, ws, env) && Tallied(d, k, ws)
  {
  }

  // The registry may be replaced by one that keeps every entry somebody works on.
  lemma ReplaceKeeps(s: State, cells: map<Key, Cell>, order: seq<Key>)
    requires Core(s) && Registered(cells, order)
    requires forall k <- s.cells :: NoneWorksOn(s.workers, k) || Retargeted(s.cells, cells, k)
    requires forall k <- cells :: (Vacant(cells[k]) && NoneWorksOn(s.workers, k)) || Retargeted(s.cells, cells, k)
    ensures Core(s.(cells := cells, order := order))
  {
    hide Registered, Distinct, Tallied, Shaped, History, Ambient, Vacant, Fits;
    var t := s.(cells := cells, order := order);
    forall i | 0 <= i < |t.workers| ensures FitsIn(t, i) {
      assert FitsIn(s, i);
      var w := s.workers[i];
      if !w.pc.Done? { RetargetFits(w, i, s.cells[w.key], cells[w.key]); }
    }
    forall k <- cells ensures Shaped(cells[k], k, s.workers, s.env) && Tallied(cells[k], k, s.workers) {
      if Vacant(cells[k]) && NoneWorksOn(s.workers, k) { IdleFits(cells[k], k, s.workers, s.env); }
      else {
        CellFacts(s, k);
        RetargetShape(s.cells[k], cells[k], k, s.workers, s.env);
      }
    }
    assert Listed(cells, order) by { RegisteredIsListed(cells, order); }
  }

  // Nobody works on a target the manager does not have.
  lemma UnknownIsUnused(s: State, k: Key)
    requires AllFit(s) && k !in s.cells
    ensures NoneWorksOn(s.workers, k)
  {
    forall i | 0 <= i < |s.workers| && !s.workers[i].pc.Done? ensures s.workers[i].key != k { assert FitsIn(s, i); }
  }

  // The store gives every new row an id of its own.
  ghost predicate FreshID(s: State, target: Target) {
    forall k <- s.cells :: s.cells[k].target.id != target.id
  }

  lemma NewIsVacant(target: Target)
    ensures Vacant(NewCell(target))
  {
  }

  lemma CoreListing(s: State)
    requires Core(s)
    ensures Formed(s) && NoRepeats(s.order)
  {
  }

  lemma UnknownInCore(s: State, k: Key)
    requires Core(s) && k !in s.cells
    ensures NoneWorksOn(s.workers, k)
  {
    UnknownIsUnused(s, k);
  }

  lemma CoreIsRegistered(s: State)
    requires Core(s)
    ensures Registered(s.cells, s.order)
  {
  }

  lemma CreateTargetKeeps(s: State, target: Target)
    requires Core(s) && FreshID(s, target)
    ensures Core(CreateTarget(s, target))
  {
    hide Core, Registered, NoneWorksOn, Vacant;
    CoreListing(s);
    if CreateOutcome(s, target.name) == Committed {
      var k := Normalize(target.name);
      UnknownInCore(s, k);
      CoreIsRegistered(s);
      CreateRegisters(s.cells, s.order, k, NewCell(target));
      var cells := s.cells[k := NewCell(target)];
      var order := SortTargets(s.order + [k], cells);
      NewIsVacant(target);
      ReplaceKeeps(s, cells, order);
      BroadcastKeeps(s.(cells := cells, order := order));
    }
  }

  // Two listed targets with one id are one target.
  lemma IDIsUnique(s: State, k: Key, l: Key)
    requires Core(s) && k in s.cells && l in s.cells && s.cells[k].target.id == s.cells[l].target.id
    ensures k == l
  {
  }

  lemma RetargetIdle(c: Cell, target: Target)
    requires Vacant(c)
    ensures Vacant(c.(target := target))
  {
  }

  // Renaming an idle target leaves every entry somebody works on.
  lemma RenamedEntries(cells: map<Key, Cell>, k: Key, newKey: Key, target: Target, ws: seq<Worker>)
    requires k in cells && Vacant(cells[k]) && NoneWorksOn(ws, k)
    requires newKey == k || (newKey !in cells && NoneWorksOn(ws, newKey))
    ensures var cells' := CellsRenamed(cells, k, newKey, target);
      && (forall l <- cells :: NoneWorksOn(ws, l) || Retargeted(cells, cells', l))
      && (forall l <- cells' :: (Vacant(cells'[l]) && NoneWorksOn(ws, l)) || Retargeted(cells, cells', l))
  {
    RetargetIdle(cells[k], target);
    hide Vacant, NoneWorksOn;
  }

  // The registry UpdateTarget leaves.
  lemma UpdateTargetReplaces(s: State, id: int, target: Target, k: Key, newKey: Key)
    requires Core(s) && target.id == id && k in s.cells && s.cells[k].target.id == id && !Busy(s.cells[k])
    requires newKey == Normalize(target.name) && (newKey in s.cells ==> s.cells[newKey].target.id == id)
    ensures var cells, order := CellsRenamed(s.cells, k, newKey, target), OrderRenamed(s.order, k, newKey);
      && Formed(s) && Listed(cells, order) && Core(s.(cells := cells, order := SortTargets(order, cells)))
  {
    hide Core, Registered, Vacant, NoneWorksOn, Busy, CellsRenamed, OrderRenamed, Normalize, SortTargets, Retargeted;
    if newKey in s.cells { IDIsUnique(s, k, newKey); } else { UnknownInCore(s, newKey); }
    NotBusyIsIdle(s, k);
    CoreListing(s);
    CoreIsRegistered(s);
    UpdateRegisters(s.cells, s.order, k, newKey, target);
    RenamedEntries(s.cells, k, newKey, target, s.workers);
    var cells := CellsRenamed(s.cells, k, newKey, target);
    ReplaceKeeps(s, cells, SortTargets(OrderRenamed(s.order, k, newKey), cells));
  }

  lemma FormedIsListed(s: State)
    requires Formed(s)
    ensures Listed(s.cells, s.order)
  {
  }

  lemma UpdateTargetKeeps(s: State, id: int, target: Target)
    requires Core(s) && target.id == id
    ensures Formed(s) && NoRepeats(s.order) && Core(UpdateTarget(s, id, target))
  {
    hide Core, NoRepeats, Formed, CellsRenamed, OrderRenamed, Busy;
    CoreListing(s);
    FormedIsListed(s);
    if UpdateOutcome(s, id, target.name) == Committed {
      var k, newKey := KeyOf(s.cells, s.order, id).value, Normalize(target.name);
      UpdateTargetReplaces(s, id, target, k, newKey);
      var cells := CellsRenamed(s.cells, k, newKey, target);
      BroadcastKeeps(s.(cells := cells, order := SortTargets(OrderRenamed(s.order, k, newKey), cells)));
    }
  }

  lemma DeleteTargetKeeps(s: State, id: int)
    requires Core(s)
    ensures Formed(s) && NoRepeats(s.order) && Core(DeleteTarget(s, id))
  {
    hide Core, Registered, NoRepeats, Vacant, NoneWorksOn;
    CoreListing(s);
    if DeleteOutcome(s, id) == Committed {
      var k := KeyOf(s.cells, s.order, id).value;
      NotBusyIsIdle(s, k);
      CoreIsRegistered(s);
      DeleteRegisters(s.cells, s.order, k);
      ReplaceKeeps(s, s.cells - {k}, Without(s.order, k));
      RegisteredIsListed(s.cells - {k}, Without(s.order, k));
      BroadcastKeeps(s.(cells := s.cells - {k}, order := Without(s.order, k)));
    }
  }
}
