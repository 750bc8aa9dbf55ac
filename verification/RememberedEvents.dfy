/** The hub client's bounded memory of the events it has delivered. */
module RememberedEvents {

  const MAX_REMEMBERED := 2048

  // The ids that are still remembered after these have been accepted.
  function Window(accepted: seq<string>): (r: seq<string>)
    ensures |r| == if |accepted| <= MAX_REMEMBERED then |accepted| else MAX_REMEMBERED
  {
    if |accepted| <= MAX_REMEMBERED then accepted else accepted[|accepted| - MAX_REMEMBERED..]
  }

  // An id is accepted unless it is remembered.
  predicate Fresh(accepted: seq<string>, id: string) {
    id !in Window(accepted)
  }

  // It is remembered while it is among the last 2048 accepted.
  lemma FreshIsExact(accepted: seq<string>, id: string)
    ensures Fresh(accepted, id) <==> forall n :: 0 <= n < |accepted| <= n + 2048 ==> accepted[n] != id
  {
    var w := Window(accepted);
    var first := |accepted| - |w|;
    forall n | first <= n < |accepted| ensures accepted[n] == w[n - first] {}
  }

  // The ids accepted out of a stream of events.
  function Accepted(events: seq<string>): seq<string> {
    if events == [] then []
    else
      var before, id := Accepted(events[..|events| - 1]), events[|events| - 1];
      if Fresh(before, id) then before + [id] else before
  }

  // No two equal ids are accepted within one window.
  ghost predicate Spaced(accepted: seq<string>) {
    forall i, j :: 0 <= i < j < |accepted| && j - i <= MAX_REMEMBERED ==> accepted[i] != accepted[j]
  }

  lemma FreshKeepsSpaced(accepted: seq<string>, id: string)
    requires Spaced(accepted) && Fresh(accepted, id)
    ensures Spaced(accepted + [id])
  {
    var n, w := |accepted|, Window(accepted);
    forall i | 0 <= i < n && n - i <= MAX_REMEMBERED ensures accepted[i] != id {
      assert w[i - (n - |w|)] == accepted[i];
    }
  }

  lemma {:induction false} AcceptedIsSpaced(events: seq<string>)
    ensures Spaced(Accepted(events))
  {
    if events != [] {
      var before, id := Accepted(events[..|events| - 1]), events[|events| - 1];
      AcceptedIsSpaced(events[..|events| - 1]);
      if Fresh(before, id) { FreshKeepsSpaced(before, id); }
    }
  }

  function Elements(s: seq<string>): set<string> {
    set x | x in s
  }

  lemma {:induction false} DifferentElements(s: seq<string>)
    requires forall i, j :: 0 <= i < j < |s| ==> s[i] != s[j]
    ensures |Elements(s)| == |s|
  {
    if s != [] {
      var front, last := s[..|s| - 1], s[|s| - 1];
      DifferentElements(front);
      assert Elements(s) == Elements(front) + {last};
    }
  }

  lemma SpacedRepeats(a: seq<string>, i: nat, j: nat)
    requires Spaced(a) && i < j < |a| && a[i] == a[j]
    ensures j - i > MAX_REMEMBERED && a[j] !in a[j - MAX_REMEMBERED..j]
    ensures |Elements(a[j - MAX_REMEMBERED..j])| == MAX_REMEMBERED
  {
    var recent := a[j - MAX_REMEMBERED..j];
    DifferentElements(recent);
    hide Elements;
  }

  // Between two acceptances of one id, just before the second, 2048 different other ids were accepted.
  lemma RepeatsAreFarApart(events: seq<string>, i: nat, j: nat)
    requires i < j < |Accepted(events)| && Accepted(events)[i] == Accepted(events)[j]
    ensures j - i > MAX_REMEMBERED
    ensures Accepted(events)[j] !in Accepted(events)[j - MAX_REMEMBERED..j]
    ensures |Elements(Accepted(events)[j - MAX_REMEMBERED..j])| == MAX_REMEMBERED
  {
    AcceptedIsSpaced(events);
    hide Accepted, Spaced, Elements;
    SpacedRepeats(Accepted(events), i, j);
  }

  // One id too many: the oldest goes, and is remembered under no other position.
  lemma DropOldest(accepted: seq<string>, order: seq<string>)
    requires Spaced(accepted) && |order| == MAX_REMEMBERED + 1 <= |accepted|
    requires order == accepted[|accepted| - |order|..]
    ensures Elements(order[1..]) == Elements(order) - {order[0]}
    ensures order[1..] == Window(accepted)
  {
    forall n | 1 <= n < |order| ensures order[n] != order[0] {
      assert order[n] == accepted[|accepted| - |order| + n] && order[0] == accepted[|accepted| - |order|];
    }
    assert order == [order[0]] + order[1..];
  }

  class Client {
    var seen: set<string>
    var seenOrder: seq<string>
    ghost var accepted: seq<string>  // every id ever accepted

    ghost predicate Valid()
      reads this
    {
      seenOrder == Window(accepted) && Spaced(accepted) && seen == Elements(seenOrder)
    }

    constructor ()
      ensures Valid() && accepted == []
    {
      seen, seenOrder, accepted := {}, [], [];
    }

    method RememberEvent(id: string) returns (isNew: bool)
      requires Valid()
      modifies this
      ensures Valid() && isNew == Fresh(old(accepted), id)
      ensures accepted == if isNew then old(accepted) + [id] else old(accepted)
    {
      if id in seen { return false; }
      FreshKeepsSpaced(accepted, id);
      accepted := accepted + [id];
      seen := seen + {id};
      assert Elements(seenOrder + [id]) == seen;
      seenOrder := seenOrder + [id];
      if |seenOrder| > MAX_REMEMBERED {
        DropOldest(accepted, seenOrder);
        seen := seen - {seenOrder[0]};
        seenOrder := seenOrder[1..];
      }
      return true;
    }
  }
}
