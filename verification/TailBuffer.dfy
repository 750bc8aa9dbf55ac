/** The buffer that keeps the end of a Codex process's output. */
module TailBuffer {

  type byte = bv8

  // The last `max` elements of a sequence, or all of it.
  function Tail<T>(s: seq<T>, max: nat): (r: seq<T>)
    ensures |r| == if |s| <= max then |s| else max
  {
    if |s| <= max then s else s[|s| - max..]
  }

  // The tail of a longer history can be had from the tail of the shorter one.
  lemma TailAppend<T>(s: seq<T>, p: seq<T>, max: nat)
    ensures Tail(Tail(s, max) + p, max) == Tail(s + p, max)
  {
    var t := Tail(s, max);
    if |s| > max {
      assert s + p == s[..|s| - max] + (t + p);
    }
  }

  // How the buffer gets there: a long chunk replaces everything, a short one pushes out what no longer fits.
  lemma TailOfMore<T>(kept: seq<T>, p: seq<T>, max: nat)
    requires |kept| <= max
    ensures |p| >= max ==> Tail(kept + p, max) == p[|p| - max..]
    ensures |p| < max ==>
      Tail(kept + p, max) == (if |kept| + |p| > max then kept[|kept| + |p| - max..] else kept) + p
  {
  }

  function Concat<T>(chunks: seq<seq<T>>): seq<T> {
    if chunks == [] then [] else Concat(chunks[..|chunks| - 1]) + chunks[|chunks| - 1]
  }

  // What is kept after a sequence of writes, keeping only the tail after each.
  function Kept<T>(chunks: seq<seq<T>>, max: nat): seq<T> {
    if chunks == [] then [] else Tail(Kept(chunks[..|chunks| - 1], max) + chunks[|chunks| - 1], max)
  }

  // However the output is cut into writes, the buffer ends up with the tail of all of it.
  lemma {:induction false} KeptIsTail<T>(chunks: seq<seq<T>>, max: nat)
    ensures Kept(chunks, max) == Tail(Concat(chunks), max)
  {
    if chunks != [] {
      var front, last := chunks[..|chunks| - 1], chunks[|chunks| - 1];
      KeptIsTail(front, max);
      TailAppend(Concat(front), last, max);
    }
  }

  class Buffer {
    const max: int
    const data: array<byte>       // the slice's backing array
    var len: nat
    ghost var history: seq<byte>  // everything ever written

    ghost function Limit(): nat {
      if max <= 0 then 0 else max
    }

    ghost predicate Valid()
      reads this, data
    {
      data.Length == Limit() && len <= data.Length && data[..len] == Tail(history, Limit())
    }

    constructor (maximum: int)
      ensures Valid() && max == maximum && history == [] && fresh(data)
    {
      max := maximum;
      data := new byte[if maximum <= 0 then 0 else maximum](_ => 0);
      len := 0;
      history := [];
    }

    // copy(data, data[overflow:]) and the shorter slice
    method Shift(overflow: nat)
      requires overflow <= len <= data.Length
      modifies this`len, data
      ensures len == old(len) - overflow && data[..len] == old(data[..len])[overflow..]
    {
      forall j | 0 <= j < len - overflow { data[j] := data[j + overflow]; }
      len := len - overflow;
    }

    // append(data[:at], q...)
    method Fill(at: nat, q: seq<byte>)
      requires at + |q| <= data.Length
      modifies data
      ensures data[..at + |q|] == old(data[..at]) + q
    {
      for j := 0 to |q|
        invariant data[..at + j] == old(data[..at]) + q[..j]
      {
        data[at + j] := q[j];
      }
    }

    // A chunk shorter than the buffer pushes out what no longer fits
    method Append(p: seq<byte>)
      requires len <= data.Length == max && |p| < max
      modifies this`len, data
      ensures len <= data.Length
      ensures var kept := old(data[..len]);
        data[..len] == (if |kept| + |p| > max then kept[|kept| + |p| - max..] else kept) + p
    {
      var overflow := len + |p| - max;
      if overflow > 0 { Shift(overflow); }
      Fill(len, p);
      len := len + |p|;
    }

    method Write(p: seq<byte>) returns (written: nat)
      requires Valid()
      modifies this`len, this`history, data
      ensures Valid() && history == old(history) + p && written == |p|
    {
      written := |p|;
      ghost var kept := data[..len];
      TailAppend(history, p, Limit());
      TailOfMore(kept, p, Limit());
      history := history + p;
      if max <= 0 { return; }
      hide Tail;
      if |p| >= max {
        len := max;
        Fill(0, p[|p| - max..]);
        return;
      }
      Append(p);
    }

    // String
    method Contents() returns (s: seq<byte>)
      requires Valid()
      ensures s == Tail(history, Limit())
    {
      s := data[..len];
    }
  }
}
