/** Any number of buffers on one pool: what every call keeps of all of them. */
module DbufQueues {
  import opened DbufLines
  import opened Dbuf

  function Sum(sizes: seq<nat>): nat {
    if sizes == [] then 0 else sizes[0] + Sum(sizes[1..])
  }

  lemma {:induction false} SumUpdate(sizes: seq<nat>, i: nat, n: nat)
    requires i < |sizes|
    ensures Sum(sizes[i := n]) == Sum(sizes) - sizes[i] + n
    ensures sizes[i] <= Sum(sizes)
  {
    if i == 0 {
      assert sizes[0 := n][1..] == sizes[1..];
    } else {
      assert sizes[i := n][1..] == sizes[1..][i - 1 := n];
      SumUpdate(sizes[1..], i - 1, n);
    }
  }

  lemma {:induction false} SumLast(sizes: seq<nat>, n: nat)
    ensures Sum(sizes + [n]) == Sum(sizes) + n
  {
    if sizes == [] {
      assert sizes + [n] == [n];
    } else {
      assert (sizes + [n])[1..] == sizes[1..] + [n];
      SumLast(sizes[1..], n);
    }
  }

  ghost function Sizes(owns: seq<set<Chunk>>): (s: seq<nat>)
    ensures |s| == |owns|
  {
    seq(|owns|, i requires 0 <= i < |owns| => |owns[i]|)
  }

  lemma SizesUpdate(owns: seq<set<Chunk>>, i: nat, own: set<Chunk>)
    requires i < |owns|
    ensures Sum(Sizes(owns[i := own])) == Sum(Sizes(owns)) - |owns[i]| + |own|
    ensures |owns[i]| <= Sum(Sizes(owns))
  {
    SumUpdate(Sizes(owns), i, |own|);
    assert Sizes(owns[i := own]) == Sizes(owns)[i := |own|];
  }

  // Each chunk is free or in one buffer.
  ghost predicate Apart(owns: seq<set<Chunk>>, idle: set<Chunk>) {
    && (forall i :: 0 <= i < |owns| ==> owns[i] !! idle)
    && forall i, j :: 0 <= i < j < |owns| ==> owns[i] !! owns[j]
  }

  // One buffer and the free list have exchanged chunks and taken some from elsewhere.
  lemma StillApart(owns: seq<set<Chunk>>, idle: set<Chunk>, i: nat, own: set<Chunk>, idle': set<Chunk>)
    requires Apart(owns, idle) && i < |owns| && own !! idle'
    requires forall j :: 0 <= j < |owns| ==> owns[j] !! (own + idle' - (owns[i] + idle))
    ensures Apart(owns[i := own], idle')
  {
    forall j | 0 <= j < |owns| && j != i ensures owns[j] !! own && owns[j] !! idle' {
      assert owns[j] !! owns[i] by { assert if j < i then owns[j] !! owns[i] else owns[i] !! owns[j]; }
      assert own + idle' <= (own + idle' - (owns[i] + idle)) + owns[i] + idle;
    }
  }

  class Queues {
    const pool: Pool
    var bufs: seq<DBuf>
    // The chunks of each buffer.
    ghost var owns: seq<set<Chunk>>

    ghost predicate Matched()
      reads this, bufs
    {
      && |bufs| == |owns|
      && (forall i :: 0 <= i < |bufs| ==> bufs[i].own == owns[i])
      && forall i, j :: 0 <= i < j < |bufs| ==> bufs[i] != bufs[j]
    }

    /** Every buffer is well formed, no chunk is shared, and the use count is the number of live chunks. */
    ghost predicate Valid()
      reads this, pool, pool.idle, bufs, set i, c | 0 <= i < |owns| && c in owns[i] :: c
    {
      && Matched() && Apart(owns, pool.idle)
      && pool.Spares()
      && (forall i :: 0 <= i < |bufs| ==> bufs[i].Linked() && bufs[i].Mine() && pool.Lengthy(bufs[i]))
      && pool.used == Sum(Sizes(owns))
    }

    ghost function Contents(): (s: seq<Bytes>)
      reads this, bufs
      ensures |s| == |bufs|
    {
      seq(|bufs|, i requires 0 <= i < |bufs| reads this, bufs => bufs[i].Contents())
    }

    constructor ()
      ensures Valid() && bufs == [] && fresh(pool) && fresh(pool.idle)
    {
      pool := new Pool();
      bufs, owns := [], [];
      new;
      pool.Init();
    }

    method Open() returns (i: nat)
      requires Valid()
      modifies this
      ensures Valid() && i == |old(bufs)| && Contents() == old(Contents()) + [[]]
      ensures bufs[..i] == old(bufs) && fresh(bufs[i])
    {
      hide DBuf.Linked, DBuf.Mine, Pool.Spares;
      var d := new DBuf();
      SumLast(Sizes(owns), 0);
      ghost var sizes := Sizes(owns);
      i := |bufs|;
      bufs, owns := bufs + [d], owns + [{}];
      assert Sizes(owns) == sizes + [0];
    }

    // Nothing that a call on buffer i may change belongs to buffer j.
    ghost predicate Elsewhere(j: nat, i: nat)
      requires i < |bufs| == |owns| && j < |bufs|
      reads this, pool
    {
      bufs[j] != bufs[i] && owns[j] !! owns[i] && owns[j] !! pool.idle
    }

    lemma Ready(i: nat)
      requires Valid() && i < |bufs|
      ensures pool.Valid(bufs[i]) && bufs[i].own == owns[i]
      ensures forall j :: 0 <= j < |bufs| && j != i ==> Elsewhere(j, i)
    {
      hide DBuf.Linked, DBuf.Mine, Pool.Spares;
      SizesUpdate(owns, i, {});
    }

    /** Only the buffer named changes, by the bytes appended. */
    method Put(i: nat, s: Bytes)
      requires Valid() && i < |bufs|
      modifies this`owns, pool, pool.idle, bufs[i], bufs[i].own
      ensures Valid() && |bufs| == |old(Contents())|
      ensures Contents() == old(Contents())[i := old(Contents())[i] + s]
    {
      hide DBuf.Linked, DBuf.Mine, Pool.Spares, Pool.Lengthy, Sum, Flat, Apart, Sizes, DbufLines.GetMsg;
      Ready(i);
      ghost var was, idle := owns, pool.idle;
      pool.Put(bufs[i], s);
      Changed(was, idle, i, bufs[i].own, pool.idle);
      owns := owns[i := bufs[i].own];
      forall j | 0 <= j < |bufs|
        ensures bufs[j].own == owns[j] && bufs[j].Linked() && bufs[j].Mine() && pool.Lengthy(bufs[j])
      {
        if j != i { assert old(Elsewhere(j, i)); }
      }
    }

    /** A prefix goes. */
    method Delete(i: nat, n: nat)
      requires Valid() && i < |bufs|
      modifies this`owns, pool, pool.idle, bufs[i], bufs[i].own
      ensures Valid() && |bufs| == |old(Contents())|
      ensures var was := old(Contents())[i]; Contents() == old(Contents())[i := if n <= |was| then was[n..] else []]
    {
      hide DBuf.Linked, DBuf.Mine, Pool.Spares, Pool.Lengthy, Sum, Flat, Apart, Sizes, DbufLines.GetMsg;
      Ready(i);
      ghost var was, idle := owns, pool.idle;
      pool.Delete(bufs[i], n);
      Changed(was, idle, i, bufs[i].own, pool.idle);
      owns := owns[i := bufs[i].own];
      forall j | 0 <= j < |bufs|
        ensures bufs[j].own == owns[j] && bufs[j].Linked() && bufs[j].Mine() && pool.Lengthy(bufs[j])
      {
        if j != i { assert old(Elsewhere(j, i)); }
      }
    }

    /** A prefix goes and is returned. */
    method Get(i: nat, n: nat) returns (buf: Bytes)
      requires Valid() && i < |bufs|
      modifies this`owns, pool, pool.idle, bufs[i], bufs[i].own
      ensures Valid() && |bufs| == |old(Contents())|
      ensures var was := old(Contents())[i];
        && |buf| == (if n <= |was| then n else |was|) && buf <= was && Contents() == old(Contents())[i := was[|buf|..]]
    {
      hide DBuf.Linked, DBuf.Mine, Pool.Spares, Pool.Lengthy, Sum, Flat, Apart, Sizes, DbufLines.GetMsg;
      Ready(i);
      ghost var was, idle := owns, pool.idle;
      buf := pool.Get(bufs[i], n);
      Changed(was, idle, i, bufs[i].own, pool.idle);
      owns := owns[i := bufs[i].own];
      forall j | 0 <= j < |bufs|
        ensures bufs[j].own == owns[j] && bufs[j].Linked() && bufs[j].Mine() && pool.Lengthy(bufs[j])
      {
        if j != i { assert old(Elsewhere(j, i)); }
      }
    }

    /** A line goes and is returned, as on a plain byte sequence. */
    method GetMsg(i: nat, limit: nat) returns (line: Bytes)
      requires Valid() && i < |bufs|
      modifies this`owns, pool, pool.idle, bufs[i], bufs[i].own
      ensures Valid() && |bufs| == |old(Contents())|
      ensures var x := DbufLines.GetMsg(old(Contents())[i], limit);
        line == x.line && Contents() == old(Contents())[i := x.rest]
    {
      hide DBuf.Linked, DBuf.Mine, Pool.Spares, Pool.Lengthy, Sum, Flat, Apart, Sizes, DbufLines.GetMsg;
      Ready(i);
      ghost var was, idle := owns, pool.idle;
      line := pool.GetMsg(bufs[i], limit);
      Changed(was, idle, i, bufs[i].own, pool.idle);
      owns := owns[i := bufs[i].own];
      forall j | 0 <= j < |bufs|
        ensures bufs[j].own == owns[j] && bufs[j].Linked() && bufs[j].Mine() && pool.Lengthy(bufs[j])
      {
        if j != i { assert old(Elsewhere(j, i)); }
      }
    }
  }

  lemma Changed(owns: seq<set<Chunk>>, idle: set<Chunk>, i: nat, own: set<Chunk>, idle': set<Chunk>)
    requires Apart(owns, idle) && i < |owns| && own !! idle'
    requires forall j :: 0 <= j < |owns| ==> owns[j] !! (own + idle' - (owns[i] + idle))
    ensures Apart(owns[i := own], idle')
    ensures Sum(Sizes(owns[i := own])) == Sum(Sizes(owns)) - |owns[i]| + |own|
  {
    StillApart(owns, idle, i, own, idle');
    SizesUpdate(owns, i, own);
  }
}
