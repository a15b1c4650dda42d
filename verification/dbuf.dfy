/** Dynamic buffers: chunk lists that share one free list, refining a plain byte sequence each. */
module Dbuf {
  import opened DbufLines

  const DBUF_SIZE := 1024
  const INITIAL_DBUFS := 1000
  // BUFFERPOOL / DBUF_SIZE
  const DBUF_USUAL_MAX_COUNT := 36000000 / DBUF_SIZE

  // ---- rows of parts

  function Flat(parts: seq<Bytes>): (s: Bytes) {
    if parts == [] then [] else parts[0] + Flat(parts[1..])
  }

  lemma {:induction false} FlatLast(parts: seq<Bytes>, s: Bytes)
    ensures Flat(parts + [s]) == Flat(parts) + s
  {
    if parts == [] {
      assert parts + [s] == [s];
    } else {
      assert (parts + [s])[1..] == parts[1..] + [s];
      FlatLast(parts[1..], s);
    }
  }

  lemma {:induction false} FlatGrows(parts: seq<Bytes>, s: Bytes)
    requires parts != []
    ensures Flat(parts[|parts| - 1 := parts[|parts| - 1] + s]) == Flat(parts) + s
  {
    var k := |parts| - 1;
    var front, last := parts[..k], parts[k];
    FlatLast(front, last);
    FlatLast(front, last + s);
    assert front + [last] == parts && front + [last + s] == parts[k := last + s];
  }

  lemma FlatFirst(parts: seq<Bytes>)
    requires parts != []
    ensures Flat(parts) == parts[0] + Flat(parts[1..])
  {
  }

  lemma FlatShrinks(parts: seq<Bytes>, n: nat)
    requires parts != [] && n <= |parts[0]|
    ensures |Flat(parts)| >= n
    ensures Flat(parts[0 := parts[0][n..]]) == Flat(parts)[n..]
    ensures n == |parts[0]| ==> Flat(parts[1..]) == Flat(parts)[n..]
  {
    var q := parts[0 := parts[0][n..]];
    assert q[1..] == parts[1..];
    assert (parts[0] + Flat(parts[1..]))[n..] == parts[0][n..] + Flat(parts[1..]);
  }

  // Where the bytes of a part are in the whole.
  lemma {:induction false} PartAt(parts: seq<Bytes>, i: nat, j: nat)
    requires i < |parts| && j < |parts[i]|
    ensures |Flat(parts[..i])| + j < |Flat(parts)| && Flat(parts)[|Flat(parts[..i])| + j] == parts[i][j]
  {
    if i > 0 {
      PartAt(parts[1..], i - 1, j);
      assert parts[..i][1..] == parts[1..][..i - 1];
    }
  }

  lemma NextPart(parts: seq<Bytes>, i: nat)
    requires i < |parts|
    ensures |Flat(parts[..i + 1])| == |Flat(parts[..i])| + |parts[i]|
    ensures Flat(parts[..|parts|]) == Flat(parts)
  {
    assert parts[..i + 1] == parts[..i] + [parts[i]];
    FlatLast(parts[..i], parts[i]);
    assert parts[..|parts|] == parts;
  }

  lemma Pieces(w: Bytes, s: Bytes, k: nat, n: nat)
    requires k + n <= |s|
    ensures w + s[..k] + s[k..][..n] == w + s[..k + n]
    ensures w + s[..|s|] == w + s && w + s[..0] == w
  {
    assert s[..k] + s[k..][..n] == s[..k + n];
  }

  // ---- chunks and buffers

  // data is the array inside the struct: always DBUF_SIZE bytes, written by position
  class Chunk {
    var data: Bytes
    var start: nat
    var end: nat
    var next: Chunk?
    ghost var pos: nat

    constructor ()
      ensures |data| == DBUF_SIZE && start == end == 0 && next == null
    {
      data := seq(DBUF_SIZE, i => ' ');
      start, end, next := 0, 0, null;
    }

    // The first bytes of an empty chunk.
    method Load(s: Bytes)
      requires |data| == DBUF_SIZE && start == end == 0 && 0 < |s| <= DBUF_SIZE
      modifies this`data, this`end
      ensures Holds(this, s) && end == |s|
    {
      data := s + data[|s|..];
      end := |s|;
    }

    // memcpy to the end pointer
    method Extend(s: Bytes, ghost held: Bytes)
      requires Holds(this, held) && end + |s| <= DBUF_SIZE
      modifies this`data, this`end
      ensures Holds(this, held + s) && end == old(end) + |s|
    {
      data := data[..end] + s + data[end + |s|..];
      end := end + |s|;
    }

    method Skip(n: nat, ghost held: Bytes)
      requires Holds(this, held) && n < |held|
      modifies this`start
      ensures Holds(this, held[n..]) && start == old(start) + n
    {
      start := start + n;
    }
  }

  // The bytes between the two pointers.
  ghost predicate Holds(c: Chunk, s: Bytes)
    reads c`data, c`start, c`end
  {
    |c.data| == DBUF_SIZE && c.start < c.end <= DBUF_SIZE && s == c.data[c.start..c.end]
  }

  // Each element's next pointer leads to the one after it.
  ghost predicate Chained(head: Chunk?, s: seq<Chunk>)
    reads s
  {
    if s == [] then head == null
    else
      && head == s[0] && s[|s| - 1].next == null
      && forall i, j :: 0 <= i && j == i + 1 && j < |s| ==> s[i].next == s[j]
  }

  class DBuf {
    var head: Chunk?
    var tail: Chunk?
    var length: nat
    ghost var chunks: seq<Chunk>
    ghost var parts: seq<Bytes>
    ghost var own: set<Chunk>
    ghost var base: nat

    constructor ()
      ensures Linked() && Mine() && tail == null && length == 0 && chunks == [] && parts == [] && own == {}
    {
      head, tail, length, chunks, parts, own := null, null, 0, [], [], {};
    }

    ghost function Contents(): Bytes
      reads this
    {
      Flat(parts)
    }

    // The chunks of the list are this buffer's own, each in one place; it has no others.
    ghost predicate Mine()
      reads `chunks, `own, `base, own
    {
      && |own| == |chunks|
      && forall i :: 0 <= i < |chunks| ==> chunks[i] in own && chunks[i].pos == base + i
    }

    // The list from head to tail: no chunk empty, all but the tail full.
    ghost predicate Linked()
      reads `head, `tail, `chunks, `parts, `own, own
    {
      && (forall i :: 0 <= i < |chunks| ==> chunks[i] in own)
      && |parts| == |chunks|
      && Chained(head, chunks)
      && (chunks != [] ==> tail == chunks[|chunks| - 1])
      && (forall i :: 0 <= i < |chunks| ==> Holds(chunks[i], parts[i]))
      && (forall i :: 0 <= i < |chunks| - 1 ==> chunks[i].end == DBUF_SIZE)
    }

    lemma Ends()
      requires Linked()
      ensures |parts| == |chunks| && (head == null <==> chunks == [])
      ensures forall i :: 0 <= i < |parts| ==> parts[i] != []
      ensures chunks != [] ==> head != null && head == chunks[0] && head in own && Holds(head, parts[0])
      ensures chunks != [] ==> tail != null && tail in own && Holds(tail, parts[|parts| - 1]) && tail.next == null
    {
    }

    method Clear()
      requires Linked() && head == null
      modifies `tail, `length
      ensures Linked() && tail == null && length == 0
    {
      tail := null;
      length := 0;
    }

    // A filled chunk as the only one, h being the address of head.
    method LinkFirst(c: Chunk, s: Bytes)
      requires Mine() && chunks == [] && parts == [] && Holds(c, s) && c.next == null
      modifies this`head, this`tail, this`chunks, this`parts, this`own, c`pos
      ensures Linked() && Mine() && own == old(own) + {c} && parts == [s]
      ensures tail == c
    {
      hide Holds;
      head, tail := c, c;
      c.pos := base;
      chunks, parts, own := [c], [s], {c};
    }

    // A filled chunk after a full tail, h being the address of its next pointer.
    method LinkNext(c: Chunk, s: Bytes)
      requires Linked() && Mine() && c !in own && Holds(c, s) && c.next == null
      requires chunks != [] && tail != null && tail.end == DBUF_SIZE
      modifies this`tail, this`chunks, this`parts, this`own, c`pos, tail`next
      ensures Linked() && Mine() && own == old(own) + {c} && parts == old(parts) + [s]
      ensures tail == c
    {
      hide Holds;
      assert tail == chunks[|chunks| - 1];
      tail.next := c;
      tail := c;
      c.pos := base + |chunks|;
      chunks, parts, own := chunks + [c], parts + [s], own + {c};
    }

    // A filled chunk at the end of the list, wherever the pointer to it is.
    method Link(c: Chunk, s: Bytes)
      requires Linked() && Mine() && c !in own && Holds(c, s) && c.next == null
      requires chunks != [] ==> tail != null && tail.end == DBUF_SIZE
      modifies this`head, this`tail, this`chunks, this`parts, this`own, c`pos, own
      ensures Linked() && Mine() && own == old(own) + {c} && parts == old(parts) + [s]
      ensures tail == c && c.next == null && chunks != []
    {
      hide Linked, Mine, Holds;
      Ends();
      if head == null {
        LinkFirst(c, s);
      } else {
        LinkNext(c, s);
      }
      Ends();
    }

    // More bytes in the tail.
    method Fill(s: Bytes)
      requires Linked() && Mine() && chunks != [] && tail != null && tail.end + |s| <= DBUF_SIZE
      modifies this`parts, tail`data, tail`end
      ensures tail.end == old(tail.end) + |s|
      ensures Linked() && Mine() && parts == old(parts)[|old(parts)| - 1 := old(parts)[|old(parts)| - 1] + s]
    {
      hide Holds;
      var k := |parts| - 1;
      assert tail == chunks[k];
      tail.Extend(s, parts[k]);
      parts := parts[k := parts[k] + s];
    }

    // Bytes dropped from the first chunk, some of it left.
    method Consume(n: nat)
      requires Linked() && Mine() && chunks != [] && head != null && n < |parts[0]|
      modifies this`parts, head`start
      ensures Linked() && Mine() && parts == old(parts)[0 := old(parts)[0][n..]]
    {
      hide Holds;
      assert head == chunks[0];
      head.Skip(n, parts[0]);
      parts := parts[0 := parts[0][n..]];
    }

    // The first chunk taken out of the list.
    method Unlink() returns (c: Chunk)
      requires Linked() && Mine() && chunks != []
      modifies this`head, this`chunks, this`parts, this`own, this`base
      ensures Linked() && Mine() && c == old(head) && c in old(own) && own == old(own) - {c} && parts == old(parts)[1..]
      ensures |c.data| == DBUF_SIZE
    {
      assert head == chunks[0];
      c := head;
      head := head.next;
      own := own - {c};
      chunks, parts, base := chunks[1..], parts[1..], base + 1;
    }
  }

  class Pool {
    var free: Chunk?
    var used: nat
    // DBufCount: the chunks made, but for the first; those given back to the system are counted on
    var count: nat
    ghost var spare: seq<Chunk>
    ghost var idle: set<Chunk>

    // The free list: each chunk in one place.
    ghost predicate Spares()
      reads this`free, this`spare, this`idle, idle
    {
      && (forall c :: c in idle ==> |c.data| == DBUF_SIZE)
      && (forall i :: 0 <= i < |spare| ==> spare[i] in idle && spare[i].pos == |spare| - 1 - i)
      && Chained(free, spare)
    }

    constructor ()
      ensures Spares() && used == count == 0 && idle == {}
    {
      free, used, count, spare, idle := null, 0, 0, [], {};
    }

    // The free list under construction, this chunk the last of n + 1.
    ghost predicate Laid(n: nat, last: Chunk)
      reads this`free, this`spare, this`idle, idle, last
    {
      && n <= INITIAL_DBUFS && |spare| == n + 1 && spare[n] == last && free == spare[0] && last.next == null
      && (forall c :: c in idle ==> |c.data| == DBUF_SIZE && c in spare)
      && (forall j :: 0 <= j <= n ==> spare[j] in idle && spare[j].pos == INITIAL_DBUFS - j)
      && (forall i, j :: 0 <= i && j == i + 1 && j <= n ==> spare[i].next == spare[j])
    }

    method LayOne(n: nat, last: Chunk) returns (c: Chunk)
      requires Laid(n, last) && n < INITIAL_DBUFS
      modifies this`spare, this`idle, last`next
      ensures Laid(n + 1, c) && fresh(c) && idle == old(idle) + {c}
    {
      c := new Chunk();
      c.pos := INITIAL_DBUFS - n - 1;
      ghost var s := spare;
      assert forall i :: 0 <= i < n ==> s[i] != last;
      last.next := c;
      spare, idle := s + [c], idle + {c};
      forall i, j | 0 <= i && j == i + 1 && j <= n + 1 ensures spare[i].next == spare[j] {
        if j <= n {
          assert s[i].next == s[j];
        }
      }
    }

    /** dbuf_init: a free list of one chunk and INITIAL_DBUFS more. */
    method Init()
      requires free == null && idle == {}
      modifies this
      ensures Spares() && used == old(used) && |spare| == INITIAL_DBUFS + 1 && fresh(idle)
      ensures count == INITIAL_DBUFS
    {
      var current := new Chunk();
      current.pos := INITIAL_DBUFS;
      free, spare, idle := current, [current], {current};
      for i := 0 to INITIAL_DBUFS
        invariant Laid(i, current) && fresh(current) && fresh(idle) && used == old(used)
      {
        hide Laid;
        current := LayOne(i, current);
      }
      current.next := null;
      count := INITIAL_DBUFS;
      LaidOut(current);
    }

    lemma LaidOut(last: Chunk)
      requires Laid(INITIAL_DBUFS, last)
      ensures Spares() && |spare| == INITIAL_DBUFS + 1
    {
    }

    // dbuf_alloc
    method Alloc() returns (c: Chunk)
      requires Spares()
      modifies this, idle
      ensures Spares() && used == old(used) + 1 && idle == old(idle) - {c}
      ensures |c.data| == DBUF_SIZE && (if old(free) == null then fresh(c) else c == old(free) && c in old(idle))
      ensures c.next == null && c.start == c.end == 0
      ensures count == if old(free) == null then old(count) + 1 else old(count)
    {
      if free != null {
        c := free;
        free := free.next;
        spare := spare[1..];
        idle := idle - {c};
      } else {
        c := new Chunk();
        count := count + 1;
      }
      used := used + 1;
      c.next := null;
      c.start, c.end := 0, 0;
    }

    // The chunk is first on the free list, unless too many were in use.
    ghost predicate GivenBack(wasUsed: nat, wasFree: Chunk?, wasIdle: set<Chunk>, c: Chunk)
      reads this`free, this`idle
    {
      if wasUsed > DBUF_USUAL_MAX_COUNT then free == wasFree && idle == wasIdle else free == c && idle == wasIdle + {c}
    }

    // dbuf_free
    method Free(c: Chunk)
      requires Spares() && c !in idle && |c.data| == DBUF_SIZE && used > 0
      modifies this, c`next, c`pos
      ensures Spares() && used == old(used) - 1 && count == old(count)
      ensures idle == old(idle) || idle == old(idle) + {c}
      ensures GivenBack(old(used), old(free), old(idle), c)
    {
      if used > DBUF_USUAL_MAX_COUNT {
      } else {
        c.next := free;
        free := c;
        c.pos := |spare|;
        spare, idle := [c] + spare, idle + {c};
      }
      used := used - 1;
    }

    // A buffer that draws on this pool: well formed, and none of its chunks is free.
    ghost predicate Sound(d: DBuf)
      reads this, idle, d, d.own
    {
      Spares() && d.Linked() && d.Mine() && d.own !! idle && used >= |d.own|
    }

    // A chunk taken from the pool, filled and linked at the end of a buffer.
    method Append(d: DBuf, s: Bytes)
      requires Sound(d) && 0 < |s| <= DBUF_SIZE
      requires d.chunks != [] ==> d.tail != null && d.tail.end == DBUF_SIZE
      modifies this, idle, d, d.own
      ensures Sound(d) && fresh(d.own + idle - old(d.own + idle))
      ensures used - |d.own| == old(used - |d.own|)
      ensures d.parts == old(d.parts) + [s] && d.length == old(d.length) && d.chunks != []
      ensures d.tail != null && d.tail.next == null && d.tail.end == |s|
    {
      hide DBuf.Linked, DBuf.Mine, Holds, Spares;
      d.Ends();
      var c := Alloc();
      c.Load(s);
      d.Link(c, s);
    }

    ghost predicate Lengthy(d: DBuf)
      reads d
    {
      d.length == |Flat(d.parts)| && (d.chunks == [] ==> d.tail == null)
    }

    // A buffer at rest.
    ghost predicate Valid(d: DBuf)
      reads this, idle, d, d.own
    {
      Sound(d) && Lengthy(d)
    }

    // The chunk that h leads to is the tail, or there is none and nothing more fits in the tail.
    ghost predicate AtEnd(d: DBuf, db: Chunk?)
      reads d, d.own
    {
      if db == null then d.chunks == [] || (d.tail != null && d.tail in d.own && d.tail.end == DBUF_SIZE)
      else d.chunks != [] && db == d.tail
    }

    // One turn of the loop: as much as fits in one chunk.
    method PutSome(d: DBuf, db: Chunk?, s: Bytes) returns (chunk: nat, next: Chunk?)
      requires Sound(d) && AtEnd(d, db) && s != []
      modifies this, idle, d, d.own
      ensures Sound(d) && fresh(d.own + idle - old(d.own + idle)) && used - |d.own| == old(used - |d.own|)
      ensures chunk <= |s| && Flat(d.parts) == old(Flat(d.parts)) + s[..chunk] && d.length == old(d.length)
      ensures d.chunks != [] && next == null && (chunk < |s| ==> AtEnd(d, next)) && (chunk > 0 || db != null)
    {
      hide DBuf.Linked, DBuf.Mine, Spares, Flat, Holds;
      d.Ends();
      chunk := |s|;
      if db == null {
        if chunk > DBUF_SIZE { chunk := DBUF_SIZE; }
        FlatLast(d.parts, s[..chunk]);
        Append(d, s[..chunk]);
        next := d.tail.next;
      } else {
        TailEnd(db, d.parts[|d.parts| - 1]);
        if chunk > DBUF_SIZE - db.end { chunk := DBUF_SIZE - db.end; }
        FlatGrows(d.parts, s[..chunk]);
        if chunk != 0 {
          d.Fill(s[..chunk]);
        } else {
          assert Flat(d.parts) == Flat(d.parts) + s[..chunk];
        }
        next := db.next;
      }
      d.Ends();
    }

    lemma TailEnd(c: Chunk, s: Bytes)
      requires Holds(c, s)
      ensures c.end <= DBUF_SIZE
    {
    }

    /** Appends the bytes: first into the room of the tail, then into new chunks. */
    method Put(d: DBuf, buf: Bytes)
      requires Valid(d)
      modifies this, idle, d, d.own
      ensures Valid(d) && fresh(d.own + idle - old(d.own + idle)) && used - |d.own| == old(used - |d.own|)
      ensures d.Contents() == old(d.Contents()) + buf
    {
      hide DBuf.Linked, DBuf.Mine, Spares, Flat, Holds;
      d.Ends();
      EmptyFlat(d.parts);
      Pieces(Flat(d.parts), buf, 0, 0);
      var db := if d.length == 0 then d.head else d.tail;
      d.length := d.length + |buf|;
      var k := 0;
      while k < |buf|
        invariant 0 <= k <= |buf|
        invariant Sound(d) && fresh(d.own + idle - old(d.own + idle)) && used - |d.own| == old(used - |d.own|)
        invariant Flat(d.parts) == old(Flat(d.parts)) + buf[..k] && d.length == old(d.length) + |buf|
        invariant k < |buf| ==> AtEnd(d, db)
        invariant d.chunks != [] || (k == 0 && d.chunks == old(d.chunks) && d.tail == old(d.tail))
        decreases |buf| - k, db
      {
        var chunk, next := PutSome(d, db, buf[k..]);
        Pieces(old(Flat(d.parts)), buf, k, chunk);
        k, db := k + chunk, next;
      }
    }

    lemma EmptyFlat(parts: seq<Bytes>)
      requires forall i :: 0 <= i < |parts| ==> parts[i] != []
      ensures Flat(parts) == [] <==> parts == []
    {
    }

    // The first chunk leaves its buffer and goes back to the pool.
    method DropFirst(d: DBuf)
      requires Sound(d) && d.chunks != []
      modifies this, idle, d, d.own
      ensures Sound(d) && fresh(d.own + idle - old(d.own + idle)) && used - |d.own| == old(used - |d.own|)
      ensures d.parts == old(d.parts)[1..] && d.length == old(d.length)
    {
      hide DBuf.Linked, DBuf.Mine, Spares, Holds, GivenBack;
      var c := d.Unlink();
      Free(c);
    }

    // Some bytes of the first chunk, all of them if it is to go.
    method Drop(d: DBuf, chunk: nat)
      requires Sound(d) && d.head != null && d.head.start + chunk <= d.head.end
      modifies this, idle, d, d.own
      ensures Sound(d) && fresh(d.own + idle - old(d.own + idle)) && used - |d.own| == old(used - |d.own|)
      ensures chunk <= |old(Flat(d.parts))| && Flat(d.parts) == old(Flat(d.parts))[chunk..]
      ensures d.length == old(d.length)
    {
      hide DBuf.Linked, DBuf.Mine, Spares, Flat, Holds;
      d.Ends();
      FirstBytes(d.head, d.parts[0]);
      FlatShrinks(d.parts, chunk);
      if d.head.start + chunk == d.head.end {
        DropFirst(d);
      } else {
        d.Consume(chunk);
      }
    }

    lemma FirstBytes(c: Chunk, s: Bytes)
      requires Holds(c, s)
      ensures c.start < c.end <= |c.data| && |s| == c.end - c.start
      ensures forall i :: c.start <= i < c.end ==> c.data[i] == s[i - c.start]
    {
    }

    // One turn of the loop: what goes from the first chunk.
    method DropSome(d: DBuf, length: nat) returns (chunk: nat)
      requires Sound(d) && d.head != null && length > 0 && d.length == |Flat(d.parts)|
      modifies this, idle, d, d.own
      ensures Sound(d) && fresh(d.own + idle - old(d.own + idle)) && used - |d.own| == old(used - |d.own|)
      ensures 0 < chunk <= length && chunk <= |old(Flat(d.parts))| && Flat(d.parts) == old(Flat(d.parts))[chunk..]
      ensures d.length == |Flat(d.parts)|
    {
      hide DBuf.Linked, DBuf.Mine, Spares, Flat, Holds;
      d.Ends();
      FirstBytes(d.head, d.parts[0]);
      chunk := d.head.end - d.head.start;
      if chunk > length { chunk := length; }
      Drop(d, chunk);
      d.length := d.length - chunk;
    }

    /** Drops a prefix, or everything if there is no more. */
    method Delete(d: DBuf, n: nat)
      requires Valid(d)
      modifies this, idle, d, d.own
      ensures Valid(d) && fresh(d.own + idle - old(d.own + idle)) && used - |d.own| == old(used - |d.own|)
      ensures d.Contents() == if n <= |old(d.Contents())| then old(d.Contents())[n..] else []
    {
      hide DBuf.Linked, DBuf.Mine, Spares, Flat, Holds;
      var length: nat := n;
      if length > d.length { length := d.length; }
      ghost var was, all: nat := Flat(d.parts), length;
      NonEmpty(d);
      while length > 0
        invariant length <= all <= |was|
        invariant Sound(d) && fresh(d.own + idle - old(d.own + idle)) && used - |d.own| == old(used - |d.own|)
        invariant Flat(d.parts) == was[all - length..] && d.length == |Flat(d.parts)|
        invariant d.head == null <==> Flat(d.parts) == []
      {
        if d.head == null {
          break;
        }
        var chunk := DropSome(d, length);
        NonEmpty(d);
        length := length - chunk;
      }
      if d.head == null {
        d.Clear();
      }
      d.Ends();
    }

    lemma NonEmpty(d: DBuf)
      requires d.Linked()
      ensures d.head == null <==> Flat(d.parts) == []
    {
      d.Ends();
      EmptyFlat(d.parts);
    }

    /** The contiguous section in front: empty only if the buffer is. */
    method Map(d: DBuf) returns (b: Bytes)
      requires Valid(d)
      ensures b <= d.Contents() && (b == [] <==> d.Contents() == [])
    {
      hide DBuf.Linked, DBuf.Mine, Spares, Flat, Holds;
      d.Ends();
      EmptyFlat(d.parts);
      b := [];
      if d.length == 0 {
        return;
      }
      FirstBytes(d.head, d.parts[0]);
      FlatFirst(d.parts);
      b := d.head.data[d.head.start..d.head.end];
      assert b == d.parts[0];
    }

    /** Returns a prefix and drops it; fewer bytes than asked for only if there are no more. */
    method Get(d: DBuf, n: nat) returns (buf: Bytes)
      requires Valid(d)
      modifies this, idle, d, d.own
      ensures Valid(d) && fresh(d.own + idle - old(d.own + idle)) && used - |d.own| == old(used - |d.own|)
      ensures buf + d.Contents() == old(d.Contents())
      ensures |buf| == if n <= |old(d.Contents())| then n else |old(d.Contents())|
    {
      hide DBuf.Linked, DBuf.Mine, Spares, Flat, Holds;
      buf := [];
      var length: nat := n;
      ghost var was := Flat(d.parts);
      while length > 0
        invariant Valid(d) && fresh(d.own + idle - old(d.own + idle)) && used - |d.own| == old(used - |d.own|)
        invariant |buf| + length == n && buf + Flat(d.parts) == was
      {
        var b := Map(d);
        if b == [] {
          break;
        }
        var chunk := |b|;
        if chunk > length { chunk := length; }
        ghost var s := Flat(d.parts);
        Delete(d, chunk);
        Moved(was, buf, s, b, chunk);
        buf := buf + b[..chunk];
        length := length - chunk;
      }
    }

    lemma Moved(was: Bytes, buf: Bytes, s: Bytes, b: Bytes, chunk: nat)
      requires buf + s == was && b <= s && chunk <= |b|
      ensures buf + b[..chunk] + s[chunk..] == was
    {
      assert s == b[..chunk] + s[chunk..];
    }

    lemma FrontByte(d: DBuf)
      requires d.Linked() && d.head != null
      ensures d.head.start < |d.head.data| && Flat(d.parts) != [] && d.head.data[d.head.start] == Flat(d.parts)[0]
    {
      d.Ends();
      FirstBytes(d.head, d.parts[0]);
    }

    /** Drops the leading line terminators. */
    method Flush(d: DBuf) returns (length: nat)
      requires Valid(d)
      modifies this, idle, d, d.own
      ensures Valid(d) && fresh(d.own + idle - old(d.own + idle)) && used - |d.own| == old(used - |d.own|)
      ensures d.Contents() == SkipEols(old(d.Contents())) && length == |d.Contents()|
    {
      hide DBuf.Linked, DBuf.Mine, Spares, Flat, Holds;
      NonEmpty(d);
      d.Ends();
      if d.head == null {
        return 0;
      }
      FrontByte(d);
      while d.head != null && IsEol(d.head.data[d.head.start])
        invariant Valid(d) && fresh(d.own + idle - old(d.own + idle)) && used - |d.own| == old(used - |d.own|)
        invariant SkipEols(Flat(d.parts)) == SkipEols(old(Flat(d.parts)))
        invariant d.head == null <==> Flat(d.parts) == []
        invariant d.head != null ==> d.head.start < |d.head.data| && d.head.data[d.head.start] == Flat(d.parts)[0]
        decreases |Flat(d.parts)|
      {
        FlushOne(d);
        NonEmpty(d);
        if d.head != null { FrontByte(d); }
      }
      length := d.length;
    }

    // One terminator less.
    method FlushOne(d: DBuf)
      requires Valid(d) && d.head != null
      modifies this, idle, d, d.own
      ensures Valid(d) && fresh(d.own + idle - old(d.own + idle)) && used - |d.own| == old(used - |d.own|)
      ensures |old(Flat(d.parts))| > 0 && Flat(d.parts) == old(Flat(d.parts))[1..]
    {
      hide DBuf.Linked, DBuf.Mine, Spares, Flat, Holds;
      d.Ends();
      FirstBytes(d.head, d.parts[0]);
      NonEmpty(d);
      Drop(d, 1);
      NonEmpty(d);
      d.Ends();
      if d.head == null {
        d.Clear();
        d.Ends();
      } else {
        d.length := d.length - 1;
      }
    }

    lemma ChunkAt(d: DBuf, i: nat)
      requires d.Linked() && i < |d.chunks|
      ensures |d.parts| == |d.chunks| && Holds(d.chunks[i], d.parts[i])
      ensures i + 1 < |d.chunks| ==> d.chunks[i].next == d.chunks[i + 1]
      ensures i + 1 == |d.chunks| ==> d.chunks[i].next == null
    {
    }

    // One chunk's share of the line: up to a terminator, the end of the chunk or the length.
    method ScanChunk(db: Chunk, length: nat, ghost part: Bytes) returns (piece: Bytes, stopped: bool)
      requires Holds(db, part)
      ensures piece <= part && |piece| <= length && NoEol(piece)
      ensures stopped ==> |piece| < length && |piece| < |part| && IsEol(part[|piece|])
      ensures !stopped ==> |piece| == length || piece == part
    {
      FirstBytes(db, part);
      hide Holds;
      piece := [];
      var start := db.start;
      var end := db.end;
      if end > start + length { end := start + length; }
      while start < end && !IsEol(db.data[start])
        invariant db.start <= start <= end && |piece| == start - db.start
        invariant piece == part[..|piece|] && NoEol(piece)
      {
        piece := piece + [db.data[start]];
        start := start + 1;
      }
      stopped := start < end;
    }

    // The search for a terminator among the first limit bytes, copying as it goes.
    method Scan(d: DBuf, limit: nat) returns (found: bool, line: Bytes)
      requires Valid(d) && d.head != null
      ensures var t := d.Contents();
        found == (LineLength(t) < |t| && LineLength(t) < limit) && (found ==> line == t[..LineLength(t)])
    {
      hide DBuf.Linked, DBuf.Mine, Spares, Flat, Holds, LineLength, NoEol, IsEol;
      d.Ends();
      ghost var t := Flat(d.parts);
      found, line := false, [];
      var length: nat := limit;
      if length > d.length { length := d.length; }
      ghost var all, i: nat := length, 0;
      var db := d.head;
      NoneSoFar(d.parts, i, line);
      while length > 0
        invariant i < |d.chunks| && db == d.chunks[i]
        invariant |line| + length == all <= |t|
        invariant length > 0 ==> |line| == |Flat(d.parts[..i])|
        invariant line == t[..|line|] && NoEol(line)
      {
        ChunkAt(d, i);
        var piece, stopped := ScanChunk(db, length, d.parts[i]);
        PieceAt(d.parts, i, line, piece);
        line := line + piece;
        if stopped {
          PartAt(d.parts, i, |piece|);
          LineLengthIs(t, |line|);
          found := true;
          return;
        }
        if db.next == null {
          break;
        }
        length := length - |piece|;
        db, i := db.next, i + 1;
      }
      NoLine(t, line);
    }

    lemma NoneSoFar(parts: seq<Bytes>, i: nat, line: Bytes)
      requires line == [] && i == 0
      ensures Flat(parts[..i]) == [] && line == Flat(parts)[..|line|] && NoEol(line)
    {
    }

    lemma PieceAt(parts: seq<Bytes>, i: nat, line: Bytes, piece: Bytes)
      requires i < |parts| && piece <= parts[i] && |line| == |Flat(parts[..i])|
      requires |line| <= |Flat(parts)| && line == Flat(parts)[..|line|] && NoEol(line) && NoEol(piece)
      ensures |line + piece| <= |Flat(parts)| && line + piece == Flat(parts)[..|line + piece|] && NoEol(line + piece)
      ensures piece == parts[i] ==> |line + piece| == |Flat(parts[..i + 1])|
      ensures Flat(parts[..|parts|]) == Flat(parts)
    {
      hide Flat, IsEol;
      NextPart(parts, i);
      forall j: nat | j < |piece| ensures |line| + j < |Flat(parts)| && Flat(parts)[|line| + j] == piece[j] {
        PartAt(parts, i, j);
      }
      if piece != [] { PartAt(parts, i, |piece| - 1); }
    }

    lemma NoLine(t: Bytes, line: Bytes)
      requires |line| <= |t| && line == t[..|line|] && NoEol(line)
      ensures LineLength(t) >= |line|
    {
      assert forall i :: 0 <= i < |line| ==> line[i] == t[i];
    }

    lemma Framed(s: Bytes, limit: nat, found: bool, line: Bytes)
      requires var t := SkipEols(s);
        found == (LineLength(t) < |t| && LineLength(t) < limit) && (found ==> line == t[..LineLength(t)])
      ensures var t := SkipEols(s);
        && (found ==> |line| <= |t| && DbufLines.GetMsg(s, limit) == Extract(line, SkipEols(t[|line|..])))
        && (!found ==> DbufLines.GetMsg(s, limit) == Extract([], t))
    {
    }

    // A line and the terminators after it go.
    method Take(d: DBuf, n: nat)
      requires Valid(d) && n <= |d.Contents()|
      modifies this, idle, d, d.own
      ensures Valid(d) && fresh(d.own + idle - old(d.own + idle)) && used - |d.own| == old(used - |d.own|)
      ensures d.Contents() == SkipEols(old(d.Contents())[n..])
    {
      hide DBuf.Linked, DBuf.Mine, Spares, Flat, SkipEols;
      Delete(d, n);
      assert fresh(d.own + idle - old(d.own + idle));
      var length := Flush(d);
    }

    /**
     * The bytes up to a terminator among the first limit ones after the leading terminators, which all go, as do
     * those that follow; nothing, with the rest left in place, if there is none.
     */
    method GetMsg(d: DBuf, limit: nat) returns (line: Bytes)
      requires Valid(d)
      modifies this, idle, d, d.own
      ensures Valid(d) && fresh(d.own + idle - old(d.own + idle)) && used - |d.own| == old(used - |d.own|)
      ensures Extract(line, d.Contents()) == DbufLines.GetMsg(old(d.Contents()), limit)
    {
      hide DBuf.Linked, DBuf.Mine, Spares, Flat, Holds, LineLength, SkipEols, DbufLines.GetMsg;
      var length := Flush(d);
      if length == 0 {
        Framed(old(Flat(d.parts)), limit, false, []);
        return [];
      }
      assert fresh(d.own + idle - old(d.own + idle));
      NonEmpty(d);
      var found: bool;
      found, line := Scan(d, limit);
      Framed(old(Flat(d.parts)), limit, found, line);
      if found {
        Take(d, |line|);
      } else {
        line := [];
      }
    }
  }
}
