/** The block list both canvases keep (`blocks` in thought-space.tsx and
    enhanced-thought-space.tsx): appending, filtering out by id, moving,
    clearing. Fresh ids, random positions and the clock come from a stream of
    stamps supplied by the caller. */
module Canvas {
  import opened Wrappers
  import opened Content

  /** A block's position on the canvas, in pixels. */
  datatype Position = Position(x: real, y: real)

  /** The union of both canvases' `ContentBlock['type']`. */
  datatype Kind = Text | TwitterCard | YouTubeCard | WebCard | AiGenerated | AiResponse | Unified

  /** `ContentBlock`; the simple canvas never sets `source`. */
  datatype Block = Block(id: string, kind: Kind, content: Value, position: Position, timestamp: Time, source: Option<string>)

  /** What an `addBlock` call is asked to add: its type, content and source. */
  datatype Emission = Emission(kind: Kind, content: Value, source: Option<string>)

  /** What one `addBlock` call draws from its environment:
      `crypto.randomUUID()`, two `Math.random()` draws for the position, and
      `new Date()`. */
  datatype Stamp = Stamp(id: string, rx: Unit, ry: Unit, time: Time)

  /** The stamps successive `addBlock` calls draw, in call order. */
  type StampStream = nat -> Stamp

  /** `x = rx * width + left`, `y = ry * height + top`. */
  datatype Layout = Layout(left: real, width: real, top: real, height: real)

  predicate ValidLayout(l: Layout) {
    l.width > 0.0 && l.height > 0.0
  }

  /** The rectangle new blocks land in. */
  predicate Within(p: Position, l: Layout) {
    l.left <= p.x < l.left + l.width && l.top <= p.y < l.top + l.height
  }

  /** `r * w + base` for a draw `r`: a coordinate in `[base, base + w)`. */
  function Offset(r: Unit, base: real, w: real): (x: real)
    requires w > 0.0
    ensures base <= x < base + w
  {
    ScaledBelow(r, w);
    r * w + base
  }

  function Place(l: Layout, st: Stamp): (p: Position)
    requires ValidLayout(l)
    ensures Within(p, l)
  {
    Position(Offset(st.rx, l.left, l.width), Offset(st.ry, l.top, l.height))
  }

  /** The block carries what the emission asked for. */
  predicate Carries(b: Block, e: Emission) {
    b.kind == e.kind && b.content == e.content && b.source == e.source
  }

  /** No two blocks share an id. */
  predicate UniqueIds(bs: seq<Block>) {
    forall i, j :: 0 <= i < j < |bs| ==> bs[i].id != bs[j].id
  }

  predicate HasId(bs: seq<Block>, id: string) {
    exists i :: 0 <= i < |bs| && bs[i].id == id
  }

  /** The stream never repeats an id and never yields one already on the
      canvas: what `crypto.randomUUID()` is relied on for. */
  ghost predicate FreshFor(stamps: StampStream, bs: seq<Block>) {
    && (forall i: nat, j: nat :: i != j ==> stamps(i).id != stamps(j).id)
    && (forall i: nat, k :: 0 <= k < |bs| ==> stamps(i).id != bs[k].id)
  }

  /** `addBlock`: one new block at the end, everything before it kept. */
  function AddBlock(bs: seq<Block>, e: Emission, l: Layout, st: Stamp): (r: seq<Block>)
    requires ValidLayout(l)
    ensures |r| == |bs| + 1 && r[..|bs|] == bs
    ensures Carries(r[|bs|], e) && r[|bs|].id == st.id && r[|bs|].timestamp == st.time
    ensures Within(r[|bs|].position, l)
    ensures UniqueIds(bs) && !HasId(bs, st.id) ==> UniqueIds(r)
  {
    bs + [Block(st.id, e.kind, e.content, Place(l, st), st.time, e.source)]
  }

  /** A run of `addBlock` calls, one per emission, drawing stamps
      `next`, `next + 1`, ...: the emissions land at the end, in order. */
  function AppendAll(bs: seq<Block>, es: seq<Emission>, l: Layout, stamps: StampStream, next: nat): (r: seq<Block>)
    requires ValidLayout(l)
    ensures |r| == |bs| + |es| && r[..|bs|] == bs
    ensures forall i :: |bs| <= i < |r| ==> Carries(r[i], es[i - |bs|])
    ensures forall i :: |bs| <= i < |r| ==> r[i].id == stamps(next + (i - |bs|)).id
    ensures forall i :: |bs| <= i < |r| ==> Within(r[i].position, l)
    decreases |es|
  {
    if es == [] then bs
    else
      var bs' := AddBlock(bs, es[0], l, stamps(next));
      var r := AppendAll(bs', es[1..], l, stamps, next + 1);
      assert r[|bs|] == r[..|bs'|][|bs|];
      r
  }

  /** The blocks carry the emissions, one block each, in order. */
  predicate Delivered(bs: seq<Block>, es: seq<Emission>) {
    |bs| == |es| && forall i :: 0 <= i < |es| ==> Carries(bs[i], es[i])
  }

  lemma AppendAllDelivers(bs: seq<Block>, es: seq<Emission>, l: Layout, stamps: StampStream)
    requires ValidLayout(l)
    ensures Delivered(AppendAll(bs, es, l, stamps, 0)[|bs|..], es)
  {
    var r := AppendAll(bs, es, l, stamps, 0);
    forall i | 0 <= i < |es| ensures Carries(r[|bs|..][i], es[i]) {
      assert r[|bs|..][i] == r[|bs| + i];
    }
  }

  /** The `i`-th emission lands `i` places after the blocks that were
      already there. */
  lemma AppendAllAt(bs: seq<Block>, es: seq<Emission>, l: Layout, stamps: StampStream, i: nat)
    requires ValidLayout(l) && i < |es|
    ensures var r := AppendAll(bs, es, l, stamps, 0);
      |r| == |bs| + |es| && Carries(r[|bs| + i], es[i])
  {
    var r := AppendAll(bs, es, l, stamps, 0);
    assert Carries(r[|bs| + i], es[|bs| + i - |bs|]);
  }

  /** Appending blocks with fresh ids keeps the ids unique. */
  lemma AppendAllKeepsIdsUnique(bs: seq<Block>, es: seq<Emission>, l: Layout, stamps: StampStream)
    requires ValidLayout(l)
    ensures UniqueIds(bs) && FreshFor(stamps, bs) ==> UniqueIds(AppendAll(bs, es, l, stamps, 0))
  {
    if UniqueIds(bs) && FreshFor(stamps, bs) {
      var r := AppendAll(bs, es, l, stamps, 0);
      forall i, j | 0 <= i < j < |r| ensures r[i].id != r[j].id {
        if j < |bs| {
          assert r[i] == bs[i] && r[j] == bs[j];
        } else if i < |bs| {
          assert r[i] == r[..|bs|][i];
        } else {
          assert i - |bs| != j - |bs|;
        }
      }
    }
  }

  /** `prev.filter(block => block.id !== id)`. */
  function RemoveById(bs: seq<Block>, id: string): (r: seq<Block>)
    ensures |r| <= |bs|
    ensures forall b :: b in r <==> b in bs && b.id != id
  {
    if bs == [] then []
    else if bs[0].id == id then RemoveById(bs[1..], id)
    else [bs[0]] + RemoveById(bs[1..], id)
  }

  /** The tail of a list with unique ids has unique ids. */
  lemma TailKeepsIdsUnique(bs: seq<Block>)
    requires bs != [] && UniqueIds(bs)
    ensures UniqueIds(bs[1..])
    ensures forall b :: b in bs[1..] ==> b.id != bs[0].id
  {
    var tail := bs[1..];
    forall i, j | 0 <= i < j < |tail| ensures tail[i].id != tail[j].id {
      assert tail[i] == bs[i + 1] && tail[j] == bs[j + 1];
    }
    forall b | b in tail ensures b.id != bs[0].id {
      var k :| 0 <= k < |tail| && tail[k] == b;
      assert tail[k] == bs[k + 1];
    }
  }

  /** Filtering keeps unique ids unique. */
  lemma {:induction false} RemoveKeepsIdsUnique(bs: seq<Block>, id: string)
    ensures UniqueIds(bs) ==> UniqueIds(RemoveById(bs, id))
    decreases |bs|
  {
    if bs != [] && UniqueIds(bs) {
      TailKeepsIdsUnique(bs);
      RemoveKeepsIdsUnique(bs[1..], id);
      var rest := RemoveById(bs[1..], id);
      if bs[0].id != id {
        var r := [bs[0]] + rest;
        forall i, j | 0 <= i < j < |r| ensures r[i].id != r[j].id {
          assert r[j] == rest[j - 1] && r[j] in bs[1..];
          if i > 0 {
            assert r[i] == rest[i - 1];
          }
        }
      }
    }
  }

  lemma ConsAssoc(x: Block, u: seq<Block>, v: seq<Block>)
    ensures [x] + (u + v) == ([x] + u) + v
  {
  }

  /** The filter works block by block: removing from a concatenation removes
      from each part, so the surviving blocks keep their order. */
  lemma {:induction false} RemoveDistributes(a: seq<Block>, b: seq<Block>, id: string)
    ensures RemoveById(a + b, id) == RemoveById(a, id) + RemoveById(b, id)
    decreases |a|
  {
    if a != [] {
      assert (a + b)[0] == a[0];
      assert (a + b)[1..] == a[1..] + b;
      RemoveDistributes(a[1..], b, id);
      if a[0].id != id {
        assert RemoveById(a + b, id) == [a[0]] + RemoveById(a[1..] + b, id);
        assert RemoveById(a, id) == [a[0]] + RemoveById(a[1..], id);
        ConsAssoc(a[0], RemoveById(a[1..], id), RemoveById(b, id));
      } else {
        assert RemoveById(a + b, id) == RemoveById(a[1..] + b, id);
        assert RemoveById(a, id) == RemoveById(a[1..], id);
      }
    } else {
      assert a + b == b;
    }
  }

  /** Removing an id nobody carries changes nothing. */
  lemma {:induction false} RemoveAbsent(bs: seq<Block>, id: string)
    requires !HasId(bs, id)
    ensures RemoveById(bs, id) == bs
    decreases |bs|
  {
    if bs != [] {
      assert bs[0].id != id;
      assert !HasId(bs[1..], id) by {
        forall i | 0 <= i < |bs[1..]| ensures bs[1..][i].id != id {
          assert bs[1..][i] == bs[i + 1];
        }
      }
      RemoveAbsent(bs[1..], id);
      assert [bs[0]] + bs[1..] == bs;
    }
  }

  /** Removing twice is removing once. */
  lemma RemoveIdempotent(bs: seq<Block>, id: string)
    ensures RemoveById(RemoveById(bs, id), id) == RemoveById(bs, id)
  {
    var r := RemoveById(bs, id);
    assert !HasId(r, id) by {
      forall i | 0 <= i < |r| ensures r[i].id != id {
        assert r[i] in r;
      }
    }
    RemoveAbsent(r, id);
  }

  /** With unique ids, removing the id of block `k` drops exactly that block. */
  lemma {:induction false} RemoveUnique(bs: seq<Block>, k: nat)
    requires k < |bs| && UniqueIds(bs)
    ensures RemoveById(bs, bs[k].id) == bs[..k] + bs[k + 1..]
    decreases k
  {
    var id := bs[k].id;
    var tail := bs[1..];
    assert UniqueIds(tail) by {
      forall i, j | 0 <= i < j < |tail| ensures tail[i].id != tail[j].id {
        assert tail[i] == bs[i + 1] && tail[j] == bs[j + 1];
      }
    }
    if k == 0 {
      assert !HasId(tail, id) by {
        forall i | 0 <= i < |tail| ensures tail[i].id != id {
          assert tail[i] == bs[i + 1];
        }
      }
      RemoveAbsent(tail, id);
    } else {
      assert bs[0].id != id;
      assert tail[k - 1] == bs[k];
      RemoveUnique(tail, k - 1);
      assert [bs[0]] + (tail[..k - 1] + tail[k..]) == bs[..k] + bs[k + 1..];
    }
  }

  /** `prev.map(block => block.id === id ? { ...block, position } : block)`. */
  function UpdatePosition(bs: seq<Block>, id: string, p: Position): (r: seq<Block>)
    ensures |r| == |bs|
    ensures forall i :: 0 <= i < |bs| ==> r[i].(position := bs[i].position) == bs[i]
    ensures forall i :: 0 <= i < |bs| ==> (bs[i].id == id ==> r[i].position == p)
    ensures forall i :: 0 <= i < |bs| ==> (bs[i].id != id ==> r[i] == bs[i])
  {
    seq(|bs|, i requires 0 <= i < |bs| => if bs[i].id == id then bs[i].(position := p) else bs[i])
  }

  /** Moving a block keeps every id, so unique ids stay unique. */
  lemma UpdateKeepsIdsUnique(bs: seq<Block>, id: string, p: Position)
    requires UniqueIds(bs)
    ensures UniqueIds(UpdatePosition(bs, id, p))
  {
    var r := UpdatePosition(bs, id, p);
    assert forall i :: 0 <= i < |bs| ==> r[i].id == r[i].(position := bs[i].position).id;
  }

  /** Moving an id nobody carries changes nothing. */
  lemma UpdateAbsent(bs: seq<Block>, id: string, p: Position)
    requires !HasId(bs, id)
    ensures UpdatePosition(bs, id, p) == bs
  {
  }

  /** The last move wins. */
  lemma UpdateLastWins(bs: seq<Block>, id: string, p: Position, q: Position)
    ensures UpdatePosition(UpdatePosition(bs, id, p), id, q) == UpdatePosition(bs, id, q)
  {
    var r1 := UpdatePosition(bs, id, p);
    assert forall i :: 0 <= i < |bs| ==> r1[i].id == r1[i].(position := bs[i].position).id;
  }

  /** Removing a block after moving it leaves the same canvas as removing it
      straight away: a move touches nothing but the moved block. */
  lemma {:induction false} RemoveAfterUpdate(bs: seq<Block>, id: string, p: Position)
    ensures RemoveById(UpdatePosition(bs, id, p), id) == RemoveById(bs, id)
    decreases |bs|
  {
    if bs != [] {
      var r := UpdatePosition(bs, id, p);
      assert r[0].id == bs[0].id by {
        assert r[0].(position := bs[0].position) == bs[0];
      }
      assert r[1..] == UpdatePosition(bs[1..], id, p);
      RemoveAfterUpdate(bs[1..], id, p);
    }
  }
}
