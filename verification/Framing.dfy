/** The update stream between replicas: one growing buffer cut into frames with a count in front, the
    decoder at the other end, and the min-aggregation that consumes it. */
module Framing {
  import opened Sequences

  datatype Pair = Pair(v: nat, y: nat)

  const THRESHOLD: nat := 65536

  /** The pairs laid out as words, two per pair. */
  function Words(ps: seq<Pair>): (ws: seq<nat>)
    ensures |ws| == 2 * |ps|
  {
    if ps == [] then [] else Words(ps[..|ps| - 1]) + [ps[|ps| - 1].v, ps[|ps| - 1].y]
  }

  function Frame(ps: seq<Pair>): seq<nat> { [|ps|] + Words(ps) }

  /** Word `i` of a stream; past the end the decoder's zeroed buffer keeps its zeroes. */
  function Word(stream: seq<nat>, i: nat): nat { if i < |stream| then stream[i] else 0 }

  /** `num` pairs starting at word `from`. */
  function ReadPairs(stream: seq<nat>, from: nat, num: nat): (ps: seq<Pair>)
    ensures |ps| == num
  {
    seq(num, i requires 0 <= i => Pair(Word(stream, from + 2 * i), Word(stream, from + 2 * i + 1)))
  }

  /** What the receiver applies when it reads a stream from word `pos` on: a count, that many pairs, and
      so on until no count can be read. */
  ghost function DecodeFrom(stream: seq<nat>, pos: nat): seq<Pair>
    decreases |stream| - pos
  {
    if pos >= |stream| then []
    else ReadPairs(stream, pos + 1, stream[pos]) + DecodeFrom(stream, pos + 1 + 2 * stream[pos])
  }

  // ---- Sending ----

  lemma HeaderFilled(before: seq<nat>, n: nat, words: seq<nat>)
    ensures (before + ([0] + words))[|before| := n] == before + ([n] + words)
    ensures (before + ([n] + words))[|before|..] == [n] + words
  {
  }

  /** The buffer a worker appends its updates to. `frames` are the slices handed to the senders, each
      with its header word filled in. */
  class SendBuffer {
    var data: seq<nat>
    var sendOff: nat
    var frames: seq<seq<nat>>
    ghost var chunks: seq<seq<Pair>>
    ghost var tail: seq<Pair>

    /** The words before `sendOff` are exactly the frames handed out so far: no header write has touched
        another frame. The rest is an empty header slot and the pairs not handed out yet. */
    ghost predicate Shaped()
      reads this
    {
      && sendOff == |Flatten(frames)|
      && data == Flatten(frames) + ([0] + Words(tail))
      && |frames| == |chunks|
      && (forall k :: 0 <= k < |chunks| ==> frames[k] == Frame(chunks[k]) && |chunks[k]| == 32768)
    }

    ghost predicate Valid()
      reads this
    {
      Shaped() && |tail| < 32768
    }

    /** Every pair appended so far, in order. */
    ghost function Contents(): seq<Pair>
      reads this
    {
      Flatten(chunks) + tail
    }

    constructor ()
      ensures Valid() && Contents() == [] && frames == []
    {
      data, sendOff, frames := [0], 0, [];
      chunks, tail := [], [];
    }

    method Append(v: nat, y: nat)
      requires Valid()
      modifies this
      ensures Valid() && Contents() == old(Contents()) + [Pair(v, y)]
    {
      Extend(v, y);
      if |data| >= sendOff + THRESHOLD { Cut(); }
    }

    method Extend(v: nat, y: nat)
      requires Shaped()
      modifies this
      ensures Shaped() && Contents() == old(Contents()) + [Pair(v, y)]
      ensures |tail| == old(|tail|) + 1 && |data| == sendOff + 1 + 2 * |tail|
    {
      data := data + [v, y];
      tail := tail + [Pair(v, y)];
      assert tail[..|tail| - 1] == old(tail);
      assert data == Flatten(frames) + ([0] + (Words(old(tail)) + [v, y]));
    }

    /** Send the full slice off and open a new one behind it. */
    method Cut()
      requires Shaped() && |tail| == 32768
      modifies this
      ensures Valid() && Contents() == old(Contents())
    {
      HandOut();
      data := data + [0];
      tail := [];
    }

    /** Fill in the header slot and hand the slice to a sender. */
    method HandOut()
      requires sendOff == |Flatten(frames)| && data == Flatten(frames) + ([0] + Words(tail))
      modifies this
      ensures data == Flatten(frames) && sendOff == |data|
      ensures frames == old(frames) + [Frame(old(tail))]
      ensures chunks == old(chunks) + [old(tail)] && Flatten(chunks) == old(Contents()) && tail == old(tail)
    {
      HeaderFilled(Flatten(frames), |tail|, Words(tail));
      data := data[sendOff := (|data| - sendOff - 1) / 2];
      frames := frames + [data[sendOff..]];
      chunks := chunks + [tail];
      sendOff := |data|;
      assert frames[..|frames| - 1] == old(frames) && chunks[..|chunks| - 1] == old(chunks);
    }

    /** The last send: a slice that holds only its header is not written. */
    method Finish() returns (sent: seq<seq<nat>>, ghost parts: seq<seq<Pair>>)
      requires Valid()
      modifies this
      ensures |sent| == |parts|
      ensures forall k :: 0 <= k < |sent| ==> sent[k] == Frame(parts[k]) && 0 < |parts[k]| && |sent[k]| <= 65537
      ensures Flatten(parts) == old(Contents())
      ensures Flatten(sent) <= data
    {
      if |data| - sendOff > 1 {
        HandOut();
      } else {
        assert tail == [] && Contents() == Flatten(chunks);
      }
      sent, parts := frames, chunks;
      assert forall k :: 0 <= k < |old(chunks)| ==> old(frames)[k] == Frame(old(chunks)[k]);
    }
  }

  // ---- Receiving ----

  /** Reading the pairs of one frame. */
  method ReadBody(stream: seq<nat>, from: nat, num: nat) returns (batch: seq<Pair>)
    ensures batch == ReadPairs(stream, from, num)
  {
    batch := [];
    for i := 0 to num
      invariant batch == ReadPairs(stream, from, i)
    {
      batch := batch + [Pair(Word(stream, from + 2 * i), Word(stream, from + 2 * i + 1))];
    }
  }

  /** The receiver's loop over a request body. */
  method Decode(stream: seq<nat>) returns (ps: seq<Pair>)
    ensures ps == DecodeFrom(stream, 0)
  {
    ps := [];
    var pos := 0;
    while pos < |stream|
      invariant DecodeFrom(stream, 0) == ps + DecodeFrom(stream, pos)
      decreases |stream| - pos
    {
      var num := stream[pos];
      var batch := ReadBody(stream, pos + 1, num);
      assert ps + (batch + DecodeFrom(stream, pos + 1 + 2 * num)) == (ps + batch) + DecodeFrom(stream, pos + 1 + 2 * num);
      ps := ps + batch;
      pos := pos + 1 + 2 * num;
    }
  }

  ghost function Frames(chunks: seq<seq<Pair>>): (fs: seq<seq<nat>>)
    ensures |fs| == |chunks|
  {
    seq(|chunks|, k requires 0 <= k < |chunks| => Frame(chunks[k]))
  }

  lemma {:induction false} WordsAt(ps: seq<Pair>, i: nat)
    requires i < |ps|
    ensures Words(ps)[2 * i] == ps[i].v && Words(ps)[2 * i + 1] == ps[i].y
  {
    if i < |ps| - 1 { WordsAt(ps[..|ps| - 1], i); }
  }

  lemma ReadFrame(prefix: seq<nat>, ps: seq<Pair>, suffix: seq<nat>)
    ensures ReadPairs(prefix + Frame(ps) + suffix, |prefix| + 1, |ps|) == ps
  {
    var stream := prefix + Frame(ps) + suffix;
    forall i | 0 <= i < |ps|
      ensures ReadPairs(stream, |prefix| + 1, |ps|)[i] == ps[i]
    {
      WordsAt(ps, i);
      assert stream[|prefix| + 1 + 2 * i] == Words(ps)[2 * i];
      assert stream[|prefix| + 1 + 2 * i + 1] == Words(ps)[2 * i + 1];
    }
  }

  lemma DecodeFirst(prefix: seq<nat>, ps: seq<Pair>, suffix: seq<nat>)
    ensures var stream := prefix + Frame(ps) + suffix;
      DecodeFrom(stream, |prefix|) == ps + DecodeFrom(stream, |prefix + Frame(ps)|)
  {
    var stream := prefix + Frame(ps) + suffix;
    ReadFrame(prefix, ps, suffix);
    assert stream[|prefix|] == Frame(ps)[0] == |ps|;
  }

  /** Decoding is exact, in order within a frame, whatever frames are around it. */
  lemma {:induction false} DecodeFrames(prefix: seq<nat>, chunks: seq<seq<Pair>>)
    ensures DecodeFrom(prefix + Flatten(Frames(chunks)), |prefix|) == Flatten(chunks)
    decreases |chunks|
  {
    if chunks == [] {
      assert prefix + Flatten(Frames(chunks)) == prefix;
    } else {
      var first := Frame(chunks[0]);
      var rest := Flatten(Frames(chunks[1..]));
      FlattenFirst(chunks);
      assert Frames(chunks) == [first] + Frames(chunks[1..]);
      FlattenFirst(Frames(chunks));
      assert prefix + Flatten(Frames(chunks)) == prefix + first + rest;
      DecodeFirst(prefix, chunks[0], rest);
      DecodeFrames(prefix + first, chunks[1..]);
    }
  }

  // ---- Frames may arrive in any order ----

  /** Round trip: decoding the frames, delivered in any order, yields exactly the appended pairs. */
  lemma RoundTrip(chunks: seq<seq<Pair>>, arrived: seq<seq<Pair>>)
    requires multiset(arrived) == multiset(chunks)
    ensures multiset(DecodeFrom(Flatten(Frames(arrived)), 0)) == multiset(Flatten(chunks))
  {
    DecodeFrames([], arrived);
    assert [] + Flatten(Frames(arrived)) == Flatten(Frames(arrived));
    FlattenPermuted(arrived, chunks);
  }

  // ---- Min-aggregation ----

  /** The least value offered for `v`, starting from `cell`. */
  ghost function Least(v: nat, cell: nat, ps: seq<Pair>): nat {
    if ps == [] then cell
    else
      var m := Least(v, cell, ps[..|ps| - 1]);
      var p := ps[|ps| - 1];
      if p.v == v && p.y < m then p.y else m
  }

  lemma {:induction false} LeastMeaning(v: nat, cell: nat, ps: seq<Pair>)
    ensures Least(v, cell, ps) <= cell
    ensures forall p :: p in ps && p.v == v ==> Least(v, cell, ps) <= p.y
    ensures Least(v, cell, ps) == cell || Pair(v, Least(v, cell, ps)) in ps
  {
    if ps != [] {
      LeastMeaning(v, cell, ps[..|ps| - 1]);
      assert ps == ps[..|ps| - 1] + [ps[|ps| - 1]];
    }
  }

  /** Aggregating the same pairs in a different order gives the same values. */
  lemma LeastOrderFree(v: nat, cell: nat, a: seq<Pair>, b: seq<Pair>)
    requires multiset(a) == multiset(b)
    ensures Least(v, cell, a) == Least(v, cell, b)
  {
    LeastMeaning(v, cell, a);
    LeastMeaning(v, cell, b);
    assert forall p :: p in a <==> p in multiset(a);
    assert forall p :: p in b <==> p in multiset(b);
  }

  /** The last value offered for `v`. */
  ghost function Latest(v: nat, cell: nat, ps: seq<Pair>): nat {
    if ps == [] then cell
    else if ps[|ps| - 1].v == v then ps[|ps| - 1].y
    else Latest(v, cell, ps[..|ps| - 1])
  }

  /** The last pair for `v` says what is in the cell; without one it is as before. */
  ghost predicate LastWins(v: nat, cell: nat, ps: seq<Pair>, y: nat) {
    || ((forall i :: 0 <= i < |ps| ==> ps[i].v != v) && y == cell)
    || exists i :: 0 <= i < |ps| && ps[i].v == v && ps[i].y == y && forall j :: i < j < |ps| ==> ps[j].v != v
  }

  lemma OthersPairPasses(v: nat, cell: nat, ps: seq<Pair>, y: nat, p: Pair)
    requires LastWins(v, cell, ps, y) && p.v != v
    ensures LastWins(v, cell, ps + [p], y)
  {
    var more := ps + [p];
    if i :| 0 <= i < |ps| && ps[i].v == v && ps[i].y == y && forall j :: i < j < |ps| ==> ps[j].v != v {
      assert more[i].v == v && more[i].y == y && forall j :: i < j < |more| ==> more[j].v != v;
    }
  }

  lemma {:induction false} LatestMeaning(v: nat, cell: nat, ps: seq<Pair>)
    ensures LastWins(v, cell, ps, Latest(v, cell, ps))
  {
    if ps != [] {
      var front, p := ps[..|ps| - 1], ps[|ps| - 1];
      assert ps == front + [p];
      if p.v != v {
        LatestMeaning(v, cell, front);
        OthersPairPasses(v, cell, front, Latest(v, cell, front), p);
      }
    }
  }

  /** The replica side of a broadcast: `MIN_CAS` lowers cells, any other tag overwrites them, the last pair winning. */
  method AggregateVertexVal(vals: array<nat>, minCas: bool, ps: seq<Pair>)
    requires forall p :: p in ps ==> p.v < vals.Length
    modifies vals
    ensures minCas ==> forall v :: 0 <= v < vals.Length ==> vals[v] == Least(v, old(vals[v]), ps)
    ensures !minCas ==> forall v :: 0 <= v < vals.Length ==> vals[v] == Latest(v, old(vals[v]), ps)
    ensures !minCas ==> forall v :: 0 <= v < vals.Length ==> LastWins(v, old(vals[v]), ps, vals[v])
  {
    for i := 0 to |ps|
      invariant minCas ==> forall v :: 0 <= v < vals.Length ==> vals[v] == Least(v, old(vals[v]), ps[..i])
      invariant !minCas ==> forall v :: 0 <= v < vals.Length ==> vals[v] == Latest(v, old(vals[v]), ps[..i])
    {
      assert ps[..i + 1][..i] == ps[..i] && ps[i] in ps;
      var p := ps[i];
      if !minCas || p.y < vals[p.v] { vals[p.v] := p.y; }
    }
    assert ps[..|ps|] == ps;
    forall v | !minCas && 0 <= v < vals.Length
      ensures LastWins(v, old(vals[v]), ps, vals[v])
    {
      LatestMeaning(v, old(vals[v]), ps);
    }
  }

  /** End to end: whatever order the frames of `chunks` arrive in, min-aggregating what is decoded leaves
      each cell at the least of its value and everything appended for it. */
  lemma StreamLowersExactly(chunks: seq<seq<Pair>>, arrived: seq<seq<Pair>>, v: nat, cell: nat)
    requires multiset(arrived) == multiset(chunks)
    ensures Least(v, cell, DecodeFrom(Flatten(Frames(arrived)), 0)) == Least(v, cell, Flatten(chunks))
  {
    RoundTrip(chunks, arrived);
    LeastOrderFree(v, cell, DecodeFrom(Flatten(Frames(arrived)), 0), Flatten(chunks));
  }
}
