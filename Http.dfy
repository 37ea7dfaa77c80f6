/** The parts of Node's `http` streams the runtime relies on: header values,
    the events of a readable stream, `Buffer.concat`, and what a promise wired
    to a stream's 'data', 'end' and 'error' events settles to. */
module Http {

  type byte = b: int | 0 <= b < 256

  /** A header value as `setHeader` receives it: a string or a number. */
  datatype HeaderValue = HeaderText(text: string) | HeaderNumber(number: int)

  /** One event of a readable stream, in arrival order. */
  datatype StreamEvent = Data(chunk: seq<byte>) | End | Failed(error: string)

  /** The state of a promise that collects a stream's chunks. */
  datatype Settled = Pending | Resolved(data: seq<byte>) | Rejected(error: string)

  /** `Buffer.concat`: the chunks one after the other, in order. */
  function Concat(chunks: seq<seq<byte>>): (r: seq<byte>)
    ensures |r| == TotalLength(chunks)
  {
    if |chunks| == 0 then [] else Concat(chunks[..|chunks| - 1]) + chunks[|chunks| - 1]
  }

  /** Concatenation splits at any point: each chunk keeps its place. */
  lemma {:induction false} ConcatAppend(xs: seq<seq<byte>>, ys: seq<seq<byte>>)
    ensures Concat(xs + ys) == Concat(xs) + Concat(ys)
    decreases |ys|
  {
    if |ys| == 0 {
      assert xs + ys == xs;
    } else {
      var zs := ys[..|ys| - 1];
      assert (xs + ys)[..|xs + ys| - 1] == xs + zs;
      ConcatAppend(xs, zs);
    }
  }

  /** The sum of the chunk lengths. */
  function TotalLength(chunks: seq<seq<byte>>): nat
  {
    if |chunks| == 0 then 0 else TotalLength(chunks[..|chunks| - 1]) + |chunks[|chunks| - 1]|
  }

  /** Prefixes a chunk to a resolved value; pending and rejected stay as they are. */
  function Prepend(chunk: seq<byte>, s: Settled): Settled
  {
    if s.Resolved? then Resolved(chunk + s.data) else s
  }

  /** The reference definition of a promise fed by a stream: the first 'end'
      resolves with every chunk that came before it, the first 'error' rejects
      with that error, and a stream with neither leaves the promise pending.
      Later events do not matter: a promise settles once. */
  function Settle(events: seq<StreamEvent>): (r: Settled)
    ensures r.Resolved? ==> exists k :: 0 <= k < |events| && events[k] == End
    ensures r.Rejected? ==> exists k :: 0 <= k < |events| && events[k] == Failed(r.error)
  {
    if |events| == 0 then Pending
    else match events[0]
      case Data(c) => Prepend(c, Settle(events[1..]))
      case End => Resolved([])
      case Failed(e) => Rejected(e)
  }

  /** The chunks carried by a run of data events. */
  function Chunks(events: seq<StreamEvent>): (chunks: seq<seq<byte>>)
    requires forall k :: 0 <= k < |events| ==> events[k].Data?
    ensures |chunks| == |events|
    ensures forall k :: 0 <= k < |events| ==> chunks[k] == events[k].chunk
  {
    if |events| == 0 then [] else Chunks(events[..|events| - 1]) + [events[|events| - 1].chunk]
  }

  /** The chunks of a run of data events: the first one, then the rest. */
  lemma ChunksCons(events: seq<StreamEvent>, i: nat)
    requires 0 < i <= |events|
    requires forall k :: 0 <= k < i ==> events[k].Data?
    ensures Chunks(events[..i]) == [events[0].chunk] + Chunks(events[1..i])
  {
    var tail := Chunks(events[1..i]);
    assert forall k :: 0 <= k < i ==> Chunks(events[..i])[k] == ([events[0].chunk] + tail)[k];
  }

  lemma ConcatCons(c: seq<byte>, t: seq<seq<byte>>)
    ensures Concat([c] + t) == c + Concat(t)
  {
    ConcatAppend([c], t);
    assert [c][..0] == [];
  }

  lemma PrependTwice(a: seq<byte>, b: seq<byte>, s: Settled)
    ensures Prepend(a, Prepend(b, s)) == Prepend(a + b, s)
  {
    if s.Resolved? {
      assert a + (b + s.data) == (a + b) + s.data;
    }
  }

  /** Settling after a run of data events: the run's chunks, concatenated in
      order, go in front of whatever the rest of the stream settles to. */
  lemma {:induction false} SettleAfterData(events: seq<StreamEvent>, i: nat)
    requires i <= |events|
    requires forall k :: 0 <= k < i ==> events[k].Data?
    ensures Settle(events) == Prepend(Concat(Chunks(events[..i])), Settle(events[i..]))
  {
    if i == 0 {
      assert events[..0] == [] && events[0..] == events;
      PrependTwice([], [], Settle(events));
    } else {
      var rest := events[1..];
      SettleAfterData(rest, i - 1);
      assert rest[..i - 1] == events[1..i] && rest[i - 1..] == events[i..];
      ChunksCons(events, i);
      ConcatCons(events[0].chunk, Chunks(events[1..i]));
      PrependTwice(events[0].chunk, Concat(Chunks(events[1..i])), Settle(events[i..]));
    }
  }

  /** The whole stream at once: it settles at its first 'end' or 'error'
      event, and on 'end' to the concatenation of the chunks before it. */
  lemma SettleAtFirstTerminal(events: seq<StreamEvent>, i: nat)
    requires i < |events| && !events[i].Data?
    requires forall k :: 0 <= k < i ==> events[k].Data?
    ensures events[i].End? ==> Settle(events) == Resolved(Concat(Chunks(events[..i])))
    ensures events[i].Failed? ==> Settle(events) == Rejected(events[i].error)
  {
    SettleAfterData(events, i);
    var d := Concat(Chunks(events[..i]));
    if events[i].End? {
      assert Settle(events[i..]) == Resolved([]);
      assert d + [] == d;
    }
  }

  /** A stream made only of data events never settles. */
  lemma SettleWithoutTerminal(events: seq<StreamEvent>)
    requires forall k :: 0 <= k < |events| ==> events[k].Data?
    ensures Settle(events) == Pending
  {
    SettleAfterData(events, |events|);
    assert events[|events|..] == [];
  }
}
