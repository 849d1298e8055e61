/**
 * The bookkeeping of the player's main thread, as a state machine whose
 * steps are the ones the two threads take atomically: the prefill before
 * the stream starts, one audio callback, one reclaim attempt on the free
 * list, one refill of the reclaimed chunk, one drain attempt, and one poll
 * of the device clock while the last chunk plays out.
 *
 * The invariant `Valid` is the capacity accounting: every chunk in
 * circulation is in exactly one of the two queues or in the producer's
 * hands, there are `nchunks` of them and never more than the queues can
 * hold. Two ghost histories record the contents of every successful fill
 * and of every chunk the callback played; the queued chunks are always the
 * filled ones not yet played, in fill order.
 */
module Playback {
  import opened Chunking
  import opened Channels
  import opened Spkr

  /** The number of chunks the player allocates, and the queues' capacity. */
  const Capacity: nat := 16

  datatype Phase =
    | Preload         // before the stream starts: chunks are being filled
    | Streaming       // the steady loop: played chunks are refilled and resent
    | Draining        // the input is exhausted: played chunks are discarded
    | WaitingForEnd   // every chunk is back: waiting for the last one to play out
    | Terminated      // the program has returned

  /** The buffers of the chunks in `cs`. */
  ghost function Bufs(cs: seq<Chunk>): set<array<Sample>>
  {
    set k | k in cs :: k.buf
  }

  /** No chunk in `cs` uses the buffer `a`. */
  ghost predicate Avoids(cs: seq<Chunk>, a: array<Sample>)
  {
    forall i :: 0 <= i < |cs| ==> cs[i].buf != a
  }

  /** Every chunk in `cs` holds `len` samples, and no two share a buffer. */
  ghost predicate Unique(cs: seq<Chunk>, len: int)
    decreases |cs|
  {
    cs == [] ||
    (&& cs[0].len == len && cs[0].buf.Length == len
     && cs[0].buf !in Bufs(cs[1..])
     && Unique(cs[1..], len))
  }

  lemma BufsTail(cs: seq<Chunk>)
    requires cs != []
    ensures Bufs(cs) == Bufs(cs[1..]) + {cs[0].buf}
  {
    assert forall k :: k in cs <==> k in cs[1..] || k == cs[0];
  }

  lemma BufsAppend(cs: seq<Chunk>, k: Chunk)
    ensures Bufs(cs + [k]) == Bufs(cs) + {k.buf}
  {
    assert forall x :: x in cs + [k] <==> x in cs || x == k;
  }

  /** A chunk of the right size whose buffer is not in use can join `cs`. */
  lemma {:induction false} UniqueAppend(cs: seq<Chunk>, k: Chunk, len: int)
    requires Unique(cs, len) && k.len == len && k.buf.Length == len && k.buf !in Bufs(cs)
    ensures Unique(cs + [k], len)
    decreases |cs|
  {
    if cs == [] {
      assert [] + [k] == [k];
      assert Bufs([]) == {};
    } else {
      assert (cs + [k])[1..] == cs[1..] + [k];
      BufsTail(cs);
      UniqueAppend(cs[1..], k, len);
      BufsAppend(cs[1..], k);
    }
  }

  /**
   * The chunks queued for playback (`b`), returned (`f`) and held by the
   * producer (`h`, at most one) all hold `len` samples, and no buffer has
   * two owners.
   */
  ghost predicate Owners(b: seq<Chunk>, f: seq<Chunk>, h: seq<Chunk>, len: int)
  {
    && Unique(b, len) && Unique(f, len) && Unique(h, len)
    && Bufs(b) !! Bufs(f)
    && |h| <= 1
    && (h != [] ==> h[0].buf !in Bufs(b) + Bufs(f))
  }

  /** The callback moves the chunk at the head of `b` to the end of `f`. */
  lemma OwnersPlay(b: seq<Chunk>, f: seq<Chunk>, h: seq<Chunk>, len: int)
    requires b != [] && Owners(b, f, h, len)
    ensures Owners(b[1..], f + [b[0]], h, len)
  {
    BufsTail(b);
    BufsAppend(f, b[0]);
    UniqueAppend(f, b[0], len);
  }

  /** The producer takes the chunk at the head of `f`, keeping it or not. */
  lemma OwnersTake(b: seq<Chunk>, f: seq<Chunk>, len: int, keep: bool)
    requires f != [] && Owners(b, f, [], len)
    ensures Owners(b, f[1..], if keep then [f[0]] else [], len)
  {
    BufsTail(f);
    assert Bufs([]) == {};
  }

  /** The producer sends the chunk it holds, or discards it. */
  lemma OwnersRelease(b: seq<Chunk>, f: seq<Chunk>, k: Chunk, len: int, send: bool)
    requires Owners(b, f, [k], len)
    ensures Owners(if send then b + [k] else b, f, [], len)
  {
    BufsAppend(b, k);
    UniqueAppend(b, k, len);
  }

  class Player {
    const c: Config
    const stdin: Input
    /** The number of chunks in circulation. */
    var nchunks: int
    var lastOutTime: Time
    var phase: Phase
    /** Whether the device stream is running. */
    var started: bool
    /** The chunk the producer has taken off the free list and not yet refilled. */
    var held: Option<Chunk>
    /** The contents of every successful fill, in order. */
    ghost var filled: seq<seq<Sample>>
    /** The contents of every chunk the callback played, in order. */
    ghost var played: seq<seq<Sample>>
    /** The contents of the chunks queued for playback, in queue order. */
    ghost var queued: seq<seq<Sample>>
    /** The time the device was to start playing the chunk the callback played last. */
    ghost var lastDac: Time

    ghost function Held(): seq<Chunk>
      reads this
    {
      if held.Some? then [held.value] else []
    }

    /** The configuration facts that hold for the whole run. */
    ghost predicate Shape()
      reads this, c.buffer, c.freeList, stdin
    {
      && c.buffer != c.freeList
      && c.buffer.capacity == Capacity && c.freeList.capacity == Capacity
      && c.buffer.Valid() && c.freeList.Valid()
      && c.nchannels > 0 && c.sampleRate > 0 && c.framesPerChunk >= 0
      && stdin.Valid()
    }

    /**
     * Every chunk in circulation has one owner: it is queued for playback,
     * returned on the free list, or held by the producer, and there are
     * `nchunks` of them.
     */
    ghost predicate Owned()
      reads this, c.buffer, c.freeList
    {
      && Owners(c.buffer.items, c.freeList.items, Held(), c.ChunkLen())
      && 0 <= nchunks <= Capacity
      && (if phase.Preload? then nchunks == Capacity && c.buffer.items == [] && c.freeList.items == []
          else |c.buffer.items| + |c.freeList.items| + |Held()| == nchunks)
    }

    /** The facts each phase of the producer keeps. */
    ghost predicate Phased()
      reads this, stdin
    {
      && (held.Some? ==> phase.Streaming?)
      && (started <==> phase.Streaming? || phase.Draining? || phase.WaitingForEnd?)
      && (started ==> c.ChunkLen() > 0)
      && (phase.Streaming? || phase.Draining? ==> nchunks > 0)
      && (phase.WaitingForEnd? || phase.Terminated? ==> nchunks == 0)
      && (phase.Draining? || phase.WaitingForEnd? ==> stdin.pos == |stdin.data|)
      && (phase.Terminated? ==> stdin.pos == |stdin.data| || c.ChunkLen() == 0)
      && (phase.Preload? ==> played == [])
    }

    /**
     * What has been read, filled and played: the fills so far are the
     * input read so far cut into chunks, and the chunks queued for playback
     * hold the fills not yet played, in fill order.
     */
    ghost predicate History()
      reads this, c.buffer, stdin, Bufs(c.buffer.items)
    {
      && c.ChunkLen() >= 0 && stdin.Valid()
      && (c.ChunkLen() == 0 ==> stdin.pos == 0)
      && (stdin.pos == |stdin.data| || stdin.pos == |filled| * c.ChunkLen())
      && filled == Split(stdin.data[..stdin.pos], c.ChunkLen())
      && |queued| == |c.buffer.items|
      && (forall j {:trigger c.buffer.items[j]} :: 0 <= j < |queued| ==> c.buffer.items[j].buf[..] == queued[j])
      && filled == played + queued
    }

    /**
     * The playback time of the chunk played last is on the newest chunk of
     * the free list, on the held chunk when that is the only one in
     * circulation, and, once every chunk is back, in `lastOutTime`.
     */
    ghost predicate Stamped()
      reads this, c.buffer, c.freeList, c.freeList.items, if held.Some? then {held.value} else {}
    {
      && (c.freeList.items != [] ==> c.freeList.items[|c.freeList.items| - 1].outTime == lastDac)
      && (held.Some? && c.buffer.items == [] && c.freeList.items == [] ==> held.value.outTime == lastDac)
      && (phase.WaitingForEnd? ==> lastOutTime == lastDac)
    }

    ghost predicate Valid()
      reads this, c.buffer, c.freeList, stdin, Bufs(c.buffer.items)
    {
      Shape() && Owned() && Phased() && History()
    }

    /** The state before the prefill: nothing allocated or read yet. */
    ghost predicate Initial()
      reads this, c.buffer, c.freeList, stdin
    {
      && Shape() && stdin.pos == 0
      && c.buffer.items == [] && c.freeList.items == [] && held == None
      && phase.Preload? && !started && nchunks == Capacity
      && filled == [] && played == [] && queued == []
    }

    /** The state after the prefill: the chunks filled so far are queued, in order. */
    ghost predicate Prefilled()
      reads this, c.buffer, c.freeList, stdin, Bufs(c.buffer.items)
    {
      && Shape() && History()
      && Owners(c.buffer.items, [], [], c.ChunkLen())
      && nchunks == |filled| == |c.buffer.items| <= Capacity
      && queued == filled && played == []
      && (nchunks < Capacity ==> stdin.pos == |stdin.data| || c.ChunkLen() == 0)
      && c.freeList.items == [] && held == None
      && phase.Preload? && !started
    }

    /** The start of the program, up to the prefill: nothing allocated or read yet. */
    constructor (pageSize: nat, nchannels: int, sampleRate: int, data: seq<Sample>)
      requires nchannels > 0 && sampleRate > 0
      ensures Valid() && Initial()
      ensures fresh(c) && fresh(c.buffer) && fresh(c.freeList) && fresh(stdin)
      ensures c.nchannels == nchannels && c.sampleRate == sampleRate
      ensures c.framesPerChunk == FramesPerChunk(pageSize, nchannels)
      ensures stdin.data == data && stdin.pos == 0
      ensures phase == Preload && nchunks == Capacity && lastOutTime == 0.0
      ensures c.buffer.items == [] && c.freeList.items == [] && held == None
    {
      c := new Config(pageSize, nchannels, sampleRate, Capacity);
      stdin := new Input(data);
      nchunks := Capacity;
      lastOutTime := 0.0;
      phase := Preload;
      started := false;
      held := None;
      filled := [];
      played := [];
      queued := [];
      lastDac := 0.0;
      new;
      assert stdin.data[..0] == [];
    }

    /**
     * Fill `chunk` from standard input and, when anything was read, send
     * it for playback; the prefill and the steady loop both do this. With
     * room in the queue the send cannot fail.
     */
    method FillAndSend(chunk: Chunk) returns (sent: bool)
      requires History() && c.buffer.Valid() && |c.buffer.items| < c.buffer.capacity
      requires chunk.len == c.ChunkLen() && chunk.buf.Length == chunk.len
      requires chunk.buf !in Bufs(c.buffer.items)
      modifies this`filled, this`queued, c.buffer, stdin, chunk.buf
      ensures History() && c.buffer.Valid()
      ensures sent <==> old(stdin.pos) < |stdin.data| && c.ChunkLen() > 0
      ensures sent ==> c.buffer.items == old(c.buffer.items) + [chunk]
      ensures sent ==> filled == old(filled) + [chunk.buf[..]] && queued == old(queued) + [chunk.buf[..]]
      ensures !sent ==> c.buffer.items == old(c.buffer.items) && stdin.pos == old(stdin.pos)
      ensures !sent ==> filled == old(filled) && queued == old(queued)
    {
      ghost var before := stdin.pos;
      sent := Fill(chunk.buf, stdin);
      if !sent {
        return;
      }
      ghost var _ := SplitRead(stdin.data, before, c.ChunkLen(), |filled|);
      var ok := c.buffer.Send(chunk);
      assert ok;
      filled, queued := filled + [chunk.buf[..]], queued + [chunk.buf[..]];
    }

    /**
     * The prefill: allocate and fill up to `nchunks` chunks and queue each
     * for playback in fill order. The first failed fill discards its chunk
     * and cuts the pool to the chunks filled so far.
     */
    method Prefill()
      requires Initial()
      modifies this`nchunks, this`filled, this`queued, c.buffer, stdin
      ensures Prefilled()
      ensures queued == filled == Split(stdin.data[..stdin.pos], c.ChunkLen())
      ensures forall k :: k in c.buffer.items ==> fresh(k) && fresh(k.buf)
    {
      var i := 0;
      while i < nchunks
        invariant 0 <= i <= nchunks == Capacity
        invariant Shape() && History()
        invariant |c.buffer.items| == i == |filled|
        invariant Owners(c.buffer.items, [], [], c.ChunkLen())
        invariant queued == filled
        invariant forall j :: 0 <= j < i ==> fresh(c.buffer.items[j]) && fresh(c.buffer.items[j].buf)
      {
        var ok, _ := PrefillStep();
        if !ok {
          nchunks := i;
          break;
        }
        i := i + 1;
      }
    }

    /**
     * One round of the prefill: allocate a chunk, fill it and queue it. A
     * failed fill discards the new chunk and leaves the queue as it was.
     */
    method PrefillStep() returns (ok: bool, chunk: Chunk)
      requires Shape() && History() && |c.buffer.items| < Capacity
      requires Owners(c.buffer.items, [], [], c.ChunkLen())
      modifies this`filled, this`queued, c.buffer, stdin
      ensures Shape() && History() && Owners(c.buffer.items, [], [], c.ChunkLen())
      ensures fresh(chunk) && fresh(chunk.buf)
      ensures ok <==> old(stdin.pos) < |stdin.data| && c.ChunkLen() > 0
      ensures ok ==>
        && c.buffer.items == old(c.buffer.items) + [chunk]
        && filled == old(filled) + [chunk.buf[..]] && queued == old(queued) + [chunk.buf[..]]
      ensures !ok ==>
        && c.buffer.items == old(c.buffer.items) && stdin.pos == old(stdin.pos)
        && filled == old(filled) && queued == old(queued)
    {
      chunk := new Chunk(c.framesPerChunk, c.nchannels);
      ghost var before := c.buffer.items;
      assert chunk.buf !in Bufs(before);
      ok := FillAndSend(chunk);
      if ok {
        OwnersRelease(before, [], chunk, c.ChunkLen(), true);
      }
    }

    /**
     * The end of the prefill: with nothing filled the program returns at
     * once; otherwise the device stream starts.
     */
    method Start()
      requires Prefilled()
      modifies this`phase, this`started
      ensures Valid() && Stamped()
      ensures started <==> nchunks > 0
      ensures phase == if nchunks > 0 then Streaming else Terminated
    {
      assert played + queued == queued;
      if nchunks == 0 {
        phase := Terminated;
        return;
      }
      started := true;
      phase := Streaming;
    }
  
    /**
     * One invocation of the audio callback while the stream runs. The
     * device asks for `framesPerChunk` frames, the count the stream was
     * opened with, so a queued chunk always has the length the callback
     * checks for. The returned chunk always fits on the free list: no
     * chunk is ever abandoned.
     */
    method DeviceCallback(out: array<Sample>, nframes: nat, dacTime: Time) returns (code: int)
      requires Valid() && Stamped() && started
      requires nframes == c.framesPerChunk && out.Length == nframes * c.nchannels
      requires Avoids(c.buffer.items, out)
      modifies this`played, this`queued, this`lastDac, c.buffer, c.freeList, out
      modifies if c.buffer.items != [] then {c.buffer.items[0]} else {}
      ensures Valid() && Stamped()
      ensures code == PaContinue
      ensures old(c.buffer.items) == [] ==>
        && out[..] == Zeros(out.Length)
        && c.buffer.items == [] && c.freeList.items == old(c.freeList.items)
        && played == old(played) && queued == old(queued) && lastDac == old(lastDac)
      ensures old(c.buffer.items) != [] ==>
        var chunk := old(c.buffer.items[0]);
        && out[..] == old(queued[0]) == filled[|old(played)|]
        && chunk.outTime == dacTime
        && c.buffer.items == old(c.buffer.items[1..])
        && c.freeList.items == old(c.freeList.items) + [chunk]
        && played == old(played) + [out[..]] && queued == old(queued[1..])
        && lastDac == dacTime
    {
      ghost var items := c.buffer.items;
      ghost var returned := c.freeList.items;
      if items != [] {
        OwnersPlay(items, returned, Held(), c.ChunkLen());
      }
      code := Callback(c, out, nframes, dacTime);
      if items != [] {
        played, queued := played + [queued[0]], queued[1..];
        lastDac := dacTime;
        PlayKeepsValid(items);
      }
    }

    /** The callback's play of the oldest queued chunk keeps the invariant and the stamps. */
    twostate lemma PlayKeepsValid(items: seq<Chunk>)
      requires old(Valid() && Stamped()) && old(started)
      requires items == old(c.buffer.items) != []
      requires c.buffer.Valid() && c.freeList.Valid()
      requires c.buffer.items == items[1..] && c.freeList.items == old(c.freeList.items) + [items[0]]
      requires Owners(items[1..], old(c.freeList.items) + [items[0]], old(Held()), c.ChunkLen())
      requires items[0].outTime == lastDac
      requires unchanged(stdin) && filled == old(filled)
      requires nchunks == old(nchunks) && phase == old(phase) && started == old(started)
      requires held == old(held) && lastOutTime == old(lastOutTime)
      requires played == old(played) + [old(queued[0])] && queued == old(queued[1..])
      requires forall j :: 1 <= j < |items| ==> unchanged(items[j].buf)
      ensures Valid() && Stamped()
    {
      PlayKeepsHistory(items);
    }

    /** The callback's play of the oldest queued chunk keeps the history. */
    twostate lemma PlayKeepsHistory(items: seq<Chunk>)
      requires old(History()) && items == old(c.buffer.items) != []
      requires c.buffer.items == items[1..] && unchanged(stdin) && filled == old(filled)
      requires played == old(played) + [old(queued[0])] && queued == old(queued[1..])
      requires forall j :: 1 <= j < |items| ==> unchanged(items[j].buf)
      ensures History()
    {
      ghost var q := old(queued);
      assert q == [q[0]] + q[1..];
      forall j | 0 <= j < |queued|
        ensures c.buffer.items[j].buf[..] == queued[j]
      {
        assert c.buffer.items[j] == items[j + 1];
        assert unchanged(items[j + 1].buf);
      }
    }

    /**
     * One attempt of the steady loop to take a played chunk back from the
     * free list; when there is none the producer sleeps and tries again.
     */
    method Reclaim() returns (got: bool)
      requires Valid() && Stamped() && phase.Streaming? && held.None?
      modifies this`held, c.freeList
      ensures Valid() && Stamped()
      ensures got <==> old(c.freeList.items) != []
      ensures got ==> held == Some(old(c.freeList.items[0])) && c.freeList.items == old(c.freeList.items[1..])
      ensures !got ==> held == None && c.freeList.items == old(c.freeList.items)
    {
      if c.freeList.items != [] {
        OwnersTake(c.buffer.items, c.freeList.items, c.ChunkLen(), true);
      }
      held := c.freeList.Receive();
      got := held.Some?;
    }

    /**
     * The rest of one round of the steady loop: refill the reclaimed chunk
     * and send it for playback. When the input is exhausted the chunk is
     * discarded, its playback time kept as the last one, and the producer
     * goes on to drain the chunks still in circulation.
     */
    method Refill() returns (sent: bool)
      requires Valid() && Stamped() && phase.Streaming? && held.Some?
      modifies this`held, this`lastOutTime, this`nchunks, this`phase, this`filled, this`queued
      modifies c.buffer, stdin, held.value.buf
      ensures Valid() && Stamped() && held == None
      ensures sent <==> old(stdin.pos) < |stdin.data|
      ensures sent ==>
        && c.buffer.items == old(c.buffer.items) + [old(held.value)]
        && queued == old(queued) + [old(held.value).buf[..]]
        && nchunks == old(nchunks) && phase == Streaming && lastOutTime == old(lastOutTime)
      ensures !sent ==>
        && c.buffer.items == old(c.buffer.items) && queued == old(queued)
        && nchunks == old(nchunks) - 1
        && lastOutTime == old(held.value.outTime)
        && phase == if nchunks == 0 then WaitingForEnd else Draining
    {
      var chunk := held.value;
      ghost var items := c.buffer.items;
      sent := FillAndSend(chunk);
      held := None;
      if !sent {
        lastOutTime := chunk.outTime;
        nchunks := nchunks - 1;
        phase := if nchunks == 0 then WaitingForEnd else Draining;
      }
      RefillKeepsValid(items);
    }

    /** Sending or discarding the held chunk keeps the invariant and the stamps. */
    twostate lemma RefillKeepsValid(items: seq<Chunk>)
      requires old(Valid() && Stamped()) && old(phase.Streaming?) && old(held.Some?)
      requires items == old(c.buffer.items) && c.freeList.items == old(c.freeList.items)
      requires unchanged(c.freeList) && unchanged(c.freeList.items) && unchanged(old(held.value))
      requires History() && c.buffer.Valid()
      requires c.buffer.items == items + [old(held.value)] || c.buffer.items == items
      requires held == None && played == old(played) && started == old(started) && lastDac == old(lastDac)
      requires c.buffer.items != items ==>
        && old(stdin.pos) < |stdin.data|
        && nchunks == old(nchunks) && phase == Streaming && lastOutTime == old(lastOutTime)
      requires c.buffer.items == items ==>
        && old(stdin.pos) == |stdin.data| == stdin.pos
        && nchunks == old(nchunks) - 1 && lastOutTime == old(held.value.outTime)
        && phase == if nchunks == 0 then WaitingForEnd else Draining
      ensures Valid() && Stamped()
    {
      OwnersRelease(items, c.freeList.items, old(held.value), c.ChunkLen(), c.buffer.items != items);
    }

    /**
     * One attempt of the drain loop: take a played chunk back from the
     * free list, keep its playback time as the last one and discard it.
     */
    method DrainStep() returns (got: bool)
      requires Valid() && Stamped() && phase.Draining?
      modifies this`lastOutTime, this`nchunks, this`phase, c.freeList
      ensures Valid() && Stamped()
      ensures got <==> old(c.freeList.items) != []
      ensures got ==>
        && c.freeList.items == old(c.freeList.items[1..])
        && lastOutTime == old(c.freeList.items[0].outTime)
        && nchunks == old(nchunks) - 1
        && phase == if nchunks == 0 then WaitingForEnd else Draining
      ensures !got ==>
        && c.freeList.items == old(c.freeList.items)
        && lastOutTime == old(lastOutTime) && nchunks == old(nchunks) && phase == Draining
    {
      if c.freeList.items != [] {
        OwnersTake(c.buffer.items, c.freeList.items, c.ChunkLen(), false);
      }
      var r := c.freeList.Receive();
      got := r.Some?;
      if got {
        lastOutTime := r.value.outTime;
        nchunks := nchunks - 1;
        phase := if nchunks == 0 then WaitingForEnd else Draining;
      }
    }

    /**
     * The fills so far are the first chunks of the whole input, in order,
     * and once the input is exhausted they are all of them.
     */
    lemma FilledIsPrefix()
      requires History()
      ensures |filled| <= |Split(stdin.data, c.ChunkLen())|
      ensures filled == Split(stdin.data, c.ChunkLen())[..|filled|]
      ensures stdin.pos == |stdin.data| ==> filled == Split(stdin.data, c.ChunkLen())
    {
      var len := c.ChunkLen();
      if len == 0 {
      } else if stdin.pos == |stdin.data| {
        assert stdin.data[..stdin.pos] == stdin.data;
      } else {
        var pos := stdin.pos;
        FlattenSplit(stdin.data[..pos], len);
        assert Flatten(filled) == stdin.data[..pos];
        assert stdin.data == Flatten(filled) + stdin.data[pos..];
        SplitConcat(filled, stdin.data[pos..], len);
      }
    }

    /**
     * The prefill queues the first chunks of the input, in order: sixteen
     * of them, or all there are when the input yields fewer.
     */
    lemma PrefillCount()
      requires Prefilled()
      ensures nchunks == Min(Capacity, |Split(stdin.data, c.ChunkLen())|)
      ensures queued == Split(stdin.data, c.ChunkLen())[..nchunks]
      ensures forall j :: 0 <= j < nchunks ==> c.buffer.items[j].buf[..] == Split(stdin.data, c.ChunkLen())[j]
    {
      FilledIsPrefix();
    }

    /**
     * Once every chunk is back, or the program has returned, the callback
     * has played the whole input cut into chunks, in input order: the
     * samples that left the device are the input followed by less than one
     * chunk of silence.
     */
    lemma AllInputPlayed()
      requires Valid() && (phase.WaitingForEnd? || phase.Terminated?)
      ensures played == Split(stdin.data, c.ChunkLen())
      ensures c.ChunkLen() > 0 ==>
        var out := Flatten(played);
        && |stdin.data| <= |out| < |stdin.data| + c.ChunkLen()
        && out[..|stdin.data|] == stdin.data
        && forall i :: |stdin.data| <= i < |out| ==> out[i] == Silence
    {
      FilledIsPrefix();
      assert played + [] == played;
      if c.ChunkLen() > 0 {
        FlattenSplit(stdin.data, c.ChunkLen());
      }
    }

    /**
     * While the producer waits on the free list, some chunk is still on
     * its way back: queued for playback or already returned. Each callback
     * moves one from the first queue to the second, so the wait ends.
     */
    lemma WaitEnds()
      requires Valid() && ((phase.Streaming? && held.None?) || phase.Draining?)
      ensures c.buffer.items != [] || c.freeList.items != []
      ensures c.freeList.items == [] ==> |c.buffer.items| == nchunks
    {
    }

    /** How long one chunk plays, in seconds. */
    function ChunkDuration(): (d: Time)
      requires c.sampleRate > 0
      ensures d * c.sampleRate as real == c.framesPerChunk as real
    {
      c.framesPerChunk as real / c.sampleRate as real
    }

    /** The time the last chunk has finished playing. */
    function EndTime(): (t: Time)
      requires c.sampleRate > 0
      reads this
      ensures (t - lastOutTime) * c.sampleRate as real == c.framesPerChunk as real
    {
      lastOutTime + ChunkDuration()
    }

    /**
     * One poll of the device clock once every chunk is back: at or after
     * the end of the last chunk the stream stops and the program returns;
     * before it the producer sleeps and polls again.
     */
    method WaitForEnd(now: Time) returns (done: bool)
      requires Valid() && Stamped() && phase.WaitingForEnd?
      modifies this`phase, this`started
      ensures Valid() && Stamped()
      ensures done <==> now >= EndTime() == lastDac + ChunkDuration()
      ensures done ==> phase == Terminated && !started
      ensures !done ==> phase == WaitingForEnd && started
    {
      done := now >= EndTime();
      if done {
        phase := Terminated;
        started := false;
      }
    }
}
}
