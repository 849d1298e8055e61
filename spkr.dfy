/**
 * The player's entities and its two buffer routines: the chunk, the
 * configuration shared with the audio callback, reading from standard
 * input into a chunk (`Fill`) and the audio callback itself.
 */
module Spkr {
  import opened Chunking
  import opened Channels

  /** A time on the audio device's clock, in seconds. */
  type Time = real

  /** The size in bytes of one 32-bit float sample. */
  const FloatSize: nat := 4

  /** The value the callback returns to ask the driver to keep streaming. */
  const PaContinue: int := 0

  /**
   * Frames that fit in one page of `pageSize` bytes. The page size is
   * unsigned, so a negative channel count is converted to a huge unsigned
   * divisor and the quotient is zero; a channel count of zero divides by
   * zero and is excluded.
   */
  function FramesPerChunk(pageSize: nat, nchannels: int): (f: nat)
    requires nchannels != 0
    ensures nchannels > 0 ==> f * nchannels <= pageSize / FloatSize < (f + 1) * nchannels
    ensures nchannels < 0 ==> f == 0
  {
    if nchannels > 0 then pageSize / FloatSize / nchannels else 0
  }

  /** A sample buffer of fixed length and the time it was scheduled to play. */
  class Chunk {
    const len: int
    const buf: array<Sample>
    var outTime: Time

    constructor (framesPerChunk: int, nchannels: int)
      requires framesPerChunk * nchannels >= 0
      ensures len == framesPerChunk * nchannels
      ensures buf.Length == len && fresh(buf)
      ensures outTime == 0.0
    {
      len := framesPerChunk * nchannels;
      buf := new Sample[framesPerChunk * nchannels];
      outTime := 0.0;
    }
  }

  /** The state shared by the producer and the audio callback. */
  class Config {
    const nchannels: int
    const framesPerChunk: int
    const sampleRate: int
    /** Filled chunks, from the producer to the callback. */
    const buffer: Channel<Chunk>
    /** Played chunks, from the callback back to the producer. */
    const freeList: Channel<Chunk>

    constructor (pageSize: nat, nchannels: int, sampleRate: int, nchunks: nat)
      requires nchannels != 0
      ensures this.nchannels == nchannels && this.sampleRate == sampleRate
      ensures framesPerChunk == FramesPerChunk(pageSize, nchannels)
      ensures fresh(buffer) && fresh(freeList) && buffer != freeList
      ensures buffer.Valid() && buffer.capacity == nchunks && buffer.items == []
      ensures freeList.Valid() && freeList.capacity == nchunks && freeList.items == []
    {
      this.nchannels := nchannels;
      this.sampleRate := sampleRate;
      framesPerChunk := FramesPerChunk(pageSize, nchannels);
      buffer := new Channel(nchunks);
      freeList := new Channel(nchunks);
    }

    /**
     * The number of samples in every chunk of this run: at least one per
     * frame, and none exactly when a chunk holds no frame.
     */
    function ChunkLen(): (r: int)
      ensures nchannels > 0 ==> (r == 0 <==> framesPerChunk == 0)
      ensures nchannels > 0 && framesPerChunk > 0 ==> r >= framesPerChunk
    {
      framesPerChunk * nchannels
    }
  }

  /** Standard input: a finite sequence of samples and how many were read. */
  class Input {
    const data: seq<Sample>
    var pos: nat

    ghost predicate Valid()
      reads this
    {
      pos <= |data|
    }

    constructor (data: seq<Sample>)
      ensures Valid() && this.data == data && pos == 0
    {
      this.data := data;
      pos := 0;
    }
  }

  function Min(a: int, b: int): int
  {
    if a <= b then a else b
  }

  /**
   * Read up to one buffer's worth from `stdin` into `buf`. A read of
   * nothing fails and leaves the buffer alone; any other read succeeds and
   * the rest of the buffer is set to silence.
   */
  method Fill(buf: array<Sample>, stdin: Input) returns (ok: bool)
    requires stdin.Valid()
    modifies buf, stdin
    ensures stdin.Valid()
    ensures stdin.pos == old(stdin.pos) + Min(buf.Length, |stdin.data| - old(stdin.pos))
    ensures ok <==> stdin.pos > old(stdin.pos)
    ensures ok ==> buf[..] == Pad(stdin.data[old(stdin.pos)..stdin.pos], buf.Length)
    ensures !ok ==> buf[..] == old(buf[..])
  {
    var read := Min(buf.Length, |stdin.data| - stdin.pos);
    forall i | 0 <= i < read {
      buf[i] := stdin.data[stdin.pos + i];
    }
    stdin.pos := stdin.pos + read;
    if read == 0 {
      return false;
    }
    forall i | read <= i < buf.Length {
      buf[i] := Silence;
    }
    assert buf[..read] == stdin.data[old(stdin.pos)..stdin.pos];
    return true;
  }

  /**
   * One invocation of the audio callback for `nframes` frames scheduled to
   * leave the device at `dacTime`. With a chunk queued, its samples are
   * copied to `out`, it is stamped with `dacTime` and returned on
   * `freeList`, or abandoned when `freeList` is full; with none queued,
   * `out` is silenced. The stream is always told to continue.
   */
  method Callback(c: Config, out: array<Sample>, nframes: nat, dacTime: Time) returns (code: int)
    requires c.buffer.Valid() && c.freeList.Valid() && c.buffer != c.freeList
    requires out.Length == nframes * c.nchannels
    requires c.buffer.items != [] ==>
      var chunk := c.buffer.items[0];
      chunk.len == nframes * c.nchannels && chunk.buf.Length == chunk.len && chunk.buf != out
    modifies c.buffer, c.freeList, out
    modifies if c.buffer.items != [] then {c.buffer.items[0]} else {}
    ensures code == PaContinue
    ensures c.buffer.Valid() && c.freeList.Valid()
    ensures old(c.buffer.items) == [] ==>
      && out[..] == Zeros(out.Length)
      && c.buffer.items == [] && c.freeList.items == old(c.freeList.items)
    ensures old(c.buffer.items) != [] ==>
      var chunk := old(c.buffer.items[0]);
      && out[..] == chunk.buf[..] == old(chunk.buf[..])
      && chunk.outTime == dacTime
      && c.buffer.items == old(c.buffer.items[1..])
      && c.freeList.items == if |old(c.freeList.items)| < c.freeList.capacity
                             then old(c.freeList.items) + [chunk]
                             else old(c.freeList.items)
  {
    var r := c.buffer.Receive();
    if r.Some? {
      var chunk := r.value;
      forall i | 0 <= i < chunk.len {
        out[i] := chunk.buf[i];
      }
      chunk.outTime := dacTime;
      var _ := c.freeList.Send(chunk);
    } else {
      forall i | 0 <= i < nframes * c.nchannels {
        out[i] := Silence;
      }
    }
    code := PaContinue;
  }
}
