# spkr: the chunk handoff, modelled in Dafny

spkr plays interleaved 32-bit float PCM read from standard input. Two threads
share a fixed pool of sample buffers ("chunks"):

- the audio callback, called by the device driver once per output period;
- the main thread, which reads the input.

Chunks travel between them on two bounded FIFO queues. `buffer` carries filled
chunks to the callback. `free_list` carries played chunks back. The only shared
state is the two queues, and each thread acts through one queue operation at a
time. So the model is a sequential state machine, and every step of either
thread is one method:

- the prefill before the stream starts;
- the start;
- one callback;
- one attempt to reclaim a chunk;
- one refill of the reclaimed chunk;
- one drain attempt;
- one poll of the device clock.

The project has four modules:

- `Channels` (`channel.dfy`) is the bounded queue. It models only the contract
  spkr relies on: a fixed capacity, FIFO order, a send that fails without any
  change when the queue is full, and a receive that fails when it is empty.
- `Chunking` (`chunking.dfy`) says what a sequence of chunk reads yields.
  - `Split` is the chunks the input yields: full chunks, then one padded chunk.
  - `Flatten` is the samples those chunks play, one after the other.
- `Spkr` (`spkr.dfy`) holds the program's entities and its two buffer routines.
  - The entities are `Chunk`, `Config`, and standard input as a sequence of
    samples with a read position.
  - The routines are `Fill` (read into a chunk, padding with silence) and
    `Callback` (the audio callback, including its abandonment path).
- `Playback` (`player.dfy`) is the main thread's bookkeeping: the class
  `Player`, with one method per step.

`Player.Valid` is the capacity accounting:

- every chunk in circulation is owned by exactly one of `buffer`, `free_list`
  or the main thread;
- every chunk has `frames_per_chunk * nchannels` samples;
- there are `nchunks` chunks in circulation, never more than 16.

In addition:

- Ghost histories record every successful fill (`filled`) and every chunk
  played (`played`).
- The queued chunks hold exactly the fills not yet played, in fill order.
- The fills are the input read so far, cut into chunks.
- `Player.Stamped` tracks where the output time of the chunk played last is
  kept, so that the end-of-playback wait uses that time.

Consequences proved:

- No send ever fails, including the callback's return of a chunk: no chunk is
  ever abandoned.
- Once every chunk is back, the device has played the whole input in order,
  followed by less than one chunk of silence (`AllInputPlayed`).
- In the model, where times are reals, the program stops no earlier than the
  output time of the last chunk plus one chunk's duration. The code computes
  that end time in single precision (spkr.cc:188-189), which the model does
  not capture.

A channel count above `pagesize / 4` gives `frames_per_chunk == 0`. Every chunk
then has length zero, so the first read returns nothing, and the program returns
before starting the stream: nothing is played. The model keeps this path.

Two facts about the code that the model keeps:

- A short read does not end the input: the next read returns nothing, and
  that empty read ends it (spkr.cc:116-118).
- The drain watermark is the output time of the chunk reclaimed last
  (spkr.cc:169, 183). `Stamped` proves that it is the time of the chunk played
  last, without assuming that the device clock is monotonic.

## Model

| member | source | states |
|---|---|---|
| Chunking.Flatten | spkr.cc:81 | the samples the device plays from a sequence of chunks open with the first chunk |
| Chunking.Zeros | spkr.cc:85 | a silence buffer of `n` samples has length `n` and every sample is silence |
| Chunking.Pad | spkr.cc:120 | a chunk after a read of `s` starts with `s` and is silence from there to the chunk length |
| Chunking.Split | spkr.cc:115-122 | every chunk the input yields holds exactly one chunk length of samples |
| Chunking.SplitAppend | spkr.cc:115-122 | after whole chunks, one more non-empty read yields exactly one more chunk, the read padded with silence |
| Chunking.SplitRead | spkr.cc:116 | at a chunk boundary a read takes a full chunk or the rest of the input, whichever is shorter; it ends on the next boundary or at the end of the input, and appends one padded chunk |
| Chunking.SplitConcat | spkr.cc:146-176 | an input that starts with whole chunks yields those chunks first, in order, then what the rest yields |
| Chunking.SplitCount | spkr.cc:115-122 | an input of `n` samples yields `n / len` chunks, rounded up |
| Chunking.FlattenLength | spkr.cc:81 | chunks of `len` samples play for `len` samples each |
| Chunking.FlattenSplit | spkr.cc:81 | playing the chunks of an input back gives the input exactly, followed by fewer than one chunk of silence |
| Channels.Channel.constructor | spkr.cc:66 | a new queue is empty and has the given capacity |
| Channels.Channel.Send | spkr.cc:153 | a send succeeds exactly when the queue is not full; it then appends the item, and otherwise nothing changes |
| Channels.Channel.Receive | spkr.cc:79 | a receive fails exactly when the queue is empty; otherwise it returns the oldest item and removes it |
| Spkr.FramesPerChunk | spkr.cc:69 | with `C > 0` channels the frame count is `floor(pagesize / 4 / C)`; with `C < 0` the unsigned division gives 0 |
| Spkr.Config.ChunkLen | spkr.cc:51 | with a positive channel count a chunk holds no sample exactly when it holds no frame, and at least one sample per frame otherwise |
| Spkr.Chunk.constructor | spkr.cc:50-51 | a new chunk has length `frames_per_chunk * nchannels`, a fresh buffer of that length, and output time 0 |
| Spkr.Config.constructor | spkr.cc:65-70 | both queues are distinct, empty, with capacity `nchunks`; the frame count is computed from the page size and channel count |
| Spkr.Input.constructor | spkr.cc:125 | standard input starts unread |
| Spkr.Fill | spkr.cc:115-122 | a read takes `min(len, remaining)` samples; it fails exactly when it reads nothing, and then leaves the buffer alone; otherwise the buffer is the samples read followed by silence |
| Spkr.Callback | spkr.cc:73-88 | with a chunk queued: the output is its samples, it leaves `buffer`, is stamped with the output time, and joins `free_list` unless that is full, in which case it is abandoned; with none queued: the output is silence and both queues are unchanged; the result is always the continue code |
| Playback.OwnersPlay | spkr.cc:79-83 | moving the oldest queued chunk to the end of the free list keeps every buffer with one owner |
| Playback.OwnersTake | spkr.cc:165 | taking the oldest returned chunk, whether kept or discarded, keeps every buffer with one owner |
| Playback.OwnersRelease | spkr.cc:168-175 | sending or discarding the held chunk keeps every buffer with one owner |
| Playback.Player.constructor | spkr.cc:138-139 | sixteen chunks, empty queues, nothing read, phase preload; the accounting invariant holds |
| Playback.Player.FillAndSend | spkr.cc:148-154 | a fill succeeds exactly when input remains and chunks are non-empty; it then queues the chunk, whose contents are recorded as the next fill; the send cannot fail |
| Playback.Player.Prefill | spkr.cc:146-155 | after the prefill, the queue holds exactly the chunks filled, in fill order, and `nchunks` is their number; fewer than 16 only when the input ran out; every queued chunk and its buffer are newly allocated |
| Playback.Player.PrefillStep | spkr.cc:147-154 | one round allocates a new chunk with a new buffer; it succeeds exactly when input remains and chunks are non-empty, and then queues the chunk with its contents recorded as the next fill; otherwise the queue, the read position and the histories are unchanged |
| Playback.Player.PrefillCount | spkr.cc:146-155 | the prefill queues `min(16, number of chunks in the input)` chunks, and they are the first chunks of the input, in order |
| Playback.Player.Start | spkr.cc:156-160 | with no chunk filled the program returns without starting the stream; otherwise the stream starts; the invariant holds either way |
| Playback.Player.DeviceCallback | spkr.cc:73-88 | a callback while streaming outputs the next fill not yet played, stamps it, and always returns it to the free list; with nothing queued it outputs silence and changes nothing; the invariant holds |
| Playback.Player.PlayKeepsValid | spkr.cc:79-83 | one play of the oldest queued chunk keeps the accounting, the history and the stamps |
| Playback.Player.PlayKeepsHistory | spkr.cc:79-83 | after one play, the queued chunks still hold the fills not yet played, in order |
| Playback.Player.Reclaim | spkr.cc:165-167 | one attempt takes the oldest returned chunk into the main thread's hands exactly when the free list is non-empty; otherwise nothing changes |
| Playback.Player.Refill | spkr.cc:168-175 | if input remains, the held chunk is refilled and resent; otherwise it is discarded, `nchunks` drops by one, its output time becomes the last one, and the producer drains or waits |
| Playback.Player.RefillKeepsValid | spkr.cc:168-175 | sending or discarding the held chunk keeps the accounting and the stamps |
| Playback.Player.DrainStep | spkr.cc:178-186 | one attempt reclaims and discards the oldest returned chunk exactly when one is there, keeping its output time; the drain ends exactly when `nchunks` reaches 0 |
| Playback.Player.FilledIsPrefix | spkr.cc:146-176 | the fills so far are the first chunks of the whole input, in order, and all of them once the input is exhausted |
| Playback.Player.AllInputPlayed | spkr.cc:178-192 | once every chunk is back, the chunks played are exactly the chunks of the input, in order; their samples are the input followed by less than one chunk of silence |
| Playback.Player.WaitEnds | spkr.cc:163-186 | while the main thread waits on the free list, a chunk is queued or returned; with the free list empty, every chunk in circulation is queued for playback |
| Playback.Player.ChunkDuration | spkr.cc:188 | a chunk's duration times the sample rate is its frame count |
| Playback.Player.EndTime | spkr.cc:189 | the end time is the last output time plus one chunk's duration |
| Playback.Player.WaitForEnd | spkr.cc:190-192 | the wait ends exactly when the clock reaches the output time of the chunk played last plus one chunk's duration; the stream then stops |

## Left out

- PortAudio is not modelled: initialisation, opening, starting, stopping and
  closing the stream, and its error reporting (spkr.cc:141-144, 160,
  194-196). The driver is the caller of `DeviceCallback`. The stream clock is
  the `now` parameter of `WaitForEnd`.
- `Pa_Sleep` is a failed attempt (`Reclaim`, `DrainStep` or `WaitForEnd`
  returning false) after which the step is tried again.
- Real threads, interleaving inside a step and memory ordering are not
  modelled. Each queue operation and each callback is one atomic step. The
  callback can run between any two producer steps, including while the main
  thread holds a reclaimed chunk.
- The internals of `Channel` are not part of this model. Its library is not
  shown, so only its try-send/try-receive contract is modelled.
- Standard input is a finite sequence of samples consumed front to back.
  Bytes, a trailing partial float that `fread` drops, and read errors are not
  modelled.
- Samples are reals. They are only copied or set to silence.
- Times are reals. The single-precision rounding of `chunk_duration` and
  `end_time` (spkr.cc:188-189) is not modelled.
- Command-line parsing (`usage`, `parseInt`, `must`, spkr.cc:90-113,
  127-137) is not modelled; the channel count and sample rate are parameters.
- Playback.Player.constructor: requires a positive channel count and sample
  rate. Zero channels divides by zero at spkr.cc:69. The device open rejects
  the other values, and that path is part of PortAudio, which is not
  modelled. `Spkr.FramesPerChunk` still models negative channel counts.
- Playback.Player.DeviceCallback: requires `nframes == frames_per_chunk`. The
  stream is opened with that period (spkr.cc:143-144), and the assertion at
  spkr.cc:80 stops the program otherwise. The device's output buffer is
  assumed not to be a chunk buffer.
- `delete` is not modelled: a discarded chunk is dropped from the model.
