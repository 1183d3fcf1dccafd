/** Reading one stored object at chosen offsets through a single open GET: the stream is reused for offsets a little
    ahead of it, replaced otherwise, and dropped after any failure.

    The network is an arbitrary script: any call may fail, and any read may be short or report an early end. */
module RangeReader {
  import opened Wrappers

  const SKIP_LIMIT := 256 * 1024
  const SKIP_CHUNK := 64 * 1024

  /** What the store does with one request: fail it, or deliver up to `n` bytes (for a GET, open the stream). */
  datatype Answer = Fails | Gives(n: nat)

  /** Requests to the store, answered by the script in the order they are made. */
  class Network {
    const script: nat -> Answer
    var calls: nat
    var gets: nat

    constructor (script: nat -> Answer)
      ensures this.script == script && calls == 0 && gets == 0
    {
      this.script := script;
      calls, gets := 0, 0;
    }

    method Next() returns (answer: Answer)
      modifies this`calls
      ensures calls == old(calls) + 1 && answer == script(old(calls))
    {
      answer, calls := script(calls), calls + 1;
    }

    /** A GET of `contents` from `offset`. */
    method Get(contents: Bytes, offset: nat) returns (body: Body?)
      modifies this
      ensures gets == old(gets) + 1
      ensures body != null ==> fresh(body) && offset <= |contents| && body.rest == contents[offset..]
      ensures body == null ==> |contents| < offset || !Willing(script)
    {
      gets := gets + 1;
      var answer := Next();
      if answer.Fails? || |contents| < offset { return null; }
      body := new Body(contents[offset..]);
    }
  }

  /** A script that never fails a request and never ends a stream early. */
  ghost predicate Willing(script: nat -> Answer) {
    forall i :: script(i).Gives? && script(i).n > 0
  }

  /** The body of an open GET: the bytes not yet read from it. */
  class Body {
    var rest: Bytes

    constructor (rest: Bytes)
      ensures this.rest == rest
    {
      this.rest := rest;
    }

    /** One read of at most `limit` bytes. None is a failed read, no bytes an end of stream. */
    method Read(network: Network, limit: nat) returns (chunk: Option<Bytes>)
      modifies this, network`calls
      ensures chunk.Some? ==> |chunk.value| <= limit && chunk.value + rest == old(rest)
      ensures Willing(network.script) && limit > 0 && old(rest) != [] ==> chunk.Some? && chunk.value != []
    {
      var answer := network.Next();
      if answer.Fails? { return None; }
      var n := if answer.n < limit then answer.n else limit;
      n := if n < |rest| then n else |rest|;
      chunk := Some(rest[..n]);
      rest := rest[n..];
    }
  }

  /** Fill `buffer` from the body, over as many short reads as it takes. After a failure the body is somewhere
      between where it was and where it should have been. */
  method ReadExact(network: Network, body: Body, buffer: array<Byte>) returns (ok: bool)
    modifies body, buffer, network`calls
    ensures ok ==> buffer.Length <= |old(body.rest)| && buffer[..] == old(body.rest)[..buffer.Length]
                   && body.rest == old(body.rest)[buffer.Length..]
    ensures !ok ==> |old(body.rest)| < buffer.Length || !Willing(network.script)
  {
    var filled := 0;
    while filled < buffer.Length
      invariant filled <= buffer.Length && filled <= |old(body.rest)|
      invariant buffer[..filled] == old(body.rest)[..filled] && body.rest == old(body.rest)[filled..]
    {
      var chunk := body.Read(network, buffer.Length - filled);
      if chunk.None? || chunk.value == [] { return false; }
      var got := chunk.value;
      assert old(body.rest)[filled..] == got + body.rest;
      forall i | 0 <= i < |got| { buffer[filled + i] := got[i]; }
      assert buffer[..filled + |got|] == buffer[..filled] + got;
      filled := filled + |got|;
    }
    assert buffer[..] == buffer[..filled];
    return true;
  }

  // ---- What a sequence of calls should have cost ----------------------------------------------

  /** A `read_at` and what it returned; None is an error. */
  datatype Call = Call(offset: nat, len: nat, result: Option<Bytes>)

  /** Calls answered without touching the store. */
  predicate Empty(size: nat, offset: nat, len: nat) {
    offset >= size || len == 0
  }

  function Wanted(size: nat, offset: nat, len: nat): nat {
    if Empty(size, offset, len) then 0 else if len < size - offset then len else size - offset
  }

  /** The result is the plain slice of the object, cut at `size`. */
  predicate IsSlice(contents: Bytes, size: nat, offset: nat, len: nat, bytes: Bytes) {
    && |bytes| == Wanted(size, offset, len)
    && (bytes != [] ==> offset + |bytes| <= |contents| && bytes == contents[offset..offset + |bytes|])
  }

  predicate AllSlices(contents: Bytes, size: nat, calls: seq<Call>) {
    forall i :: 0 <= i < |calls| && calls[i].result.Some? ==>
      IsSlice(contents, size, calls[i].offset, calls[i].len, calls[i].result.value)
  }

  /** Where the last read that went to the store ended, unless it failed or there was none. */
  function Position(size: nat, calls: seq<Call>): Option<nat> {
    if calls == [] then None
    else
      var last := calls[|calls| - 1];
      if Empty(size, last.offset, last.len) then Position(size, calls[..|calls| - 1])
      else if last.result.None? then None
      else Some(last.offset + Wanted(size, last.offset, last.len))
  }

  predicate Backward(position: Option<nat>, offset: nat) {
    position.Some? && offset < position.value
  }

  predicate FarForward(position: Option<nat>, offset: nat) {
    position.Some? && position.value + SKIP_LIMIT < offset
  }

  /** Reads that start before the last one ended, or more than the limit after it. */
  function Jumps(size: nat, calls: seq<Call>): nat {
    if calls == [] then 0
    else
      var before, last := calls[..|calls| - 1], calls[|calls| - 1];
      var position := Position(size, before);
      Jumps(size, before) + if Empty(size, last.offset, last.len) then 0
                            else if Backward(position, last.offset) || FarForward(position, last.offset) then 1
                            else 0
  }

  function Failures(calls: seq<Call>): nat {
    if calls == [] then 0
    else Failures(calls[..|calls| - 1]) + if calls[|calls| - 1].result.None? then 1 else 0
  }

  /** Each GET is paid for by the first read, a jump or an earlier failure; a failure not yet followed by a GET is
      the one outstanding credit. */
  ghost predicate Accounted(size: nat, calls: seq<Call>, gets: nat) {
    gets + (if Position(size, calls).None? then 1 else 0) == 1 + Jumps(size, calls) + Failures(calls)
  }

  lemma Appended(size: nat, calls: seq<Call>, call: Call)
    ensures var position, after := Position(size, calls), calls + [call];
      && Failures(after) == Failures(calls) + (if call.result.None? then 1 else 0)
      && if Empty(size, call.offset, call.len) then
           Position(size, after) == position && Jumps(size, after) == Jumps(size, calls)
         else
           && Position(size, after) == (if call.result.None? then None
                                        else Some(call.offset + Wanted(size, call.offset, call.len)))
           && Jumps(size, after) == Jumps(size, calls)
                + (if Backward(position, call.offset) || FarForward(position, call.offset) then 1 else 0)
  {
    var after := calls + [call];
    assert after[..|after| - 1] == calls;
  }

  /** Every GET is accounted for, every result was the slice asked for, and the last read ended at `position`. */
  ghost predicate Books(contents: Bytes, size: nat, calls: seq<Call>, gets: nat, position: Option<nat>) {
    Position(size, calls) == position && Accounted(size, calls, gets) && AllSlices(contents, size, calls)
  }

  /** The books stay balanced over one more call, which opened a GET unless it was empty or could go on reading. */
  lemma Recorded(contents: Bytes, size: nat, calls: seq<Call>, call: Call, before: nat, gets: nat, position: Option<nat>)
    requires Books(contents, size, calls, before, position)
    requires call.result.Some? ==> IsSlice(contents, size, call.offset, call.len, call.result.value)
    requires
      if Empty(size, call.offset, call.len) then call.result.Some? && gets == before
      else gets == before + if position.Some? && !Backward(position, call.offset) && !FarForward(position, call.offset)
                            then 0 else 1
    ensures Books(contents, size, calls + [call], gets,
                  if Empty(size, call.offset, call.len) then position
                  else if call.result.None? then None
                  else Some(call.offset + |call.result.value|))
  {
    Appended(size, calls, call);
  }

  // ---- The reader -----------------------------------------------------------------------------

  datatype OpenGet = OpenGet(pos: nat, body: Body)

  class Reader {
    const contents: Bytes
    const size: nat
    const network: Network
    var open: Option<OpenGet>
    /** Every call so far. */
    ghost var calls: seq<Call>

    /** The stream stands where its position says, and the books balance. */
    ghost predicate Valid()
      reads this, network, Streams(open)
    {
      && (open.Some? ==> Streaming(open.value, contents))
      && Books(contents, size, calls, network.gets, Standing(open))
    }

    /** An object that does not change while it is read, whatever size was announced for it. */
    constructor (contents: Bytes, size: nat, network: Network)
      requires network.gets == 0
      ensures Valid() && calls == [] && this.contents == contents && this.size == size && this.network == network
      ensures open == None
    {
      this.contents, this.size, this.network, open, calls := contents, size, network, None, [];
    }

    /** A stream at `offset`: the open one if it is at most `SKIP_LIMIT` behind, a new GET otherwise. */
    method OpenAt(offset: nat) returns (ok: bool)
      requires open.Some? ==> Streaming(open.value, contents)
      modifies this`open, network, Streams(open)
      ensures ok ==> open.Some? && Streaming(open.value, contents) && open.value.pos == offset
      ensures open.Some? ==> fresh(open.value.body) || (old(open.Some?) && open.value.body == old(open.value.body))
      ensures network.gets == old(network.gets) + if old(Reusable(open, offset)) then 0 else 1
      ensures !ok ==> |contents| < offset || !Willing(network.script)
    {
      if !Reusable(open, offset) {
        open := None;
        var body := network.Get(contents, offset);
        if body == null { return false; }
        open := Some(OpenGet(offset, body));
      }
      var body := open.value.body;
      while open.value.pos < offset
        invariant open.Some? && open.value.body == body && Streaming(open.value, contents) && open.value.pos <= offset
        invariant network.gets == old(network.gets) + if old(Reusable(open, offset)) then 0 else 1
        decreases offset - open.value.pos
      {
        var left := offset - open.value.pos;
        var sink := new Byte[if left < SKIP_CHUNK then left else SKIP_CHUNK];
        var filled := ReadExact(network, body, sink);
        if !filled { return false; }
        open := Some(OpenGet(open.value.pos + sink.Length, body));
      }
      return true;
    }

    /** `read_at`: the bytes, or an error that leaves no stream open. */
    method ReadAt(offset: nat, len: nat) returns (result: Option<Bytes>)
      requires Valid()
      modifies this`open, this`calls, network, Streams(open)
      ensures Valid() && calls == old(calls) + [Call(offset, len, result)]
      ensures open.Some? ==> fresh(open.value.body) || (old(open.Some?) && open.value.body == old(open.value.body))
      ensures result.Some? ==> IsSlice(contents, size, offset, len, result.value)
      ensures size <= |contents| && Willing(network.script) ==> result.Some?
    {
      result := Answered(offset, len);
      Recorded(contents, size, calls, Call(offset, len, result), old(network.gets), network.gets, old(Standing(open)));
      calls := calls + [Call(offset, len, result)];
    }

    /** The answer, and the stream it leaves: where it was, past what was read, or none. */
    method Answered(offset: nat, len: nat) returns (result: Option<Bytes>)
      requires open.Some? ==> Streaming(open.value, contents)
      modifies this`open, network, Streams(open)
      ensures open.Some? ==> Streaming(open.value, contents)
      ensures open.Some? ==> fresh(open.value.body) || (old(open.Some?) && open.value.body == old(open.value.body))
      ensures result.Some? ==> IsSlice(contents, size, offset, len, result.value)
      ensures if Empty(size, offset, len) then result.Some? && open == old(open) && network.gets == old(network.gets)
              else && Standing(open) == (if result.Some? then Some(offset + |result.value|) else None)
                   && network.gets == old(network.gets) + if old(Reusable(open, offset)) then 0 else 1
      ensures size <= |contents| && Willing(network.script) ==> result.Some?
    {
      if Empty(size, offset, len) { return Some([]); }
      result := Fetch(offset, Wanted(size, offset, len));
      if result.None? { open := None; }
    }

    method Fetch(offset: nat, len: nat) returns (result: Option<Bytes>)
      requires open.Some? ==> Streaming(open.value, contents)
      modifies this`open, network, Streams(open)
      ensures result.Some? ==>
        && open.Some? && Streaming(open.value, contents) && open.value.pos == offset + len
        && offset + len <= |contents| && result.value == contents[offset..offset + len]
      ensures open.Some? ==> fresh(open.value.body) || (old(open.Some?) && open.value.body == old(open.value.body))
      ensures network.gets == old(network.gets) + if old(Reusable(open, offset)) then 0 else 1
      ensures result.None? ==> |contents| < offset + len || !Willing(network.script)
    {
      var ready := OpenAt(offset);
      if !ready { return None; }
      var body := open.value.body;
      var buffer := new Byte[len];
      var filled := ReadExact(network, body, buffer);
      if !filled { return None; }
      open := Some(OpenGet(offset + len, body));
      return Some(buffer[..]);
    }
  }

  function Streams(open: Option<OpenGet>): set<object> {
    if open.Some? then {open.value.body} else {}
  }

  function Standing(open: Option<OpenGet>): Option<nat> { if open.Some? then Some(open.value.pos) else None }

  ghost predicate Streaming(open: OpenGet, contents: Bytes)
    reads open.body
  {
    open.pos <= |contents| && open.body.rest == contents[open.pos..]
  }

  predicate Reusable(open: Option<OpenGet>, offset: nat) {
    open.Some? && open.value.pos <= offset && offset - open.value.pos <= SKIP_LIMIT
  }

  // ---- What a whole run of calls costs --------------------------------------------------------

  /** Reads in order, none failing and none skipping more than the limit. */
  ghost predicate Sequential(size: nat, calls: seq<Call>) {
    forall i :: 0 <= i < |calls| ==>
      && calls[i].result.Some?
      && (Empty(size, calls[i].offset, calls[i].len) ||
          var position := Position(size, calls[..i]);
          !Backward(position, calls[i].offset) && !FarForward(position, calls[i].offset))
  }

  lemma {:induction false} SequentialCosts(size: nat, calls: seq<Call>)
    requires Sequential(size, calls)
    ensures Jumps(size, calls) == 0 && Failures(calls) == 0
  {
    if calls != [] {
      var before := calls[..|calls| - 1];
      assert forall i :: 0 <= i < |before| ==> before[i] == calls[i] && before[..i] == calls[..i];
      SequentialCosts(size, before);
    }
  }

  /** However the calls went, the GETs opened are at most one more than the jumps and failures; reading straight
      through takes one at most. */
  lemma GetsBounded(reader: Reader)
    requires reader.Valid()
    ensures reader.network.gets <= 1 + Jumps(reader.size, reader.calls) + Failures(reader.calls)
    ensures Sequential(reader.size, reader.calls) ==> reader.network.gets <= 1
  {
    if Sequential(reader.size, reader.calls) {
      SequentialCosts(reader.size, reader.calls);
    }
  }
}
