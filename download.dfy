/** The body of one download task of `sync`: report the file name and status, then stream
    the response body chunk by chunk into the file while a progress bar follows the running
    byte count. */
module Download {
  import opened Platform

  /** The progress bar: its length, its current position, whether it was finished, and
      (for the proofs) every position it was set to, in order. */
  class ProgressBar {
    var length: nat
    var position: nat
    var finished: bool
    ghost var trail: seq<nat>

    constructor (length: nat)
      ensures this.length == length && position == 0 && !finished && trail == []
    {
      this.length := length;
      position := 0;
      finished := false;
      trail := [];
    }

    method SetPosition(p: nat)
      modifies this
      ensures position == p && trail == old(trail) + [p]
      ensures length == old(length) && finished == old(finished)
    {
      position := p;
      trail := trail + [p];
    }

    method Finish()
      modifies this
      ensures finished
      ensures length == old(length) && position == old(position) && trail == old(trail)
    {
      finished := true;
    }
  }

  /** The buffered writer over the created file: what has been written to it so far. */
  class FileWriter {
    const name: string
    var contents: seq<byte>

    constructor (name: string)
      ensures this.name == name && contents == []
    {
      this.name := name;
      contents := [];
    }

    method WriteAll(data: seq<byte>)
      modifies this
      ensures contents == old(contents) + data
    {
      contents := contents + data;
    }
  }

  /** The number of chunks the stream yields before its first read error (all of them when
      there is none). */
  function Readable(body: seq<Chunk>): (n: nat)
    ensures n <= |body|
    ensures forall k :: 0 <= k < n ==> body[k].Data?
    ensures n < |body| ==> body[n].Failed?
  {
    if body == [] || body[0].Failed? then 0 else 1 + Readable(body[1..])
  }

  /** Whether the whole body can be read: no chunk is a read error. */
  predicate Completes(body: seq<Chunk>) {
    forall k :: 0 <= k < |body| ==> body[k].Data?
  }

  /** The bytes of a run of chunks, one after the other. */
  function Flatten(chunks: seq<Chunk>): seq<byte> {
    if chunks == [] then []
    else Flatten(chunks[..|chunks| - 1]) + (if chunks[|chunks| - 1].Data? then chunks[|chunks| - 1].bytes else [])
  }

  /** The sum of the chunk lengths, as the running counter adds them up. */
  function TotalLength(chunks: seq<Chunk>): nat {
    if chunks == [] then 0
    else TotalLength(chunks[..|chunks| - 1]) + (if chunks[|chunks| - 1].Data? then |chunks[|chunks| - 1].bytes| else 0)
  }

  /** The positions the bar is set to while `chunks` are written: the running total after each. */
  function Positions(chunks: seq<Chunk>): seq<nat> {
    if chunks == [] then [] else Positions(chunks[..|chunks| - 1]) + [TotalLength(chunks)]
  }

  /** The k-th position set is the total length of the first k + 1 chunks. */
  lemma {:induction false} PositionsAt(body: seq<Chunk>, n: nat)
    requires n <= |body|
    ensures |Positions(body[..n])| == n
    ensures forall k :: 0 <= k < n ==> Positions(body[..n])[k] == TotalLength(body[..k + 1])
  {
    if n > 0 {
      PositionsAt(body, n - 1);
      assert body[..n][..n - 1] == body[..n - 1];
    }
  }

  /** What a download task leaves in its file: the bytes of the chunks before the first
      read error. */
  function Written(body: seq<Chunk>): seq<byte> {
    Flatten(body[..Readable(body)])
  }

  /** The running counter always equals the number of bytes handed to the writer. */
  lemma {:induction false} FlattenLength(chunks: seq<Chunk>)
    ensures |Flatten(chunks)| == TotalLength(chunks)
  {
    if chunks != [] {
      FlattenLength(chunks[..|chunks| - 1]);
    }
  }

  /** Where the stream stops: at its end exactly when it has no read error. */
  lemma StopsAtReadable(body: seq<Chunk>, i: nat)
    requires i <= Readable(body) && (i == |body| || body[i].Failed?)
    ensures i == Readable(body)
    ensures i == |body| <==> Completes(body)
  {
  }

  /** One more readable chunk adds its bytes to the file and its length to the counter. */
  lemma StepChunk(body: seq<Chunk>, i: nat)
    requires i < |body| && body[i].Data?
    ensures Flatten(body[..i + 1]) == Flatten(body[..i]) + body[i].bytes
    ensures TotalLength(body[..i + 1]) == TotalLength(body[..i]) + |body[i].bytes|
    ensures Positions(body[..i + 1]) == Positions(body[..i]) + [TotalLength(body[..i + 1])]
  {
    assert body[..i + 1][..i] == body[..i];
  }

  /** The `while let` loop of a download task: each readable chunk advances the counter,
      moves the bar to it and goes to the writer; the loop ends at the stream's end or at
      its first read error. */
  method Stream(body: seq<Chunk>, pb: ProgressBar, writer: FileWriter) returns (i: nat, bytes: nat)
    requires pb.position == 0 && pb.trail == [] && writer.contents == []
    modifies pb, writer
    ensures i == Readable(body) && bytes == TotalLength(body[..i]) && pb.position == bytes
    ensures writer.contents == Flatten(body[..i]) && pb.trail == Positions(body[..i])
    ensures pb.length == old(pb.length) && pb.finished == old(pb.finished)
  {
    bytes := 0;
    i := 0;
    while i < |body| && body[i].Data?
      invariant i <= Readable(body)
      invariant bytes == TotalLength(body[..i]) && pb.position == bytes
      invariant writer.contents == Flatten(body[..i])
      invariant pb.trail == Positions(body[..i])
      invariant pb.length == old(pb.length) && pb.finished == old(pb.finished)
      decreases |body| - i
    {
      var chunk := body[i].bytes;
      StepChunk(body, i);
      bytes := bytes + |chunk|;
      pb.SetPosition(bytes);
      writer.WriteAll(chunk);
      i := i + 1;
    }
    StopsAtReadable(body, i);
  }

  /** One download task: print the name and status, create the file `name`, stream the body
      into it and finish the bar. A read error makes the task panic (the source unwraps the
      chunk): `completed` is then false, the bar is left unfinished and only the chunks before
      the error were written. */
  method Run(name: string, resp: Response)
    returns (line: Line, file: string, barLength: nat, written: seq<byte>, bytes: nat, position: nat,
             completed: bool, finished: bool, ghost positions: seq<nat>)
    ensures line == Line(Stdout, StatusReport(name, resp.status))
    ensures file == name
    ensures barLength == resp.contentLength.GetOr(0)
    ensures completed <==> Completes(resp.body)
    ensures written == Flatten(resp.body[..Readable(resp.body)])
    ensures bytes == TotalLength(resp.body[..Readable(resp.body)]) && bytes == |written| && position == bytes
    ensures |positions| == Readable(resp.body)
    ensures forall k :: 0 <= k < |positions| ==> positions[k] == TotalLength(resp.body[..k + 1])
    ensures finished == completed
  {
    line := Line(Stdout, StatusReport(name, resp.status));
    barLength := resp.contentLength.GetOr(0);
    var pb := new ProgressBar(barLength);
    var writer := new FileWriter(name);
    var i;
    i, bytes := Stream(resp.body, pb, writer);
    StopsAtReadable(resp.body, i);
    completed := i == |resp.body|;
    if completed {
      pb.Finish();
    }
    file := writer.name;
    written := writer.contents;
    position := pb.position;
    finished := pb.finished;
    positions := pb.trail;
    FlattenLength(resp.body[..i]);
    PositionsAt(resp.body, i);
  }
}
