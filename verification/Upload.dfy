/** The resumable upload: the client's loop against the server's upload session, over a network
    that may cut a chunk short, lose a reply, fail a re-read of the session's offset, or let the
    re-read overtake what the server still writes. */
module Upload {
  import opened Wrappers

  type Byte = bv8

  const CHUNK_SIZE: nat := 5 * 1024 * 1024

  const MAX_CHUNK_ATTEMPTS: nat := 3

  /** The server drops a shorter beginning. */
  const MIN_FIRST_PART: nat := 5 * 1024 * 1024

  /** What the network does in one turn of the loop: how many bytes of the chunk arrive, whether
      the reply is lost, whether re-reading the session fails, whether it comes before the server
      has written what arrived, and whether the server fails to turn a fully stored upload into a
      file. While the server still writes, it refuses other chunks of the session: such a turn is
      one in which nothing arrives, and the one in which the write ends has the same chunk. */
  datatype Weather = Weather(arrives: nat, replyLost: bool, readFails: bool, late: bool, finishFails: bool)

  datatype Reply = Failed | Incomplete | Completed

  /** The server's side; `done` is a finished session, which is gone. */
  datatype Session = Session(size: nat, stored: seq<Byte>, done: bool)

  /** How much of the chunk the server adds to what it has. */
  function Taken(s: Session, chunk: seq<Byte>, w: Weather): (n: nat)
    ensures n <= |chunk| && (n > 0 ==> !s.done && |s.stored| + |chunk| <= s.size)
  {
    if s.done || |chunk| + |s.stored| > s.size then 0
    else
      var arrived := if w.arrives < |chunk| then w.arrives else |chunk|;
      if s.stored == [] && arrived < MIN_FIRST_PART && arrived != s.size then 0 else arrived
  }

  /** A POST of a chunk: it carries no offset, the server appends at its own. */
  function Post(s: Session, chunk: seq<Byte>, w: Weather): (Session, Reply) {
    if s.done || |chunk| + |s.stored| > s.size then (s, Failed)
    else
      var n := Taken(s, chunk, w);
      var stored := s.stored + chunk[..n];
      if n < |chunk| then (s.(stored := stored), Failed)
      else
        var full := |stored| == s.size;
        (s.(stored := stored, done := full && !w.finishFails),
         if w.replyLost || (full && w.finishFails) then Failed else if full then Completed else Incomplete)
  }

  /** A GET of the session, which the chunk just sent finds as `before` and leaves as `after`. */
  function ReadOffset(before: Session, after: Session, w: Weather): Option<nat> {
    var s := if w.late then before else after;
    if s.done || w.readFails then None else Some(|s.stored|)
  }

  /** Both sides between two turns of the loop. */
  datatype Progress = Progress(session: Session, offset: nat, attempt: nat, info: bool, gaveUp: bool)

  predicate Sane(file: seq<Byte>, p: Progress) {
    && p.session.size == |file|
    && p.offset <= |p.session.stored| <= |file|
    && p.attempt < MAX_CHUNK_ATTEMPTS
  }

  predicate Going(file: seq<Byte>, p: Progress) { p.offset < |file| && !p.info && !p.gaveUp }

  function Chunk(file: seq<Byte>, offset: nat): (c: seq<Byte>)
    requires offset <= |file|
    ensures offset < |file| ==> 0 < |c| <= CHUNK_SIZE
  {
    file[offset..if offset + CHUNK_SIZE < |file| then offset + CHUNK_SIZE else |file|]
  }

  /** One turn of the loop. */
  function Turn(file: seq<Byte>, p: Progress, w: Weather): (p': Progress)
    requires Sane(file, p) && Going(file, p)
    ensures Sane(file, p')
    ensures p'.offset > p.offset || (p'.offset == p.offset && (p'.attempt == p.attempt + 1 || p'.gaveUp))
  {
    var chunk := Chunk(file, p.offset);
    var (session, reply) := Post(p.session, chunk, w);
    if reply != Failed then
      Progress(session, p.offset + |chunk|, 0, reply == Completed, false)
    else if p.attempt + 1 >= MAX_CHUNK_ATTEMPTS then
      p.(session := session, gaveUp := true)
    else
      match ReadOffset(p.session, session, w)
      case None => p.(session := session, attempt := p.attempt + 1)
      case Some(at) =>
        p.(session := session, offset := at, attempt := if at > p.offset then 0 else p.attempt + 1)
  }

  /** The loop from turn i on; it ends whatever the network does. */
  function Run(file: seq<Byte>, p: Progress, net: nat -> Weather, i: nat): (q: Progress)
    requires Sane(file, p)
    ensures Sane(file, q) && !Going(file, q)
    decreases |file| - p.offset, !p.gaveUp, MAX_CHUNK_ATTEMPTS - p.attempt
  {
    if !Going(file, p) then p else Run(file, Turn(file, p, net(i)), net, i + 1)
  }

  function Start(file: seq<Byte>): Progress { Progress(Session(|file|, [], false), 0, 0, false, false) }

  // ------------------------------------------------------------------ correctness

  /** The server has a beginning of the file and the client stands at its end, except that a
      finished session whose last reply was lost leaves the client behind. */
  predicate Aligned(file: seq<Byte>, p: Progress) {
    && p.session.stored <= file
    && (p.session.done ==> p.session.stored == file)
    && (p.info ==> p.session.done)
    && (p.offset == |p.session.stored| || p.session.done)
  }

  /** The server keeps part of a chunk or all of it, and the client learns neither that nor the new
      offset. */
  predicate Blind(file: seq<Byte>, p: Progress, w: Weather)
    requires Sane(file, p) && Going(file, p)
  {
    var (session, reply) := Post(p.session, Chunk(file, p.offset), w);
    && reply == Failed && session.stored != p.session.stored && !session.done
    && p.attempt + 1 < MAX_CHUNK_ATTEMPTS && (w.readFails || w.late)
  }

  /** The last attempt: whatever the server keeps, the loop is over. */
  predicate LastAttempt(file: seq<Byte>, p: Progress, w: Weather)
    requires Sane(file, p) && Going(file, p)
  {
    p.attempt + 1 >= MAX_CHUNK_ATTEMPTS && Post(p.session, Chunk(file, p.offset), w).1 == Failed
  }

  /** While client and server are aligned, the chunk about to be sent starts at the server's
      offset, and a turn keeps them so exactly when it is not blind. */
  lemma TurnKeepsAlignedIff(file: seq<Byte>, p: Progress, w: Weather)
    requires Sane(file, p) && Going(file, p) && Aligned(file, p) && !LastAttempt(file, p, w)
    ensures !p.session.done ==> p.offset == |p.session.stored|
    ensures Aligned(file, Turn(file, p, w)) <==> !Blind(file, p, w)
  {
    var chunk := Chunk(file, p.offset);
    var n := Taken(p.session, chunk, w);
    if !p.session.done {
      assert p.session.stored + chunk[..n] == file[..p.offset + n];
    }
  }

  /** No turn of the run is blind. */
  predicate NeverBlind(file: seq<Byte>, p: Progress, net: nat -> Weather, i: nat)
    requires Sane(file, p)
    decreases |file| - p.offset, !p.gaveUp, MAX_CHUNK_ATTEMPTS - p.attempt
  {
    Going(file, p) ==> !Blind(file, p, net(i)) && NeverBlind(file, Turn(file, p, net(i)), net, i + 1)
  }

  /** On a run with no blind turn a result means that the server stored exactly the file. */
  lemma {:induction false} ResultMeansStored(file: seq<Byte>, p: Progress, net: nat -> Weather, i: nat)
    requires Sane(file, p) && Aligned(file, p) && NeverBlind(file, p, net, i)
    ensures Run(file, p, net, i).info ==> Run(file, p, net, i).session.stored == file
    decreases |file| - p.offset, !p.gaveUp, MAX_CHUNK_ATTEMPTS - p.attempt
  {
    if Going(file, p) {
      var w := net(i);
      if LastAttempt(file, p, w) {
        assert Turn(file, p, w).gaveUp && !Turn(file, p, w).info;
      } else {
        TurnKeepsAlignedIff(file, p, w);
        ResultMeansStored(file, Turn(file, p, w), net, i + 1);
      }
    }
  }

  /** When the reply to the last chunk is lost, the upload ends without a result although the
      server has the whole file: the session is gone, so every retry and re-read fails. */
  lemma {:induction false} LostLastReplyIsFatal(file: seq<Byte>, p: Progress, net: nat -> Weather, i: nat)
    requires Sane(file, p) && p.session.done && !p.info
    ensures !Run(file, p, net, i).info && Run(file, p, net, i).session == p.session
    decreases |file| - p.offset, !p.gaveUp, MAX_CHUNK_ATTEMPTS - p.attempt
  {
    if Going(file, p) {
      LostLastReplyIsFatal(file, Turn(file, p, net(i)), net, i + 1);
    }
  }

  /** What a turn does to the server: it appends the bytes of the chunk that arrive, unless its
      session is finished, the chunk goes beyond the size, or a beginning is too short; and the
      session is finished exactly when that fills it and the file can be made. */
  lemma TurnStores(file: seq<Byte>, p: Progress, w: Weather)
    requires Sane(file, p) && Going(file, p)
    ensures var s, s', chunk := p.session, Turn(file, p, w).session, Chunk(file, p.offset);
      var n := if w.arrives < |chunk| then w.arrives else |chunk|;
      && s'.stored == s.stored + (if Fits(s, chunk, n) then chunk[..n] else [])
      && (s'.done <==> s.done || (Fits(s, chunk, n) && |s'.stored| == s.size && !w.finishFails))
  {
    var chunk := Chunk(file, p.offset);
    assert chunk[..|chunk|] == chunk;
  }

  predicate Fits(s: Session, chunk: seq<Byte>, n: nat) {
    && !s.done && |s.stored| + |chunk| <= s.size
    && (s.stored != [] || n >= MIN_FIRST_PART || n == s.size)
  }

  /** The network cuts chunks short but does nothing worse, and one of any three turns from i on gets
      through, the next one among them after `bad` that have not. */
  ghost predicate Passable(net: nat -> Weather, i: nat, bad: nat) {
    && (forall k :: k >= i ==> !net(k).readFails && !net(k).late && !net(k).finishFails)
    && (forall k :: k >= i ==> GetsThrough(net(k)) || GetsThrough(net(k + 1)) || GetsThrough(net(k + 2)))
    && (bad >= 1 ==> GetsThrough(net(i)) || GetsThrough(net(i + 1)))
    && (bad >= 2 ==> GetsThrough(net(i)))
  }

  predicate GetsThrough(w: Weather) { w.arrives >= CHUNK_SIZE && !w.replyLost }

  /** What upload sessions are for: over a network that lets one of any three chunks through and the
      offset be re-read, every upload ends with the whole file stored, from any point at which both
      sides are aligned; and with a result, unless a reply is lost. */
  lemma {:induction false} ResumesAfterFailures(file: seq<Byte>, p: Progress, net: nat -> Weather, i: nat, bad: nat)
    requires Sane(file, p) && Aligned(file, p) && Going(file, p) && !p.session.done
    requires Passable(net, i, bad) && p.attempt <= bad <= 2
    ensures var q := Run(file, p, net, i);
      && q.session == Session(|file|, file, true)
      && ((forall k :: k >= i ==> !net(k).replyLost) ==> q.info)
    decreases |file| - p.offset, !p.gaveUp, MAX_CHUNK_ATTEMPTS - p.attempt
  {
    var w := net(i);
    var p' := Turn(file, p, w);
    var bad' := if GetsThrough(w) then 0 else bad + 1;
    PassableOn(net, i, bad);
    PassableTurn(file, p, w, bad);
    assert Run(file, p, net, i) == Run(file, p', net, i + 1);
    hide Turn, Passable, Aligned;
    if !p'.session.done {
      ResumesAfterFailures(file, p', net, i + 1, bad');
    } else if !p'.info {
      LostLastReplyIsFatal(file, p', net, i + 1);
    }
  }

  lemma PassableOn(net: nat -> Weather, i: nat, bad: nat)
    requires Passable(net, i, bad) && bad <= 2
    ensures GetsThrough(net(i)) ==> Passable(net, i + 1, 0)
    ensures !GetsThrough(net(i)) ==> bad < 2 && Passable(net, i + 1, bad + 1)
    ensures !net(i).readFails && !net(i).late && !net(i).finishFails
  {
  }

  lemma PassableTurn(file: seq<Byte>, p: Progress, w: Weather, bad: nat)
    requires Sane(file, p) && Aligned(file, p) && Going(file, p) && !p.session.done
    requires !w.readFails && !w.late && !w.finishFails && p.attempt <= bad <= (if GetsThrough(w) then 2 else 1)
    ensures var p' := Turn(file, p, w);
      && Aligned(file, p')
      && (!p'.session.done ==> Going(file, p') && p'.attempt <= if GetsThrough(w) then 0 else bad + 1)
      && (p'.session.done ==> p'.session == Session(|file|, file, true) && (p'.info || w.replyLost))
  {
    TurnKeepsAlignedIff(file, p, w);
  }

  const CALM := Weather(CHUNK_SIZE, false, false, false, false)

  /** The second chunk is cut after one byte, and the session cannot be re-read, or is re-read
      before that byte is written. */
  function OneCut(late: bool): nat -> Weather { i => if i == 1 then Weather(1, false, !late, late, false) else CALM }

  /** A chunk that goes through. */
  lemma WholeChunk(file: seq<Byte>, p: Progress, chunk: seq<Byte>)
    requires Sane(file, p) && Going(file, p) && !p.session.done && Chunk(file, p.offset) == chunk
    requires |p.session.stored| + |chunk| <= |file| && (p.session.stored == [] ==> |chunk| >= MIN_FIRST_PART)
    ensures var stored := p.session.stored + chunk;
      Turn(file, p, CALM) ==
      Progress(Session(|file|, stored, |stored| == |file|), p.offset + |chunk|, 0, |stored| == |file|, false)
  {
    assert chunk[..|chunk|] == chunk;
  }

  /** A chunk cut after one byte, without a re-read that tells. */
  lemma OneByte(file: seq<Byte>, p: Progress, cut: seq<Byte>, late: bool)
    requires Sane(file, p) && Going(file, p) && !p.session.done && p.attempt == 0 && p.session.stored != []
    requires p.offset == |p.session.stored|
    requires p.offset + CHUNK_SIZE <= |file| && |p.session.stored| + CHUNK_SIZE <= |file|
    requires cut == p.session.stored + file[p.offset..p.offset + 1]
    ensures Turn(file, p, OneCut(late)(1)) == p.(session := Session(|file|, cut, false), attempt := 1)
  {
    assert Chunk(file, p.offset)[..1] == file[p.offset..p.offset + 1];
  }

  /** A chunk beyond the end is refused, and the client re-reads the offset. */
  lemma NothingTaken(file: seq<Byte>, p: Progress)
    requires Sane(file, p) && Going(file, p) && !p.session.done && p.attempt == 0
    requires p.offset + CHUNK_SIZE <= |file| < |p.session.stored| + CHUNK_SIZE
    ensures var at := |p.session.stored|;
      at > p.offset && Turn(file, p, CALM) == p.(offset := at, attempt := 0)
  {
  }

  /** One blind turn is enough: for every file of three chunks whose second chunk does not begin
      with two equal bytes there is a run that returns a result for a file the server has not, be
      it that the re-read fails or that it comes too early. */
  lemma BlindTurnCorrupts(file: seq<Byte>, late: bool)
    requires |file| == 3 * CHUNK_SIZE && file[CHUNK_SIZE] != file[CHUNK_SIZE + 1]
    ensures var q := Run(file, Start(file), OneCut(late), 0);
      q.info && q.session.stored != file
  {
    var c, size := CHUNK_SIZE, |file|;
    var p0 := Start(file);
    var p1 := Progress(Session(size, file[..c], false), c, 0, false, false);
    WholeChunk(file, p0, file[..c]);
    var cut := file[..c] + file[c..c + 1];
    var p2 := Progress(Session(size, cut, false), c, 1, false, false);
    OneByte(file, p1, cut, late);
    var twice := cut + file[c..2 * c];
    var p3 := Progress(Session(size, twice, false), 2 * c, 0, false, false);
    WholeChunk(file, p2, file[c..2 * c]);
    var p4 := Progress(Session(size, twice, false), 2 * c + 1, 0, false, false);
    NothingTaken(file, p3);
    var all := twice + file[2 * c + 1..3 * c];
    var p5 := Progress(Session(size, all, true), 3 * c, 0, true, false);
    WholeChunk(file, p4, file[2 * c + 1..3 * c]);
    assert all[c + 1] == file[c];
    hide Turn, OneCut, Chunk, CALM;
    FiveTurns(file, OneCut(late), p0, p1, p2, p3, p4, p5);
  }

  lemma FiveTurns(file: seq<Byte>, net: nat -> Weather, p0: Progress, p1: Progress, p2: Progress, p3: Progress,
                  p4: Progress, p5: Progress)
    requires Sane(file, p0) && Going(file, p0) && Turn(file, p0, net(0)) == p1
    requires Going(file, p1) && Turn(file, p1, net(1)) == p2
    requires Going(file, p2) && Turn(file, p2, net(2)) == p3
    requires Going(file, p3) && Turn(file, p3, net(3)) == p4
    requires Going(file, p4) && Turn(file, p4, net(4)) == p5
    requires !Going(file, p5)
    ensures Run(file, p0, net, 0) == p5
  {
    hide Turn, Going;
    assert Run(file, p5, net, 5) == p5;
    assert Run(file, p4, net, 4) == p5;
    assert Run(file, p3, net, 3) == p5;
    assert Run(file, p2, net, 2) == p5;
    assert Run(file, p1, net, 1) == p5;
  }

  // -------------------------------------------------------------------- the method

  class Server {
    const size: nat
    var stored: seq<Byte>
    var done: bool

    function State(): Session
      reads this
    {
      Session(size, stored, done)
    }

    constructor (n: nat)
      ensures State() == Session(n, [], false)
    {
      size, stored, done := n, [], false;
    }

    method Upload(chunk: seq<Byte>, w: Weather) returns (reply: Reply)
      modifies this
      ensures (State(), reply) == Post(old(State()), chunk, w)
    {
      if done || |chunk| > size - |stored| { return Failed; }
      var n := if w.arrives < |chunk| then w.arrives else |chunk|;
      if |stored| == 0 && n < MIN_FIRST_PART && n != size {
        n := 0;
      }
      stored := stored + chunk[..n];
      if n < |chunk| { return Failed; }
      if |stored| != size { return if w.replyLost then Failed else Incomplete; }
      if w.finishFails { return Failed; }
      done := true;
      return if w.replyLost then Failed else Completed;
    }
  }

  /** uploadViaSession after it has created the session; its result tells whether it returns a
      file or throws. */
  method UploadViaSession(file: seq<Byte>, server: Server, net: nat -> Weather) returns (info: bool)
    requires server.State() == Session(|file|, [], false)
    modifies server
    ensures var q := Run(file, Start(file), net, 0);
      info == q.info && server.State() == q.session
    ensures NeverBlind(file, Start(file), net, 0) && info ==> server.stored == file
  {
    if NeverBlind(file, Start(file), net, 0) {
      ResultMeansStored(file, Start(file), net, 0);
    }
    hide Turn, NeverBlind, Aligned;
    var offset, attempt, turn := 0, 0, 0;
    var gaveUp := false;
    info := false;
    while offset < |file| && !info && !gaveUp
      invariant Sane(file, Progress(server.State(), offset, attempt, info, gaveUp))
      invariant Run(file, Progress(server.State(), offset, attempt, info, gaveUp), net, turn) == Run(file, Start(file), net, 0)
      decreases |file| - offset, !gaveUp, MAX_CHUNK_ATTEMPTS - attempt
    {
      ghost var p := Progress(server.State(), offset, attempt, info, gaveUp);
      offset, attempt, info, gaveUp := OneTurn(file, server, offset, attempt, net(turn));
      assert Run(file, p, net, turn) == Run(file, Turn(file, p, net(turn)), net, turn + 1);
      turn := turn + 1;
    }
  }

  /** The body of the loop; giving up stands for throwing. */
  method OneTurn(file: seq<Byte>, server: Server, offset: nat, attempt: nat, w: Weather)
    returns (offset': nat, attempt': nat, info: bool, gaveUp: bool)
    requires Sane(file, Progress(server.State(), offset, attempt, false, false)) && offset < |file|
    modifies server
    ensures Progress(server.State(), offset', attempt', info, gaveUp)
         == Turn(file, Progress(old(server.State()), offset, attempt, false, false), w)
  {
    offset', attempt', info, gaveUp := offset, attempt, false, false;
    var chunk, before := Chunk(file, offset), server.State();
    var reply := server.Upload(chunk, w);
    if reply != Failed {
      info := reply == Completed;
      offset' := offset + |chunk|;
      attempt' := 0;
      return;
    }
    attempt' := attempt' + 1;
    if attempt' >= MAX_CHUNK_ATTEMPTS {
      attempt' := attempt;
      gaveUp := true;
      return;
    }
    var answer := ReadOffset(before, server.State(), w);
    if answer.Some? {
      if answer.value > offset {
        attempt' := 0;
      }
      offset' := answer.value;
    }
  }
}
