/** Resumable download: a temp file and a source marker, retried and resumed, then moved into place over the old file. */
module Download {
  import opened Common

  type Url = string
  type Bytes = seq<int>

  const DOWNLOAD_ATTEMPTS := 4

  /** What each source serves; it does not change while a download is in progress. */
  type Content = Url -> Bytes

  predicate IsPrefix(a: Bytes, b: Bytes)
  {
    |a| <= |b| && b[..|a|] == a
  }

  // ---- The server's answers ----

  /** A response with the chunks that arrive and whether the transfer finishes. */
  datatype Response =
    | SendError
    | Rejected
    | Full(length: Option<nat>, chunks: seq<Bytes>, finishes: bool)
    | Partial(total: Option<nat>, chunks: seq<Bytes>, finishes: bool)

  predicate Delivers(chunks: seq<Bytes>, finishes: bool, body: Bytes)
  {
    IsPrefix(Concat(chunks), body) && (finishes ==> Concat(chunks) == body)
  }

  /**
   An honest answer to a request for u from byte `start` on: a full response carries the content, a partial
   one answers a range request with the rest of it, and stated sizes are those of the content (sections
   14.2, 14.4 and 15.3.7 of RFC 9110).
   */
  predicate Honest(content: Content, u: Url, start: nat, r: Response)
  {
    match r
    case SendError => true
    case Rejected => true
    case Full(length, chunks, finishes) =>
      (length.Some? ==> length.value == |content(u)|) && Delivers(chunks, finishes, content(u))
    case Partial(total, chunks, finishes) =>
      && 0 < start <= |content(u)| && (total.Some? ==> total.value == |content(u)|)
      && Delivers(chunks, finishes, content(u)[start..])
  }

  /** response_total_size. */
  function TotalSize(r: Response, resumeFrom: nat): Option<nat>
  {
    match r
    case Partial(total, _, _) => total
    case Full(length, _, _) => if length.Some? then Some(length.value + resumeFrom) else None
    case _ => None
  }

  /** Everything outside the program that one attempt meets. */
  datatype Attempt = Attempt(respond: (Url, nat) -> Response, removesTmp: bool, removesMarker: bool, opens: bool, marks: bool)

  ghost predicate AllHonest(content: Content, env: nat -> Attempt)
  {
    forall k: nat, u: Url, start: nat :: Honest(content, u, start, env(k).respond(u, start))
  }

  // ---- Choosing a source ----

  datatype Opened = Opened(response: Response, resumed: bool, url: Url)

  /** The response may be used: its size is the declared one, and it carries content. */
  predicate Usable(r: Response, resumeFrom: nat, expected: nat)
  {
    (r.Full? || r.Partial?) && (expected > 0 ==> TotalSize(r, resumeFrom) == Some(expected))
  }

  /** While resuming, only the source of the bytes at hand is asked. */
  predicate Allowed(u: Url, resumeFrom: nat, resumeSource: Option<Url>)
  {
    resumeFrom > 0 && resumeSource.Some? ==> u == resumeSource.value
  }

  /** The first candidate that may be asked and whose response is usable. */
  function Choose(candidates: seq<Url>, respond: (Url, nat) -> Response, resumeFrom: nat, expected: nat, source: Option<Url>): (r: Option<Opened>)
    ensures r.Some? ==> r.value.url in candidates && r.value.response == respond(r.value.url, resumeFrom)
    ensures r.Some? ==> Usable(r.value.response, resumeFrom, expected) && Allowed(r.value.url, resumeFrom, source)
    ensures r.Some? ==> (r.value.resumed <==> resumeFrom > 0 && r.value.response.Partial?)
    ensures r.None? <==> forall u :: u in candidates && Allowed(u, resumeFrom, source) ==> !Usable(respond(u, resumeFrom), resumeFrom, expected)
  {
    if candidates == [] then None
    else
      var u := candidates[0];
      var response := respond(u, resumeFrom);
      if Allowed(u, resumeFrom, source) && Usable(response, resumeFrom, expected)
      then Some(Opened(response, resumeFrom > 0 && response.Partial?, u))
      else Choose(candidates[1..], respond, resumeFrom, expected, source)
  }

  /** open_agent_download_response: the first usable candidate; while resuming only the source of the bytes at hand. */
  method OpenResponse(candidates: seq<Url>, respond: (Url, nat) -> Response, resumeFrom: nat, expected: nat, resumeSource: Option<Url>)
    returns (r: Option<Opened>)
    ensures r == Choose(candidates, respond, resumeFrom, expected, resumeSource)
  {
    var i := 0;
    while i < |candidates|
      invariant 0 <= i <= |candidates|
      invariant Choose(candidates, respond, resumeFrom, expected, resumeSource) == Choose(candidates[i..], respond, resumeFrom, expected, resumeSource)
    {
      var u := candidates[i];
      i := i + 1;
      if resumeFrom > 0 && resumeSource.Some? && resumeSource.value != u {
        continue;
      }
      var resp := respond(u, resumeFrom);
      if resp.SendError? {
        continue;
      }
      if expected > 0 && TotalSize(resp, resumeFrom) != Some(expected) {
        continue;
      }
      if resumeFrom > 0 && resp.Partial? {
        return Some(Opened(resp, true, u));
      }
      if resp.Full? || resp.Partial? {
        return Some(Opened(resp, false, u));
      }
    }
    return None;
  }

  // ---- The disk ----

  datatype Disk = Disk(tmp: Option<Bytes>, marker: Option<Url>, dest: Option<Bytes>, backup: Option<Bytes>)

  /** Resume safety: bytes in the temp file come from the start of the source its marker names. */
  predicate Resumable(content: Content, d: Disk)
  {
    d.tmp.Some? && d.tmp.value != [] && d.marker.Some? ==> IsPrefix(d.tmp.value, content(d.marker.value))
  }

  /** A complete old or new file is at the destination or in the backup. */
  predicate Safe(was: Option<Bytes>, now: Option<Bytes>, d: Disk)
  {
    was.Some? ==> d.dest == was || d.backup == was || (now.Some? && d.dest == now)
  }

  function BytesIn(d: Disk): Bytes
  {
    if d.tmp.Some? then d.tmp.value else []
  }

  // ---- What the steps make of a disk ----

  datatype Round = Done | Retry | Abort

  /** Removals whose failure is ignored. */
  function Removed(d: Disk, tmp: bool, marker: bool): Disk
  {
    d.(tmp := if tmp then None else d.tmp, marker := if marker then None else d.marker)
  }

  /** The disk a response is written to, with the temp file opened and the marker set. */
  function Prepared(d: Disk, o: Opened): Disk
  {
    d.(tmp := if o.resumed then Some(BytesIn(d)) else Some([]), marker := Some(o.url))
  }

  function Received(d: Disk, total: nat, o: Opened, a: Attempt): (Disk, Round)
    requires o.response.Full? || o.response.Partial?
  {
    if !a.opens then (d, Abort)
    else if !a.marks then (if o.resumed then d else d.(tmp := Some([])), Abort)
    else
      var bytes := BytesIn(Prepared(d, o)) + Concat(o.response.chunks);
      var written := Prepared(d, o).(tmp := Some(bytes));
      if !o.response.finishes then (written, Retry)
      else if total == 0 || |bytes| == total then (written, Done)
      else if |bytes| > total then (Removed(written, a.removesTmp, a.removesMarker), Retry)
      else (written, Retry)
  }

  /** From how many bytes an attempt resumes: none without a marker, and none when there are too many. */
  function ResumeFrom(d: Disk, total: nat): nat
  {
    if d.marker.None? || (total > 0 && |BytesIn(d)| > total) then 0 else |BytesIn(d)|
  }

  /** The disk after the checks before a request: a file that cannot be resumed is removed, if that works. */
  function Cleared(d: Disk, total: nat, a: Attempt): Disk
  {
    if BytesIn(d) != [] && d.marker.None? then Removed(d, a.removesTmp, false)
    else if total > 0 && |BytesIn(d)| > total then Removed(d, a.removesTmp, a.removesMarker)
    else d
  }

  /** One round of the attempt loop. */
  function RoundOf(d: Disk, total: nat, candidates: seq<Url>, a: Attempt): (Disk, Round)
  {
    var n, c := ResumeFrom(d, total), Cleared(d, total, a);
    if total > 0 && n == total then (c, Done)
    else
      var o := Choose(candidates, a.respond, n, total, d.marker);
      if o.None? then (if n > 0 then Removed(c, a.removesTmp, a.removesMarker) else c, Retry)
      else Received(c, total, o.value, a)
  }

  /** What replacing comes to: whether it succeeds, and the disk it leaves. */
  datatype Moves = Moves(backsUp: bool, moves: bool, restores: bool, cleansUp: bool)

  function Replaced(d: Disk, m: Moves): (Disk, bool)
    requires d.tmp.Some?
  {
    if d.dest.None? then if m.moves then (d.(tmp := None, dest := d.tmp), true) else (d, false)
    else if !m.backsUp then (d, false)
    else if m.moves then (d.(tmp := None, dest := d.tmp, backup := if m.cleansUp then None else d.dest), true)
    else if m.restores then (d.(backup := None), false)
    else (d.(dest := None, backup := d.dest), false)
  }

  /** Copying the cached file over the temp file: all of it, or failing with the temp file untouched or cut short. */
  datatype Copy = Copied | Untouched | CutShort(bytes: nat)

  function CopiedTo(d: Disk, cached: Bytes, c: Copy): Disk
  {
    match c
    case Copied => d.(tmp := Some(cached))
    case Untouched => d
    case CutShort(n) => d.(tmp := Some(if n <= |cached| then cached[..n] else cached))
  }

  /** The cached path. */
  function FromCache(d: Disk, cached: Bytes, c: Copy, m: Moves): (Disk, bool)
  {
    if c.Copied? then Replaced(CopiedTo(d, cached, c), m) else (CopiedTo(d, cached, c), false)
  }

  // ---- Attempts that must succeed ----

  /** There are no bytes that could be resumed. */
  predicate NothingToResume(d: Disk, total: nat)
  {
    BytesIn(d) == [] || d.marker.None? || 0 < total < |BytesIn(d)|
  }

  /** A response that carries content, of the declared size as far as it says. */
  predicate Offers(r: Response, start: nat, total: nat)
  {
    match r
    case Full(length, _, _) => total > 0 ==> length.Some? && length.value + start == total
    case Partial(size, _, _) => total > 0 ==> size == Some(total)
    case _ => false
  }

  /** u is the first candidate with something to offer, and serves its whole content honestly, at the declared size if one is declared. */
  ghost predicate ServesWhole(content: Content, total: nat, candidates: seq<Url>, a: Attempt, u: Url)
  {
    var r := a.respond(u, 0);
    && r.Full? && r.finishes && Honest(content, u, 0, r) && (total > 0 ==> r.length == Some(total))
    && exists i :: 0 <= i < |candidates| && candidates[i] == u && forall j :: 0 <= j < i ==> !Offers(a.respond(candidates[j], 0), 0, total)
  }

  /** Source u serves its content from byte n on honestly to the end; with no size declared it may also start over. */
  ghost predicate ServesRest(content: Content, total: nat, a: Attempt, u: Url, n: nat)
  {
    var r := a.respond(u, n);
    Honest(content, u, n, r)
    && ((r.Partial? && r.finishes && (total > 0 ==> r.total == Some(total))) || (total == 0 && r.Full? && r.finishes))
  }

  /** The disk holds part of what the marked source can still complete. */
  predicate PartAtHand(d: Disk, total: nat, u: Url)
  {
    d.marker == Some(u) && BytesIn(d) != [] && (total > 0 ==> |BytesIn(d)| < total)
  }

  /** With nothing to resume, an attempt in which a source serves its whole content is done, with exactly that content. */
  ghost predicate WholeDone(content: Content, d: Disk, total: nat, candidates: seq<Url>, a: Attempt, after: Disk, r: Round)
  {
    forall u :: (a.opens && a.marks && NothingToResume(d, total) && ServesWhole(content, total, candidates, a, u)) ==>
                  r == Done && after == d.(tmp := Some(content(u)), marker := Some(u))
  }

  /** With a resumable part at hand, an attempt in which its source serves the rest is done, with the whole content. */
  ghost predicate RestDone(content: Content, d: Disk, total: nat, candidates: seq<Url>, a: Attempt, after: Disk, r: Round)
  {
    forall u :: (a.opens && a.marks && PartAtHand(d, total, u) && Resumable(content, d) && u in candidates
                 && ServesRest(content, total, a, u, |BytesIn(d)|)) ==> r == Done && after == d.(tmp := Some(content(u)))
  }

  /** A part whose source offers nothing to go on with is dropped, so that the next attempt may start over from any source. */
  predicate PartDropped(d: Disk, total: nat, candidates: seq<Url>, a: Attempt, after: Disk, r: Round)
  {
    d.marker.Some? && PartAtHand(d, total, d.marker.value) && (d.marker.value in candidates ==> !Offers(a.respond(d.marker.value, |BytesIn(d)|), |BytesIn(d)|, total)) ==>
      r == Retry && after == Removed(d, a.removesTmp, a.removesMarker)
  }

  /** An attempt that delivers, whatever honest attempts before it have left behind. */
  ghost predicate DeliversFor(content: Content, total: nat, candidates: seq<Url>, a: Attempt)
  {
    && a.opens && a.marks && (exists u :: ServesWhole(content, total, candidates, a, u))
    && forall u, n: nat :: u in candidates && 0 < n <= |content(u)| && (total > 0 ==> n < total) ==> ServesRest(content, total, a, u, n)
  }

  /** Bytes to resume from are those of a candidate. */
  predicate Known(d: Disk, candidates: seq<Url>)
  {
    d.marker.Some? && BytesIn(d) != [] ==> d.marker.value in candidates
  }

  /** One of the four attempts delivers, and the ones before it are honest and meet no local error. */
  ghost predicate SomeDelivers(content: Content, total: nat, candidates: seq<Url>, env: nat -> Attempt)
  {
    exists k :: DeliversAt(content, total, candidates, env, k)
  }

  ghost predicate DeliversAt(content: Content, total: nat, candidates: seq<Url>, env: nat -> Attempt, k: nat)
  {
    && 1 <= k <= 4 && DeliversFor(content, total, candidates, env(k))
    && forall j :: 1 <= j < k ==> HonestAttempt(content, env(j)) && env(j).opens && env(j).marks
  }

  // ---- The program on its files ----

  class Store {
    ghost const content: Content
    var disk: Disk
    ghost var trace: seq<Disk>

    constructor (ghost content: Content, disk: Disk)
      ensures this.content == content && this.disk == disk && trace == [disk]
    {
      this.content := content;
      this.disk := disk;
      this.trace := [disk];
    }

    ghost predicate Traced()
      reads this
    {
      trace != [] && trace[|trace| - 1] == disk
    }

    /** Every state the disk has been in since the start was resumable. */
    ghost predicate Valid()
      reads this
    {
      Traced() && forall i :: 0 <= i < |trace| ==> Resumable(content, trace[i])
    }

    /** One file operation. */
    method Put(d: Disk)
      requires Traced()
      modifies this
      ensures Traced() && disk == d && trace == old(trace) + [d]
      ensures old(Valid()) && Resumable(content, d) ==> Valid()
    {
      disk := d;
      trace := trace + [d];
    }

    method Remove(tmp: bool, marker: bool)
      requires Traced()
      modifies this
      ensures Traced() && disk == Removed(old(disk), tmp, marker) && Kept(old(trace), trace)
      ensures old(Valid()) ==> Valid()
    {
      if tmp {
        Put(disk.(tmp := None));
      }
      if marker {
        Put(disk.(marker := None));
      }
    }

    /** The chunks of a transfer, written one after the other. */
    method Transfer(chunks: seq<Bytes>)
      requires Traced() && disk.tmp.Some? && disk.marker.Some?
      modifies this
      ensures Traced() && disk == old(disk).(tmp := Some(old(disk).tmp.value + Concat(chunks))) && Kept(old(trace), trace)
      ensures old(Valid()) && IsPrefix(old(disk).tmp.value + Concat(chunks), content(disk.marker.value)) ==> Valid()
    {
      ghost var base := disk.tmp.value;
      ghost var good := Valid() && IsPrefix(base + Concat(chunks), content(disk.marker.value));
      var i := 0;
      assert base + Concat<int>([]) == base && chunks[..0] == [];
      while i < |chunks|
        invariant 0 <= i <= |chunks| && Traced() && Kept(old(trace), trace) && (good ==> Valid())
        invariant disk == old(disk).(tmp := Some(base + Concat(chunks[..i])))
      {
        if good {
          PrefixOfChunks(base, chunks, i + 1, content(disk.marker.value));
        }
        assert base + Concat(chunks[..i + 1]) == base + Concat(chunks[..i]) + chunks[i] by { ConcatSnoc(chunks, i); }
        Put(disk.(tmp := Some(disk.tmp.value + chunks[i])));
        i := i + 1;
      }
      assert chunks[..i] == chunks;
    }

    /** One round of the attempt loop: what it does to any disk, and that honest answers keep a resumable disk resumable. */
    method TryOnce(total: nat, candidates: seq<Url>, a: Attempt) returns (r: Round)
      requires Traced()
      modifies this
      ensures Traced() && (disk, r) == RoundOf(old(disk), total, candidates, a) && Kept(old(trace), trace)
      ensures old(Valid()) && HonestAttempt(content, a) ==> Valid() && (r == Done ==> Fetched(content, disk, total))
      ensures PartDropped(old(disk), total, candidates, a, disk, r)
      ensures WholeDone(content, old(disk), total, candidates, a, disk, r) && RestDone(content, old(disk), total, candidates, a, disk, r)
    {
      hide Resumable, Honest, Received, Choose, IsPrefix, Usable, WholeDone, RestDone, PartDropped, Kept;
      MustComplete(content, disk, total, candidates, a);
      ghost var before := trace;
      KeptSelf(before);
      ghost var good := Valid() && HonestAttempt(content, a);
      var resumeFrom: nat := if disk.tmp.Some? then |disk.tmp.value| else 0;
      var source := disk.marker;
      if resumeFrom > 0 && source.None? {
        Remove(a.removesTmp, false);
        resumeFrom := 0;
      }
      if total > 0 && resumeFrom > total {
        Remove(a.removesTmp, a.removesMarker);
        resumeFrom := 0;
      }
      KeptOn(before, trace);
      if total > 0 && resumeFrom == total {
        if good {
          FullSizeFetched(content, disk, total);
        }
        return Done;
      }
      var answer := OpenResponse(candidates, a.respond, resumeFrom, total, source);
      if answer.None? {
        if resumeFrom > 0 {
          Remove(a.removesTmp, a.removesMarker);
        }
        return Retry;
      }
      ChosenFacts(candidates, a.respond, resumeFrom, total, source);
      r := Receive(total, resumeFrom, answer.value, a);
    }

    /** Writing an opened response to the temp file. */
    method Receive(total: nat, resumeFrom: nat, o: Opened, a: Attempt) returns (r: Round)
      requires Traced() && (o.response.Full? || o.response.Partial?)
      requires o.resumed <==> resumeFrom > 0 && o.response.Partial?
      requires resumeFrom > 0 ==> disk.tmp.Some? && |disk.tmp.value| == resumeFrom && disk.marker == Some(o.url)
      modifies this
      ensures Traced() && (disk, r) == Received(old(disk), total, o, a) && Kept(old(trace), trace)
      ensures old(Valid()) && Honest(content, o.url, resumeFrom, o.response) ==> Valid() && (r == Done ==> Fetched(content, disk, total))
    {
      hide Honest, IsPrefix, Resumable, Fetched;
      ghost var good := Valid() && Honest(content, o.url, resumeFrom, o.response);
      ghost var had := BytesIn(disk);
      if good && o.resumed {
        assert IsPrefix(had, content(o.url)) by { ResumableBytes(content, disk, o.url); }
      }
      var ready := Prepare(o, a);
      if !ready {
        return Abort;
      }
      if good {
        BodyFits(content, o, resumeFrom, BytesIn(disk));
      }
      r := WriteBody(total, o, a);
    }

    /** Opening the temp file, anew unless the response resumes, and naming its source in the marker. */
    method Prepare(o: Opened, a: Attempt) returns (ready: bool)
      requires Traced() && (o.resumed ==> disk.tmp.Some? && disk.marker == Some(o.url))
      modifies this
      ensures Traced() && Kept(old(trace), trace) && (ready <==> a.opens && a.marks) && (old(Valid()) ==> Valid())
      ensures ready ==> disk == Prepared(old(disk), o)
      ensures !ready ==> disk == if a.opens && !o.resumed then old(disk).(tmp := Some([])) else old(disk)
    {
      if !a.opens {
        return false;
      }
      if !o.resumed {
        Put(disk.(tmp := Some([])));
      }
      if !a.marks {
        return false;
      }
      Put(disk.(marker := Some(o.url)));
      return true;
    }

    /** The transfer and the size check behind it. */
    method WriteBody(total: nat, o: Opened, a: Attempt) returns (r: Round)
      requires Traced() && (o.response.Full? || o.response.Partial?) && disk.tmp.Some? && disk.marker == Some(o.url)
      modifies this
      ensures Traced() && Kept(old(trace), trace)
      ensures var bytes := old(disk).tmp.value + Concat(o.response.chunks);
              var written := old(disk).(tmp := Some(bytes));
              && r == (if o.response.finishes && (total == 0 || |bytes| == total) then Done else Retry)
              && disk == if o.response.finishes && 0 < total < |bytes| then Removed(written, a.removesTmp, a.removesMarker) else written
      ensures var bytes := old(disk).tmp.value + Concat(o.response.chunks);
              old(Valid()) && IsPrefix(bytes, content(o.url)) ==>
                Valid() && (r == Done && (total == 0 ==> bytes == content(o.url)) ==> Fetched(content, disk, total))
    {
      Transfer(o.response.chunks);
      if !o.response.finishes {
        return Retry;
      }
      var actual := |disk.tmp.value|;
      if total == 0 || actual == total {
        return Done;
      }
      if actual > total {
        Remove(a.removesTmp, a.removesMarker);
      }
      return Retry;
    }

    /** The attempt loop: at most four rounds on any disk; from a resumable one with honest answers, success means bytes of one source. */
    method Fetch(total: nat, candidates: seq<Url>, env: nat -> Attempt) returns (completed: bool, attempts: nat)
      requires Traced()
      modifies this
      ensures Traced() && attempts <= DOWNLOAD_ATTEMPTS && Kept(old(trace), trace)
      ensures (disk, completed) == Rounds(old(disk), total, candidates, env, 1)
      ensures old(Valid()) && AllHonest(content, env) ==> Valid() && (completed ==> Fetched(content, disk, total))
      ensures old(Valid()) && Known(old(disk), candidates) && SomeDelivers(content, total, candidates, env) ==>
                completed && Fetched(content, disk, total) && disk.marker.value in candidates
    {
      hide Fetched, Honest, Resumable, RoundOf, SomeDelivers, Known;
      if Valid() && Known(disk, candidates) && SomeDelivers(content, total, candidates, env) {
        assert trace[|trace| - 1] == disk;
        RoundsDeliver(content, disk, total, candidates, env);
      }
      ghost var good := Valid() && AllHonest(content, env);
      completed, attempts := false, 0;
      while attempts < DOWNLOAD_ATTEMPTS
        invariant Traced() && attempts <= DOWNLOAD_ATTEMPTS && !completed && Kept(old(trace), trace) && (good ==> Valid())
        invariant Rounds(old(disk), total, candidates, env, 1) == Rounds(disk, total, candidates, env, attempts + 1)
      {
        attempts := attempts + 1;
        var r := TryOnce(total, candidates, env(attempts));
        if r.Done? {
          completed := true;
          return;
        }
        if r.Abort? {
          return;
        }
      }
    }

    /**
     replace_download. The old file is at the destination or in the backup, or the new one is in place,
     after every step; on failure the destination holds the old file, or the backup does.
     */
    method Replace(m: Moves) returns (ok: bool)
      requires Traced() && disk.tmp.Some?
      modifies this
      ensures Traced() && (old(Valid()) ==> Valid()) && old(|trace|) <= |trace| && trace[..old(|trace|)] == old(trace)
      ensures (disk, ok) == Replaced(old(disk), m)
      ensures ok <==> m.moves && (old(disk).dest.Some? ==> m.backsUp)
      ensures ok ==> disk.dest == old(disk).tmp && disk.tmp.None?
      ensures !ok && (old(disk).dest.None? || !m.backsUp || m.restores) ==> disk.dest == old(disk).dest
      ensures !ok ==> disk.tmp == old(disk).tmp && (disk.dest == old(disk).dest || (disk.dest.None? && disk.backup == old(disk).dest))
      ensures forall i :: old(|trace|) <= i < |trace| ==> Safe(old(disk).dest, old(disk).tmp, trace[i])
    {
      if disk.dest.Some? {
        if !m.backsUp {
          return false;
        }
        Put(disk.(dest := None, backup := disk.dest));
        if m.moves {
          Put(disk.(tmp := None, dest := disk.tmp));
          if m.cleansUp {
            Put(disk.(backup := None));
          }
          return true;
        }
        if m.restores {
          Put(disk.(dest := disk.backup, backup := None));
        }
        return false;
      }
      if !m.moves {
        return false;
      }
      Put(disk.(tmp := None, dest := disk.tmp));
      return true;
    }

    /**
     download_with_progress without a cached copy, from a resumable disk and with honest answers. A success
     installs bytes of one source, as many as declared; a download that fails leaves the old file; at every
     step a complete old or new file is at the destination or in the backup.
     */
    method Install(total: nat, candidates: seq<Url>, env: nat -> Attempt, unmarks: bool, m: Moves) returns (ok: bool, attempts: nat)
      requires Traced()
      modifies this
      ensures Traced() && attempts <= DOWNLOAD_ATTEMPTS && old(|trace|) <= |trace|
      ensures (disk, ok) == Downloaded(old(disk), total, candidates, env, unmarks, m)
      ensures !ok ==> disk.dest == old(disk).dest || (disk.dest.None? && disk.backup == old(disk).dest)
      ensures old(Valid()) && AllHonest(content, env) ==>
                && Valid() && (ok ==> disk.dest.Some? && exists u :: Installed(content, u, total, disk.dest.value))
                && forall i :: old(|trace|) <= i < |trace| ==> SafeStep(content, total, old(disk).dest, trace[i])
      ensures old(Valid()) && Known(old(disk), candidates) && SomeDelivers(content, total, candidates, env)
              && m.moves && (old(disk).dest.Some? ==> m.backsUp) ==>
                && ok && disk.dest.Some? && disk.tmp.None? && (exists u :: u in candidates && Installed(content, u, total, disk.dest.value))
                && disk.backup == if old(disk).dest.Some? then (if m.cleansUp then None else old(disk).dest) else old(disk).backup
    {
      hide Fetched, Honest, Resumable, Installed, Rounds, SomeDelivers, Known;
      ghost var good := Valid() && AllHonest(content, env);
      ghost var was, n := disk.dest, |trace|;
      var completed: bool;
      completed, attempts := Fetch(total, candidates, env);
      assert forall i :: n <= i < |trace| ==> Safe(was, None, trace[i]);
      RoundsKeep(old(disk), total, candidates, env, 1);
      if !completed {
        return false, attempts;
      }
      ghost var u, fetched := disk.marker, disk.tmp;
      if good || Fetched(content, disk, total) {
        FetchedInstalls(content, disk, total);
      }
      Remove(false, unmarks);
      assert forall i :: n <= i < |trace| ==> Safe(was, None, trace[i]);
      ghost var k, before := |trace|, trace;
      ok := Replace(m);
      forall i | n <= i < |trace| && good ensures SafeStep(content, total, was, trace[i]) {
        assert i < k ==> trace[i] == before[i];
        assert Safe(was, fetched, trace[i]);
      }
    }

    /**
     download_with_progress with a valid cached copy, which goes through the temp file without touching the
     marker. A failure leaves the copy, or part of it, behind. That is safe to resume from whatever the
     sources hold exactly when nothing was left or there was no marker.
     */
    method InstallCached(cached: Bytes, c: Copy, m: Moves) returns (ok: bool)
      requires Traced()
      modifies this
      ensures Traced() && (disk, ok) == FromCache(old(disk), cached, c, m) && disk.marker == old(disk).marker
      ensures ok <==> c.Copied? && m.moves && (old(disk).dest.Some? ==> m.backsUp)
      ensures ok ==> disk.dest == Some(cached) && disk.tmp.None?
      ensures !ok ==> disk.dest == old(disk).dest || (disk.dest.None? && disk.backup == old(disk).dest)
      ensures !ok ==> disk.tmp == CopiedTo(old(disk), cached, c).tmp
      ensures !ok ==> ((forall s: Content :: Resumable(s, disk)) <==> BytesIn(CopiedTo(old(disk), cached, c)) == [] || old(disk).marker.None?)
    {
      var d := CopiedTo(disk, cached, c);
      if d != disk {
        Put(d);
      }
      if !c.Copied? {
        AlwaysResumable(disk);
        return false;
      }
      ok := Replace(m);
      AlwaysResumable(disk);
    }
  }

  /** A disk is resumable whatever the sources hold exactly when it has no bytes to resume from or no marker. */
  lemma {:induction false} AlwaysResumable(d: Disk)
    ensures (forall s: Content :: Resumable(s, d)) <==> BytesIn(d) == [] || d.marker.None?
  {
    if BytesIn(d) != [] && d.marker.Some? {
      var nothing: Content := u => [];
      assert !Resumable(nothing, d);
    }
  }

  /** The attempts from number k on. */
  function Rounds(d: Disk, total: nat, candidates: seq<Url>, env: nat -> Attempt, k: nat): (Disk, bool)
    decreases DOWNLOAD_ATTEMPTS + 1 - k
  {
    if k > DOWNLOAD_ATTEMPTS then (d, false)
    else
      var (after, r) := RoundOf(d, total, candidates, env(k));
      match r case Done => (after, true) case Abort => (after, false) case Retry => Rounds(after, total, candidates, env, k + 1)
  }

  /** The network path: the attempts, the marker removed if that works, and the replacement. */
  function Downloaded(d: Disk, total: nat, candidates: seq<Url>, env: nat -> Attempt, unmarks: bool, m: Moves): (Disk, bool)
  {
    var (after, completed) := Rounds(d, total, candidates, env, 1);
    if completed && after.tmp.Some? then Replaced(Removed(after, false, unmarks), m) else (after, false)
  }

  lemma {:induction false} RoundKeeps(d: Disk, total: nat, candidates: seq<Url>, a: Attempt)
    ensures var (after, r) := RoundOf(d, total, candidates, a);
            after.dest == d.dest && after.backup == d.backup && (r == Done ==> after.tmp.Some?)
  {
    hide Choose;
    var n := ResumeFrom(d, total);
    var o := Choose(candidates, a.respond, n, total, d.marker);
    if o.Some? {
      ChosenFacts(candidates, a.respond, n, total, d.marker);
    }
  }

  /** The attempts leave destination and backup alone, and a completed one has a temp file. */
  lemma {:induction false} RoundsKeep(d: Disk, total: nat, candidates: seq<Url>, env: nat -> Attempt, k: nat)
    ensures var (after, completed) := Rounds(d, total, candidates, env, k);
            after.dest == d.dest && after.backup == d.backup && (completed ==> after.tmp.Some?)
    decreases DOWNLOAD_ATTEMPTS + 1 - k
  {
    hide RoundOf;
    if k <= DOWNLOAD_ATTEMPTS {
      RoundKeeps(d, total, candidates, env(k));
      RoundsKeep(RoundOf(d, total, candidates, env(k)).0, total, candidates, env, k + 1);
    }
  }

  lemma {:induction false} ResumableBytes(content: Content, d: Disk, u: Url)
    requires Resumable(content, d) && d.marker == Some(u)
    ensures IsPrefix(BytesIn(d), content(u))
  {
  }

  ghost predicate HonestAttempt(content: Content, a: Attempt)
  {
    forall u: Url, start: nat :: Honest(content, u, start, a.respond(u, start))
  }

  /** A temp file of exactly the declared size is complete. */
  lemma {:induction false} FullSizeFetched(content: Content, d: Disk, total: nat)
    requires Resumable(content, d) && total > 0 && |BytesIn(d)| == total && d.marker.Some?
    ensures Fetched(content, d, total)
  {
  }

  lemma {:induction false} ChosenFacts(candidates: seq<Url>, respond: (Url, nat) -> Response, resumeFrom: nat, expected: nat, source: Option<Url>)
    requires Choose(candidates, respond, resumeFrom, expected, source).Some?
    ensures var o := Choose(candidates, respond, resumeFrom, expected, source).value;
            && (o.response.Full? || o.response.Partial?) && (o.resumed <==> resumeFrom > 0 && o.response.Partial?)
            && Allowed(o.url, resumeFrom, source) && o.response == respond(o.url, resumeFrom)
  {
  }

  /** A complete old file, or a completely downloaded new one, is at the destination or in the backup. */
  ghost predicate SafeStep(content: Content, total: nat, was: Option<Bytes>, d: Disk)
  {
    was.Some? ==> d.dest == was || d.backup == was || (d.dest.Some? && exists u :: Installed(content, u, total, d.dest.value))
  }

  /** The installed bytes: the declared number from the start of source u, or all of it. */
  ghost predicate Installed(content: Content, u: Url, total: nat, b: Bytes)
  {
    IsPrefix(b, content(u)) && (if total > 0 then |b| == total else b == content(u))
  }

  lemma {:induction false} FetchedInstalls(content: Content, d: Disk, total: nat)
    requires Fetched(content, d, total)
    ensures d.tmp.Some? && d.marker.Some? && Installed(content, d.marker.value, total, d.tmp.value)
  {
  }

  /** A finished download: bytes of one source, as many as declared, or all of them when no size was declared. */
  ghost predicate Fetched(content: Content, d: Disk, total: nat)
  {
    && d.tmp.Some? && d.marker.Some? && IsPrefix(d.tmp.value, content(d.marker.value))
    && (if total > 0 then |d.tmp.value| == total else d.tmp.value == content(d.marker.value))
  }

  lemma {:induction false} ConcatSnoc(chunks: seq<Bytes>, i: nat)
    requires i < |chunks|
    ensures Concat(chunks[..i + 1]) == Concat(chunks[..i]) + chunks[i]
  {
    assert chunks[..i + 1] == chunks[..i] + [chunks[i]];
    ConcatAppend(chunks[..i], [chunks[i]]);
    assert Concat([chunks[i]]) == chunks[i] + Concat([chunks[i]][1..]);
  }

  lemma {:induction false} PrefixOfChunks(base: Bytes, chunks: seq<Bytes>, i: nat, whole: Bytes)
    requires i <= |chunks| && IsPrefix(base + Concat(chunks), whole)
    ensures IsPrefix(base + Concat(chunks[..i]), whole)
  {
    assert chunks == chunks[..i] + chunks[i..];
    ConcatAppend(chunks[..i], chunks[i..]);
    var part := base + Concat(chunks[..i]);
    assert base + Concat(chunks) == part + Concat(chunks[i..]);
    assert whole[..|part|] == (part + Concat(chunks[i..]))[..|part|];
  }

  // ---- Why they succeed ----

  lemma {:induction false} OffersIsUsable(r: Response, start: nat, total: nat)
    ensures Offers(r, start, total) <==> Usable(r, start, total)
  {
  }

  lemma {:induction false} ChooseFirst(candidates: seq<Url>, respond: (Url, nat) -> Response, total: nat, source: Option<Url>, i: nat)
    requires i < |candidates| && Usable(respond(candidates[i], 0), 0, total)
    requires forall j :: 0 <= j < i ==> !Usable(respond(candidates[j], 0), 0, total)
    ensures Choose(candidates, respond, 0, total, source) == Some(Opened(respond(candidates[i], 0), false, candidates[i]))
  {
    hide Usable;
    if i > 0 {
      assert !Usable(respond(candidates[0], 0), 0, total);
      ChooseFirst(candidates[1..], respond, total, source, i - 1);
    }
  }

  lemma {:induction false} WholeCompletes(content: Content, d: Disk, total: nat, candidates: seq<Url>, a: Attempt, u: Url)
    requires a.opens && a.marks && NothingToResume(d, total) && ServesWhole(content, total, candidates, a, u)
    ensures RoundOf(d, total, candidates, a) == (d.(tmp := Some(content(u)), marker := Some(u)), Done)
  {
    hide Choose, Usable, Offers;
    var i :| 0 <= i < |candidates| && candidates[i] == u && forall j :: 0 <= j < i ==> !Offers(a.respond(candidates[j], 0), 0, total);
    forall j | 0 <= j < |candidates| ensures Offers(a.respond(candidates[j], 0), 0, total) <==> Usable(a.respond(candidates[j], 0), 0, total) {
      OffersIsUsable(a.respond(candidates[j], 0), 0, total);
    }
    FullOffers(a.respond(u, 0), total);
    ChooseFirst(candidates, a.respond, total, d.marker, i);
    assert [] + content(u) == content(u);
  }

  lemma {:induction false} FullOffers(r: Response, total: nat)
    requires r.Full? && (total > 0 ==> r.length == Some(total))
    ensures Offers(r, 0, total)
  {
  }

  lemma {:induction false} RestCompletes(content: Content, d: Disk, total: nat, candidates: seq<Url>, a: Attempt, u: Url)
    requires a.opens && a.marks && PartAtHand(d, total, u) && Resumable(content, d) && u in candidates
    requires ServesRest(content, total, a, u, |BytesIn(d)|)
    ensures RoundOf(d, total, candidates, a) == (d.(tmp := Some(content(u))), Done)
  {
    var left := BytesIn(d);
    var r := a.respond(u, |left|);
    if r.Partial? {
      LeftoverCompletes(content, d, total, candidates, a);
      MixIsSource(left, content(u));
    } else {
      hide Choose;
      ChooseMarked(candidates, a.respond, |left|, total, u);
      assert [] + content(u) == content(u);
    }
  }

  lemma {:induction false} NothingOffered(candidates: seq<Url>, respond: (Url, nat) -> Response, n: nat, total: nat, u: Url)
    requires n > 0 && (u in candidates ==> !Offers(respond(u, n), n, total))
    ensures Choose(candidates, respond, n, total, Some(u)).None?
  {
    hide Usable, Offers;
    OffersIsUsable(respond(u, n), n, total);
    if candidates != [] {
      assert candidates == [candidates[0]] + candidates[1..];
      NothingOffered(candidates[1..], respond, n, total, u);
    }
  }

  lemma {:induction false} DropsPart(d: Disk, total: nat, candidates: seq<Url>, a: Attempt)
    ensures var (after, r) := RoundOf(d, total, candidates, a); PartDropped(d, total, candidates, a, after, r)
  {
    hide Choose, Offers;
    if d.marker.Some? && PartAtHand(d, total, d.marker.value) {
      var u := d.marker.value;
      if u in candidates ==> !Offers(a.respond(u, |BytesIn(d)|), |BytesIn(d)|, total) {
        NothingOffered(candidates, a.respond, |BytesIn(d)|, total, u);
      }
    }
  }

  /** An attempt on a disk without bytes to resume, or with a part its source still completes, is done. */
  lemma {:induction false} MustComplete(content: Content, d: Disk, total: nat, candidates: seq<Url>, a: Attempt)
    ensures var (after, r) := RoundOf(d, total, candidates, a);
            && WholeDone(content, d, total, candidates, a, after, r) && RestDone(content, d, total, candidates, a, after, r)
            && PartDropped(d, total, candidates, a, after, r)
  {
    DropsPart(d, total, candidates, a);
    hide PartDropped;
    hide RoundOf, NothingToResume, ServesWhole, ServesRest, PartAtHand, Resumable;
    forall u | a.opens && a.marks && NothingToResume(d, total) && ServesWhole(content, total, candidates, a, u)
      ensures RoundOf(d, total, candidates, a) == (d.(tmp := Some(content(u)), marker := Some(u)), Done)
    {
      WholeCompletes(content, d, total, candidates, a, u);
    }
    forall u | a.opens && a.marks && PartAtHand(d, total, u) && Resumable(content, d) && u in candidates && ServesRest(content, total, a, u, |BytesIn(d)|)
      ensures RoundOf(d, total, candidates, a) == (d.(tmp := Some(content(u))), Done)
    {
      RestCompletes(content, d, total, candidates, a, u);
    }
  }

  /** An attempt that delivers is done on every disk that is resumable from the candidates. */
  lemma {:induction false} DeliveryCompletes(content: Content, d: Disk, total: nat, candidates: seq<Url>, a: Attempt)
    requires Resumable(content, d) && Known(d, candidates) && DeliversFor(content, total, candidates, a)
    ensures var (after, r) := RoundOf(d, total, candidates, a);
            r == Done && Fetched(content, after, total) && after.marker.value in candidates
  {
    hide RoundOf, ServesRest;
    MustComplete(content, d, total, candidates, a);
    if NothingToResume(d, total) {
      var u :| ServesWhole(content, total, candidates, a, u);
      WholeIsFetched(content, d, total, u);
    } else if total > 0 && |BytesIn(d)| == total {
      SizeIsDone(d, total, candidates, a);
      FullSizeFetched(content, d, total);
    } else {
      var u := d.marker.value;
      assert PartAtHand(d, total, u) && u in candidates && 0 < |BytesIn(d)| <= |content(u)|;
      assert ServesRest(content, total, a, u, |BytesIn(d)|);
      RestIsFetched(content, d, total, a, u, |BytesIn(d)|);
    }
  }

  lemma {:induction false} SizeIsDone(d: Disk, total: nat, candidates: seq<Url>, a: Attempt)
    requires total > 0 && |BytesIn(d)| == total && d.marker.Some?
    ensures RoundOf(d, total, candidates, a) == (d, Done)
  {
  }

  lemma {:induction false} WholeIsFetched(content: Content, d: Disk, total: nat, u: Url)
    requires total > 0 ==> |content(u)| == total
    ensures Fetched(content, d.(tmp := Some(content(u)), marker := Some(u)), total)
  {
    assert content(u)[..|content(u)|] == content(u);
  }

  lemma {:induction false} RestIsFetched(content: Content, d: Disk, total: nat, a: Attempt, u: Url, n: nat)
    requires ServesRest(content, total, a, u, n) && d.marker == Some(u)
    ensures Fetched(content, d.(tmp := Some(content(u))), total)
  {
    WholeIsFetched(content, d, total, u);
  }

  /** An honest attempt without a local error leaves a disk that is resumable from the candidates, and is done only with a complete file. */
  lemma {:induction false} RoundResumable(content: Content, d: Disk, total: nat, candidates: seq<Url>, a: Attempt)
    requires Resumable(content, d) && Known(d, candidates) && HonestAttempt(content, a) && a.opens && a.marks
    ensures var (after, r) := RoundOf(d, total, candidates, a);
            && Resumable(content, after) && Known(after, candidates) && r != Abort
            && (r == Done ==> Fetched(content, after, total) && after.marker.value in candidates)
  {
    hide Choose, Honest, Usable;
    var n, c := ResumeFrom(d, total), Cleared(d, total, a);
    if total > 0 && n == total {
      FullSizeFetched(content, d, total);
    } else {
      var o := Choose(candidates, a.respond, n, total, d.marker);
      if o.Some? {
        ChosenFacts(candidates, a.respond, n, total, d.marker);
        hide RoundOf;
        ReceivedResumable(content, c, total, candidates, o.value, a, n);
        ChosenRound(d, total, candidates, a);
      }
    }
  }

  lemma {:induction false} ChosenRound(d: Disk, total: nat, candidates: seq<Url>, a: Attempt)
    requires var n := ResumeFrom(d, total);
             !(total > 0 && n == total) && Choose(candidates, a.respond, n, total, d.marker).Some?
    ensures var o := Choose(candidates, a.respond, ResumeFrom(d, total), total, d.marker).value;
            (o.response.Full? || o.response.Partial?) && RoundOf(d, total, candidates, a) == Received(Cleared(d, total, a), total, o, a)
  {
    hide Choose, Received;
    ChosenFacts(candidates, a.respond, ResumeFrom(d, total), total, d.marker);
  }

  lemma {:induction false} ReceivedResumable(content: Content, c: Disk, total: nat, candidates: seq<Url>, o: Opened, a: Attempt, n: nat)
    requires (o.response.Full? || o.response.Partial?) && Honest(content, o.url, n, o.response) && o.url in candidates && a.opens && a.marks
    requires o.resumed <==> n > 0 && o.response.Partial?
    requires o.resumed ==> |BytesIn(c)| == n && IsPrefix(BytesIn(c), content(o.url))
    ensures var (after, r) := Received(c, total, o, a);
            && Resumable(content, after) && Known(after, candidates) && r != Abort
            && (r == Done ==> Fetched(content, after, total) && after.marker.value in candidates)
  {
    hide Honest;
    BodyFits(content, o, n, BytesIn(Prepared(c, o)));
  }

  lemma {:induction false} RoundsFrom(content: Content, d: Disk, total: nat, candidates: seq<Url>, env: nat -> Attempt, j: nat, k: nat)
    requires Resumable(content, d) && Known(d, candidates) && 1 <= j <= k && DeliversAt(content, total, candidates, env, k)
    ensures var (after, completed) := Rounds(d, total, candidates, env, j);
            completed && Fetched(content, after, total) && after.marker.value in candidates
    decreases k - j
  {
    hide RoundOf, Resumable, Known, Fetched, DeliversFor, HonestAttempt;
    if j == k {
      DeliveryCompletes(content, d, total, candidates, env(k));
    } else {
      RoundResumable(content, d, total, candidates, env(j));
      if RoundOf(d, total, candidates, env(j)).1.Retry? {
        RoundsFrom(content, RoundOf(d, total, candidates, env(j)).0, total, candidates, env, j + 1, k);
      }
    }
  }

  /** With one delivering attempt among the four, behind honest ones, the download completes. */
  lemma {:induction false} RoundsDeliver(content: Content, d: Disk, total: nat, candidates: seq<Url>, env: nat -> Attempt)
    requires Resumable(content, d) && Known(d, candidates) && SomeDelivers(content, total, candidates, env)
    ensures var (after, completed) := Rounds(d, total, candidates, env, 1);
            completed && Fetched(content, after, total) && after.marker.value in candidates
  {
    hide DeliversAt, Rounds;
    var k :| DeliversAt(content, total, candidates, env, k);
    assert k >= 1 by { DeliveryNumber(content, total, candidates, env, k); }
    RoundsFrom(content, d, total, candidates, env, 1, k);
  }

  lemma {:induction false} DeliveryNumber(content: Content, total: nat, candidates: seq<Url>, env: nat -> Attempt, k: nat)
    requires DeliversAt(content, total, candidates, env, k)
    ensures 1 <= k <= 4
  {
  }

  /** What an honest response adds continues the bytes at hand. */
  lemma {:induction false} BodyFits(content: Content, o: Opened, resumeFrom: nat, base: Bytes)
    requires (o.response.Full? || o.response.Partial?) && Honest(content, o.url, resumeFrom, o.response)
    requires o.resumed <==> resumeFrom > 0 && o.response.Partial?
    requires if o.resumed then |base| == resumeFrom && IsPrefix(base, content(o.url)) else base == []
    ensures IsPrefix(base + Concat(o.response.chunks), content(o.url))
    ensures o.response.finishes ==> base + Concat(o.response.chunks) == content(o.url)
  {
    var whole := content(o.url);
    var body := if o.resumed then whole[resumeFrom..] else whole;
    assert base + body == whole;
    assert (base + body)[..|base + Concat(o.response.chunks)|] == base + body[..|Concat(o.response.chunks)|];
  }

  /** The trace only grows, and the new states have the destination and backup of the last old one. */
  ghost predicate Kept(before: seq<Disk>, after: seq<Disk>)
  {
    && 0 < |before| <= |after| && after[..|before|] == before
    && forall i :: |before| <= i < |after| ==> after[i].dest == before[|before| - 1].dest && after[i].backup == before[|before| - 1].backup
  }

  lemma {:induction false} KeptSelf(trace: seq<Disk>)
    ensures trace != [] ==> Kept(trace, trace)
  {
  }

  /** Keeping is transitive. */
  lemma {:induction false} KeptOn(a: seq<Disk>, b: seq<Disk>)
    ensures Kept(a, b) ==> forall c :: Kept(b, c) ==> Kept(a, c)
  {
    if Kept(a, b) {
      forall c | Kept(b, c) ensures Kept(a, c) {
        assert c[..|a|] == c[..|b|][..|a|];
        assert forall i :: |a| <= i < |b| ==> c[i] == b[i];
      }
    }
  }

  // ---- What a stale marker leads to ----

  /**
   Overwriting the temp file under its marker keeps resume safety, whatever sources it held for, exactly when
   nothing is written, there is no marker, or the new bytes are the first of the old ones.
   */
  lemma {:induction false} OverwriteKeeps(d: Disk, bytes: Bytes)
    ensures (forall s: Content :: Resumable(s, d) ==> Resumable(s, d.(tmp := Some(bytes))))
            <==> bytes == [] || d.marker.None? || IsPrefix(bytes, BytesIn(d))
  {
    var after := d.(tmp := Some(bytes));
    if bytes != [] && d.marker.Some? {
      var had := BytesIn(d);
      if IsPrefix(bytes, had) {
        forall s: Content | Resumable(s, d) ensures Resumable(s, after) {
          PrefixTrans(bytes, had, s(d.marker.value));
        }
      } else {
        var same: Content := u => had;
        assert Resumable(same, d) && !Resumable(same, after);
      }
    }
  }

  lemma {:induction false} PrefixTrans(a: Bytes, b: Bytes, c: Bytes)
    requires IsPrefix(a, b) && IsPrefix(b, c)
    ensures IsPrefix(a, c)
  {
    assert c[..|a|] == c[..|b|][..|a|];
  }

  lemma {:induction false} ChooseMarked(candidates: seq<Url>, respond: (Url, nat) -> Response, n: nat, total: nat, u: Url)
    requires n > 0 && u in candidates && Usable(respond(u, n), n, total)
    ensures Choose(candidates, respond, n, total, Some(u)) == Some(Opened(respond(u, n), respond(u, n).Partial?, u))
  {
    if candidates[0] != u {
      ChooseMarked(candidates[1..], respond, n, total, u);
    }
  }

  /**
   Resuming from any leftover with a marker: a finished honest partial response completes the round with the
   leftover bytes followed by the rest of the marked source. Those are bytes of that source exactly when the
   leftover was resumable.
   */
  lemma {:induction false} LeftoverCompletes(content: Content, d: Disk, total: nat, candidates: seq<Url>, a: Attempt)
    requires d.marker.Some? && d.marker.value in candidates && 0 < |BytesIn(d)| && (total > 0 ==> |BytesIn(d)| < total)
    requires var r := a.respond(d.marker.value, |BytesIn(d)|);
             r.Partial? && r.finishes && Usable(r, |BytesIn(d)|, total) && Honest(content, d.marker.value, |BytesIn(d)|, r)
    requires a.opens && a.marks
    ensures var u, left := d.marker.value, BytesIn(d);
            var mix := left + content(u)[|left|..];
            && RoundOf(d, total, candidates, a) == (d.(tmp := Some(mix)), Done)
            && (Installed(content, u, total, mix) <==> Resumable(content, d))
            && (Fetched(content, d.(tmp := Some(mix)), total) <==> Resumable(content, d))
  {
    hide Choose, Usable;
    var u, left := d.marker.value, BytesIn(d);
    var r := a.respond(u, |left|);
    ChooseMarked(candidates, a.respond, |left|, total, u);
    assert Usable(r, |left|, total) ==> total > 0 ==> r.total == Some(total) by { UsableSize(r, |left|, total); }
    var mix := left + content(u)[|left|..];
    assert |mix| == |content(u)|;
    MixIsSource(left, content(u));
  }

  lemma {:induction false} UsableSize(r: Response, n: nat, total: nat)
    requires r.Partial?
    ensures Usable(r, n, total) ==> total > 0 ==> r.total == Some(total)
  {
  }

  lemma {:induction false} MixIsSource(left: Bytes, whole: Bytes)
    requires |left| <= |whole|
    ensures left + whole[|left|..] == whole <==> IsPrefix(left, whole)
    ensures IsPrefix(left + whole[|left|..], whole) <==> IsPrefix(left, whole)
  {
    var mix := left + whole[|left|..];
    assert mix[..|left|] == left && |mix| == |whole|;
    assert whole[..|whole|] == whole;
    if IsPrefix(left, whole) {
      assert whole == whole[..|left|] + whole[|left|..];
    }
  }

  // A run that mixes: an interrupted download from "a", a cached copy whose move fails, and a resumed download.

  const SOURCES: Content := u => if u == "a" then [1, 2, 3] else [7, 8]

  /** "a" breaks off after one byte, and later delivers what a range request asks for. */
  const SERVER: Attempt :=
    Attempt((u: Url, start: nat) => if u != "a" then SendError else if start == 0 then Full(Some(3), [[1]], false)
                                    else if start == 2 then Partial(Some(3), [[3]], true) else Rejected, true, true, true, true)

  /** Nothing can be moved to the destination while the cached copy is installed; later moves succeed. */
  const STUCK := Moves(true, false, true, true)
  const FREE := Moves(true, true, true, true)

  lemma {:induction false} ServerHonest()
    ensures HonestAttempt(SOURCES, SERVER)
  {
    assert Concat([[1]]) == [1] + Concat([[1]][1..]) && Concat([[3]]) == [3] + Concat([[3]][1..]);
    assert SOURCES("a")[2..] == [3];
  }

  /** The disk after the interrupted download, and after the cached copy stayed behind. */
  const INTERRUPTED := Disk(Some([1]), Some("a"), None, None)
  const LEFTOVER := Disk(Some([7, 8]), Some("a"), None, None)

  lemma {:induction false} Interrupts()
    ensures RoundOf(Disk(None, None, None, None), 3, ["a"], SERVER) == (INTERRUPTED, Retry)
  {
    var empty := Disk(None, None, None, None);
    var full := Full(Some(3), [[1]], false);
    assert Choose(["a"], SERVER.respond, 0, 3, None) == Some(Opened(full, false, "a"));
    assert Concat([[1]]) == [1] + Concat([[1]][1..]);
    assert [] + Concat([[1]]) == [1];
  }

  /**
   Every response is honest, yet the run installs a file that is from no source: its first bytes come from
   the cached copy and its last from "a". The disk was resumable until the cached copy went over the marked file.
   */
  lemma {:induction false} StaleMarkerMixes()
    ensures HonestAttempt(SOURCES, SERVER)
    ensures RoundOf(Disk(None, None, None, None), 3, ["a"], SERVER) == (INTERRUPTED, Retry) && Resumable(SOURCES, INTERRUPTED)
    ensures FromCache(INTERRUPTED, SOURCES("b"), Copied, STUCK) == (LEFTOVER, false) && !Resumable(SOURCES, LEFTOVER)
    ensures Rounds(LEFTOVER, 3, ["a"], _ => SERVER, 1) == (LEFTOVER.(tmp := Some([7, 8, 3])), true)
    ensures var (after, ok) := Downloaded(LEFTOVER, 3, ["a"], _ => SERVER, true, FREE);
            ok && after.dest == Some([7, 8, 3]) && forall u :: !Installed(SOURCES, u, 3, [7, 8, 3])
  {
    ServerHonest();
    Interrupts();
    assert SOURCES("a")[..1] == [1] && SOURCES("a")[..2][0] == 1;
    assert Concat([[3]]) == [3] + Concat([[3]][1..]);
    assert SOURCES("a")[2..] == [3] && [7, 8] + [3] == [7, 8, 3];
    LeftoverCompletes(SOURCES, LEFTOVER, 3, ["a"], SERVER);
    forall u ensures !Installed(SOURCES, u, 3, [7, 8, 3]) {
      assert [7, 8, 3][0] == 7;
    }
  }

  /** The same run through the program: the process stops after the first round, and starts again twice. */
  method ReplayStaleMarker() returns (installed: Bytes)
    ensures HonestAttempt(SOURCES, SERVER)
    ensures installed == [7, 8, 3] && forall u :: !Installed(SOURCES, u, 3, installed)
  {
    StaleMarkerMixes();
    hide RoundOf, FromCache, Rounds, Downloaded, Replaced, Resumable, Installed, HonestAttempt;
    var store := new Store(SOURCES, Disk(None, None, None, None));
    var first := store.TryOnce(3, ["a"], SERVER);
    var copied := store.InstallCached([7, 8], Copied, STUCK);
    var ok, _ := store.Install(3, ["a"], _ => SERVER, true, FREE);
    installed := if store.disk.dest.Some? then store.disk.dest.value else [];
  }
}
