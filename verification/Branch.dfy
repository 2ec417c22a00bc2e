/** One memory branch: the private workspace in which a replacement is drafted,
    read, reviewed and confirmed, saved checkpoint by checkpoint.

    Texts are their UTF-8 bytes.  A digest is represented by the text it is of,
    since only digest equality is ever used. */
module Branch {
  import opened Common
  import opened Pager

  type Bytes = seq<Byte>

  const MAX_CANDIDATE := 2_097_152

  datatype Candidate = Candidate(text: Bytes, version: nat)

  datatype ReviewKind = Replace | Keep

  datatype Review = Review(kind: ReviewKind, version: nat, digest: Bytes, token: int, round: nat)

  datatype Status = Running | Paused | PreparedDone | KeptDone

  datatype Work = Work(
    candidate: Option<Candidate>, candidateRead: seq<Range>, sourceRead: seq<Range>,
    review: Option<Review>, final: Option<Review>, rounds: nat, calls: nat, tokens: nat, failures: nat,
    status: Status, inFlight: bool, interruptions: nat, rebranch: bool, maxFailures: nat)

  datatype ChunkStatus = Preparing | Prepared | Kept

  /** What happened in the branch and was saved, in order. */
  datatype Happening =
    | Began(source: Bytes)
    | Wrote(version: nat, text: Bytes)
    | SourceRead(range: Range)
    | CandidateRead(version: nat, range: Range)
    | Reset
    | Opened(review: Review)
    | Confirmed(round: nat)

  /** `size` is the estimate of what the chunk replaces. */
  datatype Branch = Branch(
    source: Bytes, size: nat, chunk: ChunkStatus, replacement: Option<Bytes>, work: Option<Work>,
    previous: Option<Work>, revision: nat, trail: seq<Happening>)

  // ------------------------------------------------------------ private files

  /** A file call as the branch sees it; `Refused` stands for any other tool,
      route, path, argument or encoding. */
  datatype FileCall =
    | WriteFile(expected: Option<nat>, text: Bytes, nul: bool)
    | ReadFile(ofSource: bool, offset: int, len: int)
    | Refused

  /** A workspace with what was done in it since the last checkpoint. */
  datatype Doing = Doing(work: Work, done: seq<Happening>)

  predicate Writes(w: Work, expected: Option<nat>, text: Bytes, nul: bool) {
    && |text| <= MAX_CANDIDATE && !nul
    && expected == (match w.candidate case Some(c) => Some(c.version) case None => None)
  }

  function NextVersion(w: Work): nat { (match w.candidate case Some(c) => c.version case None => 0) + 1 }

  /** A write starts a new version: every read and the review are void. */
  function Write(d: Doing, text: Bytes): Doing {
    var v := NextVersion(d.work);
    Doing(d.work.(candidate := Some(Candidate(text, v)), candidateRead := [], sourceRead := [], review := None),
          d.done + [Wrote(v, text)])
  }

  function PrivateFile(source: Bytes, d: Doing, call: FileCall): Doing {
    match call
    case Refused => d
    case WriteFile(expected, text, nul) => if Writes(d.work, expected, text, nul) then Write(d, text) else d
    case ReadFile(true, offset, len) =>
      var r := ReadAt(source, offset, len);
      if r.Page? then Doing(d.work.(sourceRead := d.work.sourceRead + [(r.start, r.end)]), d.done + [SourceRead((r.start, r.end))])
      else d
    case ReadFile(false, offset, len) =>
      if d.work.candidate.None? then d
      else
        var c := d.work.candidate.value;
        var r := ReadAt(c.text, offset, len);
        if r.Page?
        then Doing(d.work.(candidateRead := d.work.candidateRead + [(r.start, r.end)]),
                   d.done + [CandidateRead(c.version, (r.start, r.end))])
        else d
  }

  function PrivateFiles(source: Bytes, d: Doing, calls: seq<FileCall>): Doing
    decreases |calls|
  {
    if calls == [] then d else PrivateFiles(source, PrivateFile(source, d, calls[0]), calls[1..])
  }

  // -------------------------------------------------------------- one response

  /** A response without tool calls: a control object, or anything else. */
  datatype Control =
    | OpenReview(version: nat, digest: Bytes)
    | OpenKeep
    | Confirm(version: nat, digest: Bytes, token: int, checked: bool)
    | Garbled

  datatype Decision = Decision(calls: seq<FileCall>, control: Control, used: nat)

  /** White space and line terminators, as String.prototype.trim strips them. */
  predicate White(c: Scalar) {
    || 0x09 <= c <= 0x0D || c == 0x20 || c == 0xA0 || c == 0x1680 || 0x2000 <= c <= 0x200A
    || c == 0x2028 || c == 0x2029 || c == 0x202F || c == 0x205F || c == 0x3000 || c == 0xFEFF
  }

  ghost predicate Blank(text: Bytes) {
    exists chars :: Encode(chars) == text && forall k :: 0 <= k < |chars| ==> White(chars[k])
  }

  ghost predicate MayReview(source: Bytes, w: Work, version: nat, digest: Bytes) {
    && AllRead(w.sourceRead, |source|)
    && w.candidate.Some? && version == w.candidate.value.version && digest == w.candidate.value.text
    && AllRead(w.candidateRead, |w.candidate.value.text|)
    && !Blank(w.candidate.value.text)
  }

  predicate MayConfirm(w: Work, version: nat, digest: Bytes, token: int, checked: bool) {
    && w.review.Some? && w.review.value.round < w.rounds
    && version == w.review.value.version && digest == w.review.value.digest && token == w.review.value.token && checked
    && (w.review.value.kind == Replace ==>
          w.candidate.Some? && w.candidate.value.version == w.review.value.version
          && w.candidate.value.text == w.review.value.digest)
  }

  function Open(d: Doing, r: Review): Doing { Doing(d.work.(review := Some(r), failures := 0), d.done + [Opened(r)]) }

  /** A control error: counted, unless the draft merely is not smaller yet, and
      pausing the branch once too many came in a row. */
  function Errs(d: Doing, draftOnly: bool): Doing {
    var failures := if draftOnly then 0 else d.work.failures + 1;
    Doing(d.work.(failures := failures, status := if failures >= d.work.maxFailures then Paused else d.work.status), d.done)
  }

  ghost function Controls(source: Bytes, size: nat, d: Doing, control: Control, token: int): Doing {
    var w := d.work;
    match control
    case OpenReview(version, digest) =>
      if !MayReview(source, w, version, digest) then Errs(d, false)
      else if EstTokens(w.candidate.value.text) >= size then Errs(d, true)
      else Open(d, Review(Replace, version, digest, token, w.rounds))
    case OpenKeep =>
      if !AllRead(w.sourceRead, |source|) then Errs(d, false)
      else Open(d, Review(Keep, 0, source, token, w.rounds))
    case Confirm(version, digest, tok, checked) =>
      if !MayConfirm(w, version, digest, tok, checked) then Errs(d, false)
      else
        var r := w.review.value;
        Doing(w.(final := Some(r), status := if r.kind == Keep then KeptDone else PreparedDone, failures := 0),
              d.done + [Confirmed(w.rounds)])
    case Garbled => Errs(d, false)
  }

  /** advanceMemoryBranch, then the bookkeeping of the round that ended. */
  ghost function Advance(source: Bytes, size: nat, w: Work, dec: Decision, token: int): Doing {
    var w1 := w.(rounds := w.rounds + 1, tokens := w.tokens + dec.used, inFlight := false, interruptions := 0);
    if dec.calls != [] then
      var d := PrivateFiles(source, Doing(w1, []), dec.calls);
      d.(work := d.work.(failures := 0))
    else Controls(source, size, Doing(w1, []), dec.control, token)
  }

  // ------------------------------------------------------------------- saving

  /** What the store demands of a completion: the confirmation was opened in a
      checkpoint before, in an earlier round, and the draft has not changed. */
  predicate MayComplete(size: nat, prior: Option<Work>, w: Work) {
    && w.final.Some? && prior.Some? && prior.value.review == w.final
    && w.rounds > w.final.value.round
    && (w.status == PreparedDone ==>
          && w.candidate.Some? && prior.value.candidate == w.candidate
          && w.final.value.kind == Replace && w.final.value.digest == w.candidate.value.text
          && w.final.value.version == w.candidate.value.version
          && EstTokens(w.candidate.value.text) < size)
    && (w.status == KeptDone ==> w.final.value.kind == Keep)
  }

  predicate Completed(w: Work) { w.status == PreparedDone || w.status == KeptDone }

  predicate MaySave(b: Branch, revision: nat, w: Work) {
    && b.revision == revision && b.chunk == Preparing
    && (b.work.Some? ==> b.work.value.calls <= w.calls && b.work.value.rounds <= w.rounds && b.work.value.tokens <= w.tokens)
    && (Completed(w) ==> MayComplete(b.size, b.work, w))
  }

  /** saveMemoryBranch: one compare-and-swap on the revision.  `done` is what the
      checkpoint records as having happened. */
  function Save(b: Branch, revision: nat, d: Doing): Branch {
    if !MaySave(b, revision, d.work) then b
    else b.(work := Some(d.work), revision := b.revision + 1, trail := b.trail + d.done,
            chunk := if d.work.status == PreparedDone then Prepared else if d.work.status == KeptDone then Kept else Preparing,
            replacement := if d.work.status == PreparedDone && d.work.candidate.Some? then Some(d.work.candidate.value.text)
                           else b.replacement)
  }

  predicate SaveAccepted(b: Branch, revision: nat, w: Work) {
    (b.revision == revision + 1 && b.work == Some(w)) || MaySave(b, revision, w)
  }

  // --------------------------------------------------------------------- steps

  datatype Step =
    | Reclaim(source: Bytes)
    | Begin(maxFailures: nat)
    | Admit
    | Interrupted
    | Pause(failed: bool)
    | Resume(changedBinding: bool, policy: Option<nat>)
    | Rebind(failed: bool)
    | Round(decision: Decision, token: int)
    | Grant(rebranch: bool)
    | Rebranch(source: Bytes)

  function Initially(previous: Option<Work>, maxFailures: nat): Work {
    Work(if previous.Some? then previous.value.candidate else None, [], [], None, None, 0, 0, 0, 0,
         Running, false, 0, false, maxFailures)
  }

  /** Reads and the open review do not survive a change of model or a grant. */
  function Cleared(w: Work): Work { w.(review := None, final := None, sourceRead := [], candidateRead := []) }

  /** The checkpoint a running preparation submits next, if it submits one. */
  ghost function Next(b: Branch, step: Step): Option<Doing> {
    if b.work.None? then
      if step.Begin? then Some(Doing(Initially(b.previous, step.maxFailures), [Began(b.source)])) else None
    else
      var w := b.work.value;
      match step
      case Admit => if w.status == Running then Some(Doing(w.(calls := w.calls + 1, inFlight := true), [])) else None
      case Interrupted =>
        var n := w.interruptions + 1;
        if w.inFlight && !w.rebranch
        then Some(Doing(w.(inFlight := false, interruptions := n,
                           status := if n >= w.maxFailures then Paused else w.status), []))
        else None
      case Pause(failed) =>
        if Completed(w) then None
        else Some(Doing(w.(status := Paused, inFlight := false, failures := w.failures + if failed then 1 else 0), []))
      case Resume(changed, policy) =>
        if w.status != Paused then None
        else
          var w1 := w.(status := Running, maxFailures := policy.GetOr(w.maxFailures));
          if changed then Some(Doing(Cleared(w1).(failures := 0), [Reset])) else Some(Doing(w1, []))
      case Rebind(_) =>
        if w.status != Running then None
        else Some(Doing(Cleared(w).(failures := 0, inFlight := false), [Reset]))
      case Round(dec, token) => if w.status == Running then Some(Advance(b.source, b.size, w, dec, token)) else None
      case _ => None
  }

  /** Apply a step to the stored branch.  A grant (memory.resume) and a rebranch
      change the row directly; everything else goes through a save. */
  ghost function Apply(b: Branch, step: Step): Branch {
    match step
    case Reclaim(source) =>
      if b.chunk == Kept
      then b.(chunk := Preparing, source := source, work := None, previous := None, revision := b.revision + 1)
      else b
    case Grant(rebranch) =>
      if b.chunk == Preparing && b.work.Some? && b.work.value.status == Paused
      then b.(work := Some(Cleared(b.work.value).(inFlight := false, failures := 0, interruptions := 0, rebranch := rebranch)),
              revision := b.revision + 1, trail := b.trail + [Reset])
      else b
    case Rebranch(source) =>
      if b.chunk == Preparing && b.work.Some? && b.work.value.rebranch
      then b.(previous := b.work, work := None, source := source, revision := b.revision + 1)
      else b
    case _ =>
      match Next(b, step)
      case Some(d) => Save(b, b.revision, d)
      case None => b
  }

  ghost function Exec(source: Bytes, size: nat, steps: seq<Step>): Branch {
    if steps == [] then Branch(source, size, Preparing, None, None, None, 0, [])
    else Apply(Exec(source, size, steps[..|steps| - 1]), steps[|steps| - 1])
  }

  // ---------------------------------------------------------------- invariants

  /** What makes earlier reading out of date: new text, new source, new model. */
  predicate Barrier(h: Happening) { h.Began? || h.Wrote? || h.Reset? }

  ghost predicate Current(trail: seq<Happening>, r: int) {
    0 <= r < |trail| && forall q :: r < q < |trail| ==> !Barrier(trail[q])
  }

  predicate IsSourceRead(h: Happening, x: int) { h.SourceRead? && Reads(h.range, x) }

  predicate IsCandidateRead(h: Happening, v: nat, x: int) { h.CandidateRead? && h.version == v && Reads(h.range, x) }

  /** Byte `x` of the source was read before `n`, and the read is still current. */
  ghost predicate SourceSeen(trail: seq<Happening>, n: int, x: int) {
    exists r :: 0 <= r < n && r < |trail| && IsSourceRead(trail[r], x) && Current(trail, r)
  }

  ghost predicate CandidateSeen(trail: seq<Happening>, n: int, v: nat, x: int) {
    exists r :: 0 <= r < n && r < |trail| && IsCandidateRead(trail[r], v, x) && Current(trail, r)
  }

  ghost predicate WrittenAt(trail: seq<Happening>, at: int, c: Candidate) {
    0 <= at < |trail| && trail[at] == Wrote(c.version, c.text) && forall q :: at < q < |trail| ==> !trail[q].Wrote?
  }

  /** The last write is this candidate. */
  ghost predicate LastWritten(trail: seq<Happening>, c: Option<Candidate>) {
    c.Some? ==> exists at :: WrittenAt(trail, at, c.value)
  }

  /** The recorded ranges are ranges that were read, and still current. */
  ghost predicate SourceReads(trail: seq<Happening>, ranges: seq<Range>) {
    forall p, x :: 0 <= p < |ranges| && Reads(ranges[p], x) ==> SourceSeen(trail, |trail|, x)
  }

  ghost predicate CandidateReads(trail: seq<Happening>, ranges: seq<Range>, v: nat) {
    forall p, x :: 0 <= p < |ranges| && Reads(ranges[p], x) ==> CandidateSeen(trail, |trail|, v, x)
  }

  ghost predicate ReadsCurrent(trail: seq<Happening>, w: Work) {
    && SourceReads(trail, w.sourceRead)
    && (w.candidate.None? ==> w.candidateRead == [])
    && (w.candidate.Some? ==> CandidateReads(trail, w.candidateRead, w.candidate.value.version))
  }

  /** When the review was opened, at `o`, everything had been read. */
  ghost predicate Grounded(source: Bytes, trail: seq<Happening>, o: int, rv: Review) {
    && Current(trail, o) && trail[o] == Opened(rv)
    && (forall x :: 0 <= x < |source| ==> SourceSeen(trail, o, x))
    && (rv.kind == Replace ==> forall x :: 0 <= x < |rv.digest| ==> CandidateSeen(trail, o, rv.version, x))
  }

  ghost predicate ReviewGrounded(source: Bytes, trail: seq<Happening>, w: Work) {
    w.review.Some? ==>
      && (w.review.value.kind == Replace ==> w.candidate == Some(Candidate(w.review.value.digest, w.review.value.version)))
      && exists o :: Grounded(source, trail, o, w.review.value)
  }

  ghost predicate WorkInv(source: Bytes, trail: seq<Happening>, w: Work) {
    && LastWritten(trail, w.candidate) && ReadsCurrent(trail, w) && ReviewGrounded(source, trail, w)
  }

  /** The exact text, written last; every byte of it and of the source read after
      that write; reviewed at that version; confirmed in a strictly later round. */
  ghost predicate Certified(source: Bytes, size: nat, trail: seq<Happening>, text: Bytes) {
    EstTokens(text) < size && exists at, o, c :: CertifiedBy(source, trail, text, at, o, c)
  }

  ghost predicate CertifiedBy(source: Bytes, trail: seq<Happening>, text: Bytes, at: int, o: int, c: int) {
    && at < o < c < |trail| && 0 <= o && trail[o].Opened? && trail[c].Confirmed?
    && var rv := trail[o].review;
       && rv.kind == Replace && rv.digest == text
       && WrittenAt(trail, at, Candidate(text, rv.version))
       && Grounded(source, trail, o, rv)
       && rv.round < trail[c].round
  }

  /** The last Began names the source being read. */
  ghost predicate SourceOf(trail: seq<Happening>, source: Bytes) {
    exists k :: 0 <= k < |trail| && trail[k] == Began(source) && forall q :: k < q < |trail| ==> !trail[q].Began?
  }

  ghost predicate Inv(b: Branch) {
    && (b.work.Some? ==> WorkInv(b.source, b.trail, b.work.value) && SourceOf(b.trail, b.source))
    && (b.previous.Some? && b.work.None? ==> LastWritten(b.trail, b.previous.value.candidate))
    && (b.chunk == Prepared ==>
          b.replacement.Some? && Certified(b.source, b.size, b.trail, b.replacement.value) && SourceOf(b.trail, b.source))
  }

  // ---------------------------------------------------- appending to the trail

  lemma SeenStays(trail: seq<Happening>, h: Happening, n: int, x: int, v: nat)
    requires !Barrier(h)
    ensures SourceSeen(trail, n, x) ==> SourceSeen(trail + [h], n, x)
    ensures CandidateSeen(trail, n, v, x) ==> CandidateSeen(trail + [h], n, v, x)
  {
    var t' := trail + [h];
    if SourceSeen(trail, n, x) {
      var r :| 0 <= r < n && r < |trail| && IsSourceRead(trail[r], x) && Current(trail, r);
      assert IsSourceRead(t'[r], x) && Current(t', r);
    }
    if CandidateSeen(trail, n, v, x) {
      var r :| 0 <= r < n && r < |trail| && IsCandidateRead(trail[r], v, x) && Current(trail, r);
      assert IsCandidateRead(t'[r], v, x) && Current(t', r);
    }
  }

  lemma SeenWidens(trail: seq<Happening>, n: int, m: int, x: int, v: nat)
    requires n <= m
    ensures SourceSeen(trail, n, x) ==> SourceSeen(trail, m, x)
    ensures CandidateSeen(trail, n, v, x) ==> CandidateSeen(trail, m, v, x)
  {
    if SourceSeen(trail, n, x) {
      var r :| 0 <= r < n && r < |trail| && IsSourceRead(trail[r], x) && Current(trail, r);
    }
    if CandidateSeen(trail, n, v, x) {
      var r :| 0 <= r < n && r < |trail| && IsCandidateRead(trail[r], v, x) && Current(trail, r);
    }
  }

  lemma GroundedStays(source: Bytes, trail: seq<Happening>, h: Happening, o: int, rv: Review)
    requires !Barrier(h) && Grounded(source, trail, o, rv)
    ensures Grounded(source, trail + [h], o, rv)
  {
    forall x | 0 <= x < |source| ensures SourceSeen(trail + [h], o, x) { SeenStays(trail, h, o, x, rv.version); }
    if rv.kind == Replace {
      forall x | 0 <= x < |rv.digest| ensures CandidateSeen(trail + [h], o, rv.version, x) {
        SeenStays(trail, h, o, x, rv.version);
      }
    }
  }

  lemma WrittenStays(trail: seq<Happening>, h: Happening, c: Option<Candidate>)
    requires LastWritten(trail, c) && !h.Wrote?
    ensures LastWritten(trail + [h], c)
  {
    if c.Some? {
      var at :| WrittenAt(trail, at, c.value);
      assert WrittenAt(trail + [h], at, c.value);
    }
  }

  lemma ReadsStay(trail: seq<Happening>, h: Happening, w: Work)
    requires ReadsCurrent(trail, w) && !Barrier(h)
    ensures ReadsCurrent(trail + [h], w)
  {
    var t' := trail + [h];
    forall p, x | 0 <= p < |w.sourceRead| && Reads(w.sourceRead[p], x) ensures SourceSeen(t', |t'|, x) {
      SeenStays(trail, h, |trail|, x, 0);
      SeenWidens(t', |trail|, |t'|, x, 0);
    }
    if w.candidate.None? { return; }
    var v := w.candidate.value.version;
    forall p, x | 0 <= p < |w.candidateRead| && Reads(w.candidateRead[p], x) ensures CandidateSeen(t', |t'|, v, x) {
      SeenStays(trail, h, |trail|, x, v);
      SeenWidens(t', |trail|, |t'|, x, v);
    }
  }

  /** Nothing that is not a barrier disturbs what is known. */
  lemma ExtendKeeps(source: Bytes, trail: seq<Happening>, h: Happening, w: Work)
    requires WorkInv(source, trail, w) && !Barrier(h)
    ensures WorkInv(source, trail + [h], w)
  {
    hide Current, Grounded, ReadsCurrent, LastWritten;
    WrittenStays(trail, h, w.candidate);
    ReadsStay(trail, h, w);
    if w.review.Some? {
      var o :| Grounded(source, trail, o, w.review.value);
      GroundedStays(source, trail, h, o, w.review.value);
    }
  }

  // ------------------------------------------------------------- private files

  lemma WriteKeeps(source: Bytes, base: seq<Happening>, d: Doing, text: Bytes)
    ensures WorkInv(source, base + Write(d, text).done, Write(d, text).work)
  {
    var d' := Write(d, text);
    var t := base + d'.done;
    assert t == base + d.done + [Wrote(NextVersion(d.work), text)];
    assert WrittenAt(t, |t| - 1, d'.work.candidate.value);
  }

  lemma SourceReadKeeps(source: Bytes, trail: seq<Happening>, w: Work, range: Range)
    requires WorkInv(source, trail, w)
    ensures WorkInv(source, trail + [SourceRead(range)], w.(sourceRead := w.sourceRead + [range]))
  {
    var h, w' := SourceRead(range), w.(sourceRead := w.sourceRead + [range]);
    var t' := trail + [h];
    ExtendKeeps(source, trail, h, w);
    forall p, x | 0 <= p < |w'.sourceRead| && Reads(w'.sourceRead[p], x) ensures SourceSeen(t', |t'|, x) {
      if p < |w.sourceRead| {
        assert w'.sourceRead[p] == w.sourceRead[p];
      } else {
        assert IsSourceRead(t'[|trail|], x) && Current(t', |trail|);
      }
    }
  }

  lemma CandidateReadKeeps(source: Bytes, trail: seq<Happening>, w: Work, range: Range)
    requires WorkInv(source, trail, w) && w.candidate.Some?
    ensures WorkInv(source, trail + [CandidateRead(w.candidate.value.version, range)],
                    w.(candidateRead := w.candidateRead + [range]))
  {
    var v := w.candidate.value.version;
    var h, w' := CandidateRead(v, range), w.(candidateRead := w.candidateRead + [range]);
    var t' := trail + [h];
    ExtendKeeps(source, trail, h, w);
    forall p, x | 0 <= p < |w'.candidateRead| && Reads(w'.candidateRead[p], x) ensures CandidateSeen(t', |t'|, v, x) {
      if p < |w.candidateRead| {
        assert w'.candidateRead[p] == w.candidateRead[p];
      } else {
        assert IsCandidateRead(t'[|trail|], v, x) && Current(t', |trail|);
      }
    }
  }

  lemma PrivateFileKeeps(source: Bytes, base: seq<Happening>, d: Doing, call: FileCall)
    requires WorkInv(source, base + d.done, d.work)
    ensures WorkInv(source, base + PrivateFile(source, d, call).done, PrivateFile(source, d, call).work)
  {
    hide WorkInv;
    var d' := PrivateFile(source, d, call);
    if d' == d { return; }
    if call.WriteFile? { WriteKeeps(source, base, d, call.text); return; }
    if call.ofSource {
      var r := ReadAt(source, call.offset, call.len);
      assert base + d'.done == base + d.done + [SourceRead((r.start, r.end))];
      SourceReadKeeps(source, base + d.done, d.work, (r.start, r.end));
      return;
    }
    var c := d.work.candidate.value;
    var r := ReadAt(c.text, call.offset, call.len);
    assert base + d'.done == base + d.done + [CandidateRead(c.version, (r.start, r.end))];
    CandidateReadKeeps(source, base + d.done, d.work, (r.start, r.end));
  }

  lemma {:induction false} PrivateFilesKeep(source: Bytes, base: seq<Happening>, d: Doing, calls: seq<FileCall>)
    requires WorkInv(source, base + d.done, d.work)
    ensures WorkInv(source, base + PrivateFiles(source, d, calls).done, PrivateFiles(source, d, calls).work)
    decreases |calls|
  {
    hide WorkInv;
    if calls == [] { return; }
    PrivateFileKeeps(source, base, d, calls[0]);
    PrivateFilesKeep(source, base, PrivateFile(source, d, calls[0]), calls[1..]);
  }

  // ---------------------------------------------------------------- one response

  /** Only the fields the invariant speaks of matter. */
  lemma SameWork(source: Bytes, trail: seq<Happening>, w: Work, w': Work)
    requires WorkInv(source, trail, w)
    requires w'.candidate == w.candidate && w'.candidateRead == w.candidateRead && w'.sourceRead == w.sourceRead
    requires w'.review == w.review
    ensures WorkInv(source, trail, w')
  {
  }

  lemma AllSeen(source: Bytes, trail: seq<Happening>, w: Work, x: int)
    requires WorkInv(source, trail, w)
    ensures AllRead(w.sourceRead, |source|) && 0 <= x < |source| ==> SourceSeen(trail, |trail|, x)
    ensures w.candidate.Some? && AllRead(w.candidateRead, |w.candidate.value.text|) && 0 <= x < |w.candidate.value.text| ==>
              CandidateSeen(trail, |trail|, w.candidate.value.version, x)
  {
    if AllRead(w.sourceRead, |source|) && 0 <= x < |source| {
      assert ReadAtAll(w.sourceRead, x);
    }
    if w.candidate.Some? && AllRead(w.candidateRead, |w.candidate.value.text|) && 0 <= x < |w.candidate.value.text| {
      assert ReadAtAll(w.candidateRead, x);
    }
  }

  lemma OpenKeeps(source: Bytes, trail: seq<Happening>, w: Work, rv: Review)
    requires WorkInv(source, trail, w) && AllRead(w.sourceRead, |source|)
    requires rv.kind == Replace ==>
               && w.candidate == Some(Candidate(rv.digest, rv.version))
               && AllRead(w.candidateRead, |rv.digest|)
    ensures WorkInv(source, trail + [Opened(rv)], w.(review := Some(rv), failures := 0))
  {
    var h, w' := Opened(rv), w.(review := Some(rv), failures := 0);
    var t', o := trail + [h], |trail|;
    WrittenStays(trail, h, w.candidate);
    ReadsStay(trail, h, w);
    assert ReadsCurrent(t', w');
    forall x | 0 <= x < |source| ensures SourceSeen(t', o, x) {
      AllSeen(source, trail, w, x);
      SeenStays(trail, h, o, x, 0);
    }
    if rv.kind == Replace {
      forall x | 0 <= x < |rv.digest| ensures CandidateSeen(t', o, rv.version, x) {
        AllSeen(source, trail, w, x);
        SeenStays(trail, h, o, x, rv.version);
      }
    }
    assert Grounded(source, t', o, rv);
  }

  lemma ControlsKeep(source: Bytes, size: nat, base: seq<Happening>, w: Work, control: Control, token: int)
    requires WorkInv(source, base, w)
    ensures var d := Controls(source, size, Doing(w, []), control, token);
            WorkInv(source, base + d.done, d.work)
  {
    hide WorkInv, AllRead, Blank, EstTokens;
    var d := Controls(source, size, Doing(w, []), control, token);
    assert base + [] == base;
    if d.done == [] {
      SameWork(source, base, w, d.work);
      return;
    }
    match control {
      case OpenReview(version, digest) =>
        var rv := Review(Replace, version, digest, token, w.rounds);
        assert d == Open(Doing(w, []), rv) && d.done == [Opened(rv)];
        assert w.candidate == Some(Candidate(digest, version));
        OpenKeeps(source, base, w, rv);
      case OpenKeep =>
        var rv := Review(Keep, 0, source, token, w.rounds);
        assert d == Open(Doing(w, []), rv) && d.done == [Opened(rv)];
        OpenKeeps(source, base, w, rv);
      case Confirm(_, _, _, _) =>
        assert d.done == [Confirmed(w.rounds)];
        ExtendKeeps(source, base, Confirmed(w.rounds), w);
        SameWork(source, base + [Confirmed(w.rounds)], w, d.work);
    }
  }

  lemma AdvanceKeeps(source: Bytes, size: nat, base: seq<Happening>, w: Work, dec: Decision, token: int)
    requires WorkInv(source, base, w)
    ensures var d := Advance(source, size, w, dec, token); WorkInv(source, base + d.done, d.work)
  {
    hide WorkInv, Controls, PrivateFiles;
    var w1 := w.(rounds := w.rounds + 1, tokens := w.tokens + dec.used, inFlight := false, interruptions := 0);
    SameWork(source, base, w, w1);
    assert base + [] == base;
    if dec.calls != [] {
      var d := PrivateFiles(source, Doing(w1, []), dec.calls);
      PrivateFilesKeep(source, base, Doing(w1, []), dec.calls);
      SameWork(source, base + d.done, d.work, d.work.(failures := 0));
      return;
    }
    ControlsKeep(source, size, base, w1, dec.control, token);
  }

  // ------------------------------------------------------------------ every step

  lemma ClearedKeeps(source: Bytes, trail: seq<Happening>, w: Work)
    requires LastWritten(trail, w.candidate)
    ensures WorkInv(source, trail + [Reset], Cleared(w))
  {
    WrittenStays(trail, Reset, w.candidate);
  }

  lemma BeginKeeps(source: Bytes, trail: seq<Happening>, previous: Option<Work>, maxFailures: nat)
    requires previous.Some? ==> LastWritten(trail, previous.value.candidate)
    ensures WorkInv(source, trail + [Began(source)], Initially(previous, maxFailures))
  {
    if previous.Some? { WrittenStays(trail, Began(source), previous.value.candidate); }
  }

  /** The next checkpoint, if it is saved, keeps what is known. */
  lemma NextKeeps(b: Branch, step: Step)
    requires Inv(b) && Next(b, step).Some?
    ensures var d := Next(b, step).value; WorkInv(b.source, b.trail + d.done, d.work)
  {
    hide WorkInv, Advance, LastWritten, Certified, SourceOf;
    var d := Next(b, step).value;
    assert b.trail + [] == b.trail;
    if b.work.None? {
      BeginKeeps(b.source, b.trail, b.previous, step.maxFailures);
      return;
    }
    var w := b.work.value;
    match step {
      case Round(dec, token) => AdvanceKeeps(b.source, b.size, b.trail, w, dec, token);
      case Rebind(_) =>
        WrittenOf(b.source, b.trail, w);
        ClearedKeeps(b.source, b.trail, w);
        SameWork(b.source, b.trail + [Reset], Cleared(w), d.work);
      case Resume(changed, policy) =>
        WrittenOf(b.source, b.trail, w);
        if changed {
          ClearedKeeps(b.source, b.trail, w);
          SameWork(b.source, b.trail + [Reset], Cleared(w), d.work);
        } else {
          SameWork(b.source, b.trail, w, d.work);
        }
      case _ => SameWork(b.source, b.trail, w, d.work);
    }
  }

  lemma WrittenOf(source: Bytes, trail: seq<Happening>, w: Work)
    requires WorkInv(source, trail, w)
    ensures LastWritten(trail, w.candidate)
  {
  }

  // -------------------------------------------------------- the source in force

  lemma SourceStays(trail: seq<Happening>, more: seq<Happening>, source: Bytes)
    requires SourceOf(trail, source) && forall h :: h in more ==> !h.Began?
    ensures SourceOf(trail + more, source)
  {
    var k :| 0 <= k < |trail| && trail[k] == Began(source) && forall q :: k < q < |trail| ==> !trail[q].Began?;
    assert (trail + more)[k] == Began(source);
  }

  lemma {:induction false} FilesNeverBegin(source: Bytes, d: Doing, calls: seq<FileCall>)
    requires forall h :: h in d.done ==> !h.Began? && !h.Confirmed?
    ensures forall h :: h in PrivateFiles(source, d, calls).done ==> !h.Began? && !h.Confirmed?
    ensures PrivateFiles(source, d, calls).work.status == d.work.status
    decreases |calls|
  {
    if calls == [] { return; }
    FilesNeverBegin(source, PrivateFile(source, d, calls[0]), calls[1..]);
  }

  lemma NextSource(b: Branch, step: Step)
    requires Inv(b) && Next(b, step).Some?
    ensures SourceOf(b.trail + Next(b, step).value.done, b.source)
  {
    hide WorkInv, Certified, LastWritten;
    var d := Next(b, step).value;
    if b.work.None? {
      assert (b.trail + [Began(b.source)])[|b.trail|] == Began(b.source);
      return;
    }
    if step.Round? && step.decision.calls != [] {
      var w := b.work.value;
      var w1 := w.(rounds := w.rounds + 1, tokens := w.tokens + step.decision.used, inFlight := false, interruptions := 0);
      FilesNeverBegin(b.source, Doing(w1, []), step.decision.calls);
    }
    SourceStays(b.trail, d.done, b.source);
  }

  // ----------------------------------------------------------------- completion

  /** Only a confirmation completes a branch. */
  lemma CompletedByConfirm(b: Branch, step: Step)
    requires Next(b, step).Some? && Next(b, step).value.work.status == PreparedDone
    requires b.work.Some? ==> !Completed(b.work.value)
    ensures b.work.Some?
    ensures var d := Next(b, step).value;
            && d.work.review.Some? && d.work.final == d.work.review == b.work.value.review
            && d.work.candidate == b.work.value.candidate
            && d.done == [Confirmed(d.work.rounds)] && d.work.review.value.round < d.work.rounds
  {
    hide AllRead, Blank, EstTokens;
    var w := b.work.value;
    if step.Round? && step.decision.calls != [] {
      var w1 := w.(rounds := w.rounds + 1, tokens := w.tokens + step.decision.used, inFlight := false, interruptions := 0);
      FilesNeverBegin(b.source, Doing(w1, []), step.decision.calls);
    }
  }

  lemma ConfirmCertifies(source: Bytes, size: nat, trail: seq<Happening>, w: Work, round: nat, text: Bytes)
    requires WorkInv(source, trail, w) && w.review.Some? && w.review.value.kind == Replace && w.candidate.Some?
    requires text == w.candidate.value.text && EstTokens(text) < size && w.review.value.round < round
    ensures Certified(source, size, trail + [Confirmed(round)], text)
  {
    var rv := w.review.value;
    var t' := trail + [Confirmed(round)];
    var o :| Grounded(source, trail, o, rv);
    GroundedStays(source, trail, Confirmed(round), o, rv);
    var at :| WrittenAt(trail, at, w.candidate.value);
    assert WrittenAt(t', at, Candidate(text, rv.version));
    assert at < o by {
      assert trail[at].Wrote? && trail[o].Opened?;
    }
    assert CertifiedBy(source, t', text, at, o, |trail|);
  }

  /** A saved checkpoint keeps the branch's invariant: in particular, a chunk
      becomes prepared only certified. */
  lemma SaveKeeps(b: Branch, step: Step)
    requires Inv(b) && Next(b, step).Some? && (b.work.Some? && Completed(b.work.value) ==> b.chunk != Preparing)
    ensures Inv(Save(b, b.revision, Next(b, step).value))
    ensures var b' := Save(b, b.revision, Next(b, step).value);
            b'.work.Some? && Completed(b'.work.value) ==> b'.chunk != Preparing
  {
    hide WorkInv, Certified, SourceOf, Next, EstTokens;
    var d := Next(b, step).value;
    if !MaySave(b, b.revision, d.work) { return; }
    NextKeeps(b, step);
    NextSource(b, step);
    if d.work.status != PreparedDone { return; }
    CompletedByConfirm(b, step);
    ConfirmCertifies(b.source, b.size, b.trail, b.work.value, d.work.rounds, d.work.candidate.value.text);
  }

  ghost predicate BranchInv(b: Branch) {
    Inv(b) && (b.work.Some? && Completed(b.work.value) ==> b.chunk != Preparing)
  }

  lemma StepKeeps(b: Branch, step: Step)
    requires BranchInv(b)
    ensures BranchInv(Apply(b, step))
  {
    hide WorkInv, Certified, SourceOf, Next, LastWritten;
    match step {
      case Reclaim(source) =>
      case Grant(rebranch) => GrantKeeps(b, rebranch);
      case Rebranch(source) => if b.work.Some? { WrittenOf(b.source, b.trail, b.work.value); }
      case _ => if Next(b, step).Some? { SaveKeeps(b, step); }
    }
  }

  lemma GrantKeeps(b: Branch, rebranch: bool)
    requires BranchInv(b)
    ensures BranchInv(Apply(b, Grant(rebranch)))
  {
    hide WorkInv, Certified, SourceOf, LastWritten;
    if b.chunk == Preparing && b.work.Some? && b.work.value.status == Paused {
      var w := b.work.value;
      WrittenOf(b.source, b.trail, w);
      ClearedKeeps(b.source, b.trail, w);
      SameWork(b.source, b.trail + [Reset], Cleared(w),
               Cleared(w).(inFlight := false, failures := 0, interruptions := 0, rebranch := rebranch));
      SourceStays(b.trail, [Reset], b.source);
    }
  }

  lemma {:induction false} RunKeeps(source: Bytes, size: nat, steps: seq<Step>)
    ensures BranchInv(Exec(source, size, steps))
  {
    if steps != [] {
      RunKeeps(source, size, steps[..|steps| - 1]);
      StepKeeps(Exec(source, size, steps[..|steps| - 1]), steps[|steps| - 1]);
    }
  }

  /** On every run of a branch, through pauses, model changes, grants and
      rebranches, a prepared chunk carries exactly a certified text. */
  lemma PreparedIsCertified(source: Bytes, size: nat, steps: seq<Step>)
    requires Exec(source, size, steps).chunk == Prepared
    ensures var b := Exec(source, size, steps);
            && b.replacement.Some?
            && Certified(b.source, b.size, b.trail, b.replacement.value)
            && SourceOf(b.trail, b.source)
  {
    RunKeeps(source, size, steps);
  }

  /** A repeated save of the same checkpoint is accepted and changes nothing; a
      save from an older revision changes nothing either. */
  lemma SaveReplays(b: Branch, d: Doing, other: Doing, stale: nat)
    requires MaySave(b, b.revision, d.work) && stale <= b.revision
    ensures var b' := Save(b, b.revision, d);
            && SaveAccepted(b', b.revision, d.work) && Save(b', b.revision, d) == b'
            && Save(b', stale, other) == b'
  {
  }

  /** A review opened in a saved checkpoint can be confirmed by the next response,
      and then exactly its text is installed. */
  lemma ConfirmPrepares(b: Branch, used: nat, token: int)
    requires BranchInv(b) && b.chunk == Preparing && b.work.Some? && b.work.value.status == Running
    requires var w := b.work.value;
             && w.review.Some? && w.review.value.kind == Replace && w.review.value.round <= w.rounds
             && EstTokens(w.review.value.digest) < b.size
    ensures var rv := b.work.value.review.value;
            var confirm := Decision([], Confirm(rv.version, rv.digest, rv.token, true), used);
            var b' := Apply(b, Round(confirm, token));
            b'.chunk == Prepared && b'.replacement == Some(rv.digest)
  {
    hide Grounded, LastWritten, ReadsCurrent, Certified, SourceOf, EstTokens;
  }

  // ------------------------------------------------------ a branch that prepares

  /** Fits one page. */
  predicate OnePage(bytes: Bytes) { |bytes| <= MAX_LEN && (bytes != [] ==> !Continuation(bytes[0])) }

  lemma ReadsWhole(bytes: Bytes)
    requires OnePage(bytes)
    ensures ReadAt(bytes, 0, MAX_LEN) == Page(0, |bytes|) && AllRead([(0, |bytes|)], |bytes|)
  {
    assert forall x :: 0 <= x < |bytes| ==> Reads([(0, |bytes|)][0], x);
  }

  /** Draft and read both files; open the review; confirm it. */
  function DraftRound(text: Bytes): Step {
    Round(Decision([WriteFile(None, text, false), ReadFile(true, 0, MAX_LEN), ReadFile(false, 0, MAX_LEN)], Garbled, 0), 0)
  }

  function Preparation(text: Bytes, token: int): seq<Step> {
    [Begin(3), DraftRound(text), Round(Decision([], OpenReview(1, text), 0), token),
     Round(Decision([], Confirm(1, text, token, true), 0), 0)]
  }

  lemma FilesOneByOne(source: Bytes, d: Doing, a: FileCall, b: FileCall, c: FileCall)
    ensures PrivateFiles(source, d, [a, b, c]) == PrivateFile(source, PrivateFile(source, PrivateFile(source, d, a), b), c)
  {
    hide PrivateFile;
    var d1 := PrivateFile(source, d, a);
    var d2 := PrivateFile(source, d1, b);
    var d3 := PrivateFile(source, d2, c);
    assert [a, b, c][1..] == [b, c] && [b, c][1..] == [c] && [c][1..] == [];
    assert PrivateFiles(source, d3, []) == d3;
    assert PrivateFiles(source, d2, [c]) == d3;
    assert PrivateFiles(source, d1, [b, c]) == d3;
  }

  function Drafted(source: Bytes, text: Bytes, w: Work): Work {
    w.(candidate := Some(Candidate(text, 1)), sourceRead := [(0, |source|)], candidateRead := [(0, |text|)], review := None)
  }

  lemma DraftsAndReads(source: Bytes, text: Bytes, w: Work)
    requires OnePage(source) && OnePage(text) && w.candidate.None?
    ensures var d := PrivateFiles(source, Doing(w, []), [WriteFile(None, text, false), ReadFile(true, 0, MAX_LEN), ReadFile(false, 0, MAX_LEN)]);
            d.work == Drafted(source, text, w)
  {
    ReadsWhole(source);
    ReadsWhole(text);
    var a, b, c := WriteFile(None, text, false), ReadFile(true, 0, MAX_LEN), ReadFile(false, 0, MAX_LEN);
    FilesOneByOne(source, Doing(w, []), a, b, c);
    hide ReadAt, PrivateFiles;
    var d1 := PrivateFile(source, Doing(w, []), a);
    assert d1.work == w.(candidate := Some(Candidate(text, 1)), sourceRead := [], candidateRead := [], review := None);
    var d2 := PrivateFile(source, d1, b);
    assert d2.work == d1.work.(sourceRead := [(0, |source|)]);
    var d3 := PrivateFile(source, d2, c);
    assert d3.work == d2.work.(candidateRead := [(0, |text|)]);
  }

  lemma AfterDraft(source: Bytes, size: nat, text: Bytes)
    requires OnePage(source) && OnePage(text)
    ensures var b := Apply(Apply(Branch(source, size, Preparing, None, None, None, 0, []), Begin(3)), DraftRound(text));
            b.source == source && b.size == size && Reviewable(b, text)
  {
    hide ReadAt, PrivateFiles;
    var b1 := Apply(Branch(source, size, Preparing, None, None, None, 0, []), Begin(3));
    assert b1.work == Some(Initially(None, 3)) && b1.chunk == Preparing;
    DraftsAndReads(source, text, Initially(None, 3).(rounds := 1));
  }

  /** A running checkpoint that took nothing back is saved. */
  lemma RunningSaves(b: Branch, step: Step, d: Doing)
    requires step.Round? && Next(b, step) == Some(d) && b.chunk == Preparing && b.work.Some? && d.work.status == Running
    requires var w := b.work.value; w.calls <= d.work.calls && w.rounds <= d.work.rounds && w.tokens <= d.work.tokens
    ensures Apply(b, step) == b.(work := Some(d.work), revision := b.revision + 1, trail := b.trail + d.done)
  {
    hide Next, MayComplete;
  }

  predicate Reviewable(b: Branch, text: Bytes) {
    b.chunk == Preparing && b.work == Some(Drafted(b.source, text, Initially(None, 3)).(rounds := 1))
  }

  lemma AfterReview(b: Branch, text: Bytes, token: int)
    requires Reviewable(b, text) && OnePage(b.source) && OnePage(text) && !Blank(text) && EstTokens(text) < b.size
    ensures var b' := Apply(b, Round(Decision([], OpenReview(1, text), 0), token));
            && b'.chunk == Preparing && b'.size == b.size
            && b'.work == Some(b.work.value.(rounds := 2, review := Some(Review(Replace, 1, text, token, 2))))
  {
    hide Blank, EstTokens, Next, Apply, AllRead;
    var w, w1 := b.work.value, b.work.value.(rounds := 2);
    var rv, step := Review(Replace, 1, text, token, 2), Round(Decision([], OpenReview(1, text), 0), token);
    var d := Doing(w1.(review := Some(rv)), [Opened(rv)]);
    assert MayReview(b.source, w1, 1, text) by {
      ReadsWhole(b.source);
      ReadsWhole(text);
    }
    OpensReview(b.source, b.size, w1, text, token);
    NextControls(b, OpenReview(1, text), token);
    RunningSaves(b, step, d);
  }

  lemma NextControls(b: Branch, control: Control, token: int)
    requires b.work.Some? && b.work.value.status == Running && !b.work.value.inFlight && b.work.value.interruptions == 0
    ensures var w := b.work.value;
            Next(b, Round(Decision([], control, 0), token))
            == Some(Controls(b.source, b.size, Doing(w.(rounds := w.rounds + 1), []), control, token))
  {
    hide Controls;
    var w := b.work.value;
    assert w.(rounds := w.rounds + 1, tokens := w.tokens + 0, inFlight := false, interruptions := 0) == w.(rounds := w.rounds + 1);
  }

  lemma OpensReview(source: Bytes, size: nat, w: Work, text: Bytes, token: int)
    requires MayReview(source, w, 1, text) && EstTokens(text) < size && w.failures == 0
    ensures var rv := Review(Replace, 1, text, token, w.rounds);
            Controls(source, size, Doing(w, []), OpenReview(1, text), token) == Doing(w.(review := Some(rv)), [Opened(rv)])
  {
    hide AllRead, Blank, EstTokens;
  }

  /** Every draft that is smaller than what it replaces, and not blank, can be
      prepared: written and read with its source, reviewed, and confirmed in the
      next round. */
  lemma DraftIsPrepared(source: Bytes, size: nat, text: Bytes, token: int)
    requires OnePage(source) && OnePage(text) && !Blank(text) && EstTokens(text) < size
    ensures var b := Exec(source, size, Preparation(text, token)); b.chunk == Prepared && b.replacement == Some(text)
  {
    var run := Preparation(text, token);
    AfterDraft(source, size, text);
    var b2 := Apply(Apply(Branch(source, size, Preparing, None, None, None, 0, []), Begin(3)), DraftRound(text));
    AfterReview(b2, text, token);
    var b3 := Apply(b2, run[2]);
    Exec4(source, size, run);
    RunKeeps(source, size, run[..3]);
    hide Apply, Exec, BranchInv, EstTokens;
    ConfirmPrepares(b3, 0, 0);
  }

  lemma Exec4(source: Bytes, size: nat, run: seq<Step>)
    requires |run| == 4
    ensures var b3 := Apply(Apply(Apply(Branch(source, size, Preparing, None, None, None, 0, []), run[0]), run[1]), run[2]);
            Exec(source, size, run[..3]) == b3 && Exec(source, size, run) == Apply(b3, run[3])
  {
    hide Apply;
    assert run[..1][..0] == [] && run[..2][..1] == run[..1] && run[..3][..2] == run[..2] && run[..4] == run;
    assert Exec(source, size, run[..0]) == Branch(source, size, Preparing, None, None, None, 0, []);
    assert Exec(source, size, run[..1]) == Apply(Exec(source, size, run[..0]), run[0]);
    assert Exec(source, size, run[..2]) == Apply(Exec(source, size, run[..1]), run[1]);
    assert Exec(source, size, run[..3]) == Apply(Exec(source, size, run[..2]), run[2]);
  }

  lemma LetterEncodes(c: Scalar)
    requires EncodeOne(c) == [66]
    ensures c == 66
  {
    assert |EncodeOne(c)| == 1;
  }

  lemma LetterEnds(chars: seq<Scalar>)
    requires Encode(chars) == [66]
    ensures chars != [] && chars[|chars| - 1] == 66
  {
    var n := |chars| - 1;
    var init, last := Encode(chars[..n]), EncodeOne(chars[n]);
    assert Encode(chars) == init + last;
    hide Encode, EncodeOne;
    assert |init| + |last| == 1 && init == [] && init + last == last;
    LetterEncodes(chars[n]);
  }

  lemma LetterNotBlank()
    ensures !Blank([66])
  {
    forall chars | Encode(chars) == [66] ensures exists k :: 0 <= k < |chars| && !White(chars[k]) {
      hide Encode;
      LetterEnds(chars);
      assert !White(chars[|chars| - 1]);
    }
  }

  /** One letter is prepared in the place of a hundred tokens. */
  lemma LetterIsPrepared()
    ensures var b := Exec([65], 100, Preparation([66], 7)); b.chunk == Prepared && b.replacement == Some([66])
  {
    LetterNotBlank();
    assert EstTokens([66]) == 1;
    hide Blank, Exec;
    DraftIsPrepared([65], 100, [66], 7);
  }

  // ----------------------------------------------------------- a branch that keeps

  /** A review to keep, opened in a saved checkpoint, can be confirmed by the next
      response, and then the chunk is kept as it is. */
  lemma ConfirmKeepsRaw(b: Branch, used: nat, token: int)
    requires b.chunk == Preparing && b.work.Some? && b.work.value.status == Running
    requires var w := b.work.value; w.review.Some? && w.review.value.kind == Keep && w.review.value.round <= w.rounds
    ensures var rv := b.work.value.review.value;
            var confirm := Decision([], Confirm(rv.version, rv.digest, rv.token, true), used);
            var b' := Apply(b, Round(confirm, token));
            b'.chunk == Kept && b'.replacement == b.replacement
  {
    hide EstTokens;
  }

  /** Read the source; open the review to keep; confirm it. */
  function Keeping(source: Bytes, token: int): seq<Step> {
    [Begin(3), Round(Decision([ReadFile(true, 0, MAX_LEN)], Garbled, 0), 0), Round(Decision([], OpenKeep, 0), token),
     Round(Decision([], Confirm(0, source, token, true), 0), 0)]
  }

  predicate SourceWasRead(b: Branch) {
    b.chunk == Preparing && b.work == Some(Initially(None, 3).(sourceRead := [(0, |b.source|)], rounds := 1))
  }

  lemma ReadsSource(source: Bytes, w: Work)
    requires OnePage(source) && w.sourceRead == []
    ensures PrivateFiles(source, Doing(w, []), [ReadFile(true, 0, MAX_LEN)]).work == w.(sourceRead := [(0, |source|)])
  {
    ReadsWhole(source);
    var call := ReadFile(true, 0, MAX_LEN);
    var d := PrivateFile(source, Doing(w, []), call);
    hide ReadAt;
    assert d.work == w.(sourceRead := [(0, |source|)]);
    assert [call][1..] == [];
    assert PrivateFiles(source, Doing(w, []), [call]) == PrivateFiles(source, d, []);
  }

  lemma AfterReading(source: Bytes, size: nat)
    requires OnePage(source)
    ensures var b := Apply(Apply(Branch(source, size, Preparing, None, None, None, 0, []), Begin(3)), Keeping(source, 0)[1]);
            b.source == source && SourceWasRead(b) && b.replacement.None?
  {
    hide ReadAt, PrivateFiles;
    var b1 := Apply(Branch(source, size, Preparing, None, None, None, 0, []), Begin(3));
    assert b1.work == Some(Initially(None, 3)) && b1.chunk == Preparing;
    ReadsSource(source, Initially(None, 3).(rounds := 1));
  }

  lemma AfterOpenKeep(b: Branch, token: int)
    requires SourceWasRead(b) && OnePage(b.source)
    ensures var b' := Apply(b, Round(Decision([], OpenKeep, 0), token));
            && b'.chunk == Preparing && b'.replacement == b.replacement
            && b'.work == Some(b.work.value.(rounds := 2, review := Some(Review(Keep, 0, b.source, token, 2))))
  {
    hide Next, Apply, AllRead;
    var w1, rv := b.work.value.(rounds := 2), Review(Keep, 0, b.source, token, 2);
    var d := Doing(w1.(review := Some(rv)), [Opened(rv)]);
    assert AllRead(w1.sourceRead, |b.source|) by { ReadsWhole(b.source); }
    assert Controls(b.source, b.size, Doing(w1, []), OpenKeep, token) == d;
    NextControls(b, OpenKeep, token);
    RunningSaves(b, Round(Decision([], OpenKeep, 0), token), d);
  }

  /** Every chunk can be kept: its source read, the review to keep opened, and
      confirmed in the next round; it then has no replacement. */
  lemma ChunkIsKept(source: Bytes, size: nat, token: int)
    requires OnePage(source)
    ensures var b := Exec(source, size, Keeping(source, token)); b.chunk == Kept && b.replacement.None?
  {
    var run := Keeping(source, token);
    AfterReading(source, size);
    var b2 := Apply(Apply(Branch(source, size, Preparing, None, None, None, 0, []), run[0]), run[1]);
    assert b2.source == source && SourceWasRead(b2) && b2.replacement.None?;
    AfterOpenKeep(b2, token);
    var b3 := Apply(b2, run[2]);
    Exec4(source, size, run);
    hide Apply, Exec;
    ConfirmKeepsRaw(b3, 0, 0);
  }

  /** A response that is no control counts as a failure, and pauses the branch exactly
      when that makes as many in a row as are allowed. */
  lemma GarbledCounts(b: Branch, token: int)
    requires b.chunk == Preparing && b.work.Some? && b.work.value.status == Running
    ensures var w, b' := b.work.value, Apply(b, Round(Decision([], Garbled, 0), token));
            && b'.work.Some? && b'.work.value.failures == w.failures + 1 && b'.chunk == Preparing
            && (b'.work.value.status == Paused <==> w.failures + 1 >= w.maxFailures)
            && b'.work.value.review == w.review && b'.work.value.candidate == w.candidate
  {
    hide EstTokens;
  }

  // ------------------------------------------------------------ what is answered

  /** A draft is written exactly over the version it expects, within two megabytes and
      without a NUL; it then is the next version, and nothing of it has been read. */
  lemma WriteAnswers(source: Bytes, d: Doing, expected: Option<nat>, text: Bytes, nul: bool)
    ensures var d', c := PrivateFile(source, d, WriteFile(expected, text, nul)), d.work.candidate;
            if |text| <= 2_097_152 && !nul && (if c.Some? then expected == Some(c.value.version) else expected.None?)
            then && d'.work.candidate == Some(Candidate(text, if c.Some? then c.value.version + 1 else 1))
                 && d'.work.sourceRead == [] && d'.work.candidateRead == [] && d'.work.review.None?
            else d' == d
  {
  }

  /** A change of model, resuming under another one, and a grant void every read, the
      open review and its confirmation. */
  lemma ModelChangeVoids(b: Branch, step: Step)
    requires b.chunk == Preparing && b.work.Some?
    requires || (step.Rebind? && b.work.value.status == Running) || (step.Grant? && b.work.value.status == Paused)
             || (step.Resume? && step.changedBinding && b.work.value.status == Paused)
    ensures var b' := Apply(b, step);
            && b'.work.Some? && b'.revision == b.revision + 1
            && b'.work.value.sourceRead == [] && b'.work.value.candidateRead == [] && b'.work.value.review.None? && b'.work.value.final.None?
            && b'.work.value.candidate == b.work.value.candidate
  {
    hide EstTokens;
  }

  /** A crash in the middle of a round is counted, and pauses the branch exactly when
      that makes as many in a row as are allowed. */
  lemma InterruptionCounts(b: Branch)
    requires b.chunk == Preparing && b.work.Some? && !Completed(b.work.value) && b.work.value.inFlight && !b.work.value.rebranch
    ensures var w, b' := b.work.value, Apply(b, Interrupted);
            && b'.work.Some? && b'.work.value.interruptions == w.interruptions + 1 && !b'.work.value.inFlight
            && (w.status == Running ==> (b'.work.value.status == Paused <==> w.interruptions + 1 >= w.maxFailures))
            && b'.work.value.candidate == w.candidate && b'.work.value.review == w.review && b'.work.value.sourceRead == w.sourceRead
  {
    hide EstTokens;
  }

  /** A paused branch has one more failure exactly when it was paused for one; resumed
      under the same model it goes on with what it read and opened, under the limit
      now in force. */
  lemma PausedGoesOn(b: Branch, failed: bool, policy: Option<nat>)
    requires b.chunk == Preparing && b.work.Some? && !Completed(b.work.value)
    ensures var w := b.work.value;
            var paused := Apply(b, Pause(failed));
            var resumed := Apply(paused, Resume(false, policy));
            && paused.work == Some(w.(status := Paused, inFlight := false, failures := if failed then w.failures + 1 else w.failures))
            && resumed.work == Some(paused.work.value.(status := Running, maxFailures := if policy.Some? then policy.value else w.maxFailures))
            && resumed.revision == b.revision + 2 && resumed.chunk == Preparing
  {
    hide EstTokens;
  }

  lemma {:induction false} FilesCount(source: Bytes, d: Doing, calls: seq<FileCall>)
    ensures var w := PrivateFiles(source, d, calls).work;
            w.rounds == d.work.rounds && w.tokens == d.work.tokens && w.calls == d.work.calls && w.status == d.work.status
            && w.interruptions == d.work.interruptions
    decreases |calls|
  {
    if calls != [] { FilesCount(source, PrivateFile(source, d, calls[0]), calls[1..]); }
  }

  /** A round of file calls ends a row of failures and of interruptions. */
  lemma FilesForgive(b: Branch, dec: Decision, token: int)
    requires b.chunk == Preparing && b.work.Some? && b.work.value.status == Running && dec.calls != []
    ensures var w, b' := b.work.value, Apply(b, Round(dec, token));
            && b'.work.Some? && b'.work.value.failures == 0 && b'.work.value.interruptions == 0
            && b'.work.value.rounds == w.rounds + 1 && b'.work.value.tokens == w.tokens + dec.used
            && b'.work.value.status == Running && b'.revision == b.revision + 1
  {
    hide EstTokens, PrivateFiles;
    var w := b.work.value;
    var w1 := w.(rounds := w.rounds + 1, tokens := w.tokens + dec.used, inFlight := false, interruptions := 0);
    FilesCount(b.source, Doing(w1, []), dec.calls);
  }

  /** A branch taken up again from another view starts with the draft it had, and with
      nothing read, reviewed or counted. */
  lemma RebranchCarriesDraft(b: Branch, source: Bytes, maxFailures: nat)
    requires b.chunk == Preparing && b.work.Some? && b.work.value.rebranch
    ensures var b' := Apply(Apply(b, Rebranch(source)), Begin(maxFailures));
            && b'.source == source && b'.chunk == Preparing && b'.work.Some?
            && var w := b'.work.value;
               && w.candidate == b.work.value.candidate && w.status == Running && !w.rebranch && w.maxFailures == maxFailures
               && w.sourceRead == [] && w.candidateRead == [] && w.review.None? && w.final.None?
               && w.rounds == w.calls == w.tokens == w.failures == w.interruptions == 0
  {
    hide EstTokens;
  }

  /** No save takes a count of a branch back. */
  lemma SavesForward(b: Branch, revision: nat, d: Doing)
    requires b.work.Some? && Save(b, revision, d) != b
    ensures var w := b.work.value;
            && d.work.rounds >= w.rounds && d.work.calls >= w.calls && d.work.tokens >= w.tokens
            && revision == b.revision && Save(b, revision, d).revision == revision + 1 && Save(b, revision, d).work == Some(d.work)
  {
    hide EstTokens;
  }

  /** A review to replace is of a text that is not blank. */
  ghost predicate SpeaksOf(w: Option<Work>) {
    w.Some? && w.value.review.Some? && w.value.review.value.kind == Replace ==> !Blank(w.value.review.value.digest)
  }

  ghost predicate NotBlank(b: Branch) {
    SpeaksOf(b.work) && (b.chunk == Prepared && b.replacement.Some? ==> !Blank(b.replacement.value))
  }

  lemma {:induction false} FilesReview(source: Bytes, d: Doing, calls: seq<FileCall>)
    ensures var d' := PrivateFiles(source, d, calls); d'.work.review.None? || d'.work.review == d.work.review
    decreases |calls|
  {
    if calls != [] { FilesReview(source, PrivateFile(source, d, calls[0]), calls[1..]); }
  }

  lemma NextSpeaks(b: Branch, step: Step)
    requires SpeaksOf(b.work) && Next(b, step).Some?
    ensures SpeaksOf(Some(Next(b, step).value.work))
  {
    hide Blank, AllRead, EstTokens, ReadAt;
    if b.work.None? { return; }
    var w := b.work.value;
    if step.Round? && step.decision.calls != [] {
      var w1 := w.(rounds := w.rounds + 1, tokens := w.tokens + step.decision.used, inFlight := false, interruptions := 0);
      FilesReview(b.source, Doing(w1, []), step.decision.calls);
    }
  }

  lemma StepNotBlank(b: Branch, step: Step)
    requires NotBlank(b)
    ensures NotBlank(Apply(b, step))
  {
    hide Blank, Next, EstTokens;
    if Next(b, step).Some? { NextSpeaks(b, step); }
  }

  /** On every run what is prepared is not blank. */
  lemma {:induction false} PreparedIsNotBlank(source: Bytes, size: nat, steps: seq<Step>)
    ensures NotBlank(Exec(source, size, steps))
  {
    hide Apply, Blank;
    if steps == [] { return; }
    PreparedIsNotBlank(source, size, steps[..|steps| - 1]);
    StepNotBlank(Exec(source, size, steps[..|steps| - 1]), steps[|steps| - 1]);
  }
}
