/**
 `upload_files` as imperative code for one request among others (src/api/routes/files.py:70-147): at
 every await other requests go on, and the awaited call may raise. Every call is proved to be a trace
 of the interleaved uploads.
 */
module UploadHandler {
  import opened Prelude
  import opened Upload
  import opened UploadRequest

  class Service {
    const settings: Settings
    const checksum: string -> string
    var docs: map<DocId, DocKey>
    var queue: seq<DocId>
    /** The open requests with their transactions. */
    var open: map<ReqId, Request>
    var drawn: set<DocId>

    function Abs(): State
      reads this
    {
      State(docs, open, queue, drawn)
    }

    constructor (settings: Settings, checksum: string -> string)
      ensures this.settings == settings && this.checksum == checksum
      ensures Abs() == EMPTY
    {
      this.settings, this.checksum := settings, checksum;
      docs, queue, open, drawn := map[], [], map[], {};
    }

    /** An `await` of request `r`: other requests go on. */
    method Await(r: ReqId, ghost draw: nat -> DocId, events: seq<Event>)
      requires Inv(Abs()) && r in Abs().open && Foreign(events, r, draw)
      modifies this
      ensures Abs() == Run(old(Abs()), events) && Inv(Abs()) && Undisturbed(old(Abs()), Abs(), r)
      ensures forall j :: draw(j) in Abs().drawn ==> draw(j) in old(Abs()).drawn
    {
      ForeignRun(Abs(), r, draw, events);
      var t := Run(Abs(), events);
      docs, open, queue, drawn := t.docs, t.open, t.queue, t.drawn;
    }

    /** `by_checksum`: the transaction sees what is committed and its own rows. */
    method ByChecksum(added: seq<New>, key: DocKey) returns (found: Option<DocId>)
      ensures found.Some? ==> (found.value in docs && docs[found.value] == key) || New(found.value, key) in added
      ensures found.Some? <==> Committed(docs, key) || exists i :: 0 <= i < |added| && added[i].key == key
    {
      NotCommitted(docs, key);
      var matching := set d | d in docs && docs[d] == key;
      if matching != {} {
        var d :| d in matching;
        return Some(d);
      }
      assert forall d :: d in docs && docs[d] == key ==> d in matching;
      found := None;
      for i := 0 to |added|
        invariant found == None && forall j :: 0 <= j < i ==> added[j].key != key
      {
        if added[i].key == key {
          assert added[i] == New(added[i].doc, key);
          return Some(added[i].doc);
        }
      }
    }

    /** An exception before the commit: the transaction is rolled back. */
    method RollBack(r: ReqId, ghost s: State, ghost trace: seq<Event>) returns (ghost more: seq<Event>)
      requires r in Abs().open && Uncommitted(Abs().open[r]) && Abs() == Run(s, trace) && Inv(Abs())
      modifies this`open
      ensures more == trace + [Fail(r)] && Abs() == Run(s, more) && Inv(Abs())
      ensures Abs() == WithoutRequest(old(Abs()), r)
    {
      more := trace + [Fail(r)];
      RunSnoc(s, trace, Fail(r));
      FailKeepsInv(Abs(), r);
      open := open - {r};
    }

    /** Lines 119-133: a new document is stored and its row inserted. The insert waits for other
        uncommitted rows with the same key; if it still waits after all that happens meanwhile, it is
        cut off, and if such a row has been committed, it violates the unique key. */
    method AddNew(r: ReqId, i: nat, new_: New, ghost draw: nat -> DocId, w: World)
      returns (ok: bool, ghost trace: seq<Event>)
      requires Inv(Abs()) && r in open && open[r].phase == Inserting(new_) && ForeignWorld(w, r, draw)
      modifies this
      ensures Abs() == Run(old(Abs()), trace) && Inv(Abs())
      ensures ok ==> r in open && open[r] == old(open[r]).(added := old(open[r]).added + [new_], phase := Reading)
      ensures ok ==> Grows(old(docs), docs)
      ensures !ok ==> r !in open && forall d :: Carries(old(open[r]), d) ==> d !in docs && d !in queue
      ensures forall j :: draw(j) in drawn ==> draw(j) in old(drawn)
      ensures Calm(w) && !Blocked(old(Abs()), r, new_.key) && !Committed(old(docs), new_.key) ==>
                ok && docs == old(docs) && queue == old(queue) && open == old(open)[r := open[r]]
    {
      ghost var s := Abs();
      trace := w.others(Storing(i));
      Await(r, draw, w.others(Storing(i)));
      hide Run, Undisturbed;
      assert r in open && open[r] == s.open[r] && Grows(s.docs, docs) by { UndisturbedMeans(s, Abs(), r); }
      OwnAreUncommitted(s, Abs(), r);
      RunNothing(s);
      if w.raises(Storing(i)) || Blocked(Abs(), r, new_.key) {
        trace := RollBack(r, s, trace);
        return false, trace;
      }
      RunSnoc(s, trace, Insert(r));
      trace := trace + [Insert(r)];
      InsertKeepsInv(Abs(), r);
      if new_.key in docs.Values {
        open := open - {r};
        ok := false;
      } else {
        open := open[r := Request(open[r].tenant, open[r].added + [new_], Reading)];
        ok := true;
      }
    }

    /** Lines 93-109: the file is read and checked. */
    method ReadFile(r: ReqId, tenant: nat, f: File, i: nat, ghost draw: nat -> DocId, w: World)
      returns (failure: Option<Turn>, ghost trace: seq<Event>)
      requires Inv(Abs()) && Between(Abs(), r, tenant, draw) && ForeignWorld(w, r, draw)
      modifies this
      ensures Abs() == Run(old(Abs()), trace) && Inv(Abs()) && Grows(old(docs), docs)
      ensures failure.None? ==> Between(Abs(), r, tenant, draw) && open[r] == old(open[r]) && Refusal(settings, f).None?
      ensures failure.None? ==> GoodFile(settings, f)
      ensures failure.Some? && failure.value.Refusing? ==> BadFile(settings, f, failure.value.status)
      ensures failure.Some? ==> r !in open && NoTrace(Abs(), draw)
      ensures failure.Some? ==>
                || failure.value.Raised?
                || (failure.value.Refusing? && Refusal(settings, f) == Some(failure.value.status))
      ensures Calm(w) ==> docs == old(docs) && queue == old(queue) && drawn == old(drawn) && failure != Some(Raised)
      ensures Calm(w) ==> open == if failure.None? then old(open) else old(open) - {r}
    {
      ghost var s := Abs();
      trace := w.others(ReadingFile(i));
      Await(r, draw, w.others(ReadingFile(i)));
      BetweenLater(s, Abs(), r, tenant, draw);
      UndisturbedMeans(s, Abs(), r);
      RunNothing(s);
      hide Run, Undisturbed, Inv, Refusal, Grows;
      BetweenLeavesNoTrace(Abs(), r, tenant, draw);
      if w.raises(ReadingFile(i)) {
        trace := RollBack(r, s, trace);
        return Some(Raised), trace;
      }
      RefusalIff(settings, f);
      hide GoodFile, BadFile;
      var refusal := Refusal(settings, f);
      if refusal.Some? {
        trace := RollBack(r, s, trace);
        return Some(Refusing(refusal.value)), trace;
      }
      failure := None;
    }

    /** Lines 111-136: the file is looked up, and added when it is new. */
    method EnterFile(r: ReqId, tenant: nat, sum: string, i: nat, draw: nat -> DocId, w: World)
      returns (turn: Turn, ghost trace: seq<Event>)
      requires Inv(Abs()) && Between(Abs(), r, tenant, draw) && ForeignWorld(w, r, draw) && AllDistinct(draw)
      modifies this
      ensures Abs() == Run(old(Abs()), trace) && Inv(Abs()) && !turn.Refusing?
      ensures turn.Answered? ==> Between(Abs(), r, tenant, draw) && Grows(old(docs), docs)
      ensures turn.Answered? ==> old(open[r]).added <= open[r].added
      ensures turn.Answered? ==> Sees(Abs(), r, turn.doc, DocKey(tenant, sum))
      ensures turn.Raised? ==> r !in open && NoTrace(Abs(), draw)
      ensures turn.Answered? && Committed(old(docs), DocKey(tenant, sum)) ==> open[r].added == old(open[r]).added
      ensures Calm(w) && !Blocked(old(Abs()), r, DocKey(tenant, sum)) ==>
                turn.Answered? && docs == old(docs) && queue == old(queue) && open == old(open)[r := open[r]]
    {
      hide Run, Inv, Blocked, Committed, Grows;
      ghost var s := Abs();
      var key := DocKey(tenant, sum);
      var id := draw(|open[r].added|);
      var found := ByChecksum(open[r].added, key);
      trace := [Lookup(r, sum, id)];
      RunOne(s, Lookup(r, sum, id));
      LookupKeepsInv(Abs(), r, sum, id);
      GrowsSame(docs);
      if found.Some? {
        return Answered(found.value), trace;
      }
      ghost var own := open[r];
      drawn := drawn + {id};
      open := open[r := open[r].(phase := Inserting(New(id, key)))];
      ghost var middle := Abs();
      BlockedSame(s, middle, r, key);
      var ok;
      ghost var more;
      ok, more := AddNew(r, i, New(id, key), draw, w);
      RunConcat(s, trace, more);
      trace := trace + more;
      if ok {
        OneMoreRow(Abs(), r, tenant, draw, own.added, New(id, key));
        turn := Answered(id);
      } else {
        FailedLeavesNoTrace(middle, Abs(), r, draw, own.added, New(id, key));
        turn := Raised;
      }
    }

    /** Lines 92-136: one file is read, checked, looked up and, when it is new, added. */
    method TakeFile(r: ReqId, tenant: nat, f: File, i: nat, draw: nat -> DocId, w: World)
      returns (turn: Turn, ghost trace: seq<Event>)
      requires Inv(Abs()) && Between(Abs(), r, tenant, draw) && ForeignWorld(w, r, draw) && AllDistinct(draw)
      modifies this
      ensures Abs() == Run(old(Abs()), trace) && Inv(Abs())
      ensures turn.Answered? ==> Between(Abs(), r, tenant, draw) && Grows(old(Abs()).docs, Abs().docs)
      ensures turn.Answered? ==> r in Abs().open && old(Abs()).open[r].added <= Abs().open[r].added
      ensures turn.Answered? ==> Sees(Abs(), r, turn.doc, DocKey(tenant, checksum(f.data)))
      ensures turn.Answered? ==> Refusal(settings, f).None?
      ensures turn.Refusing? ==> Refusal(settings, f) == Some(turn.status)
      ensures !turn.Answered? ==> r !in Abs().open && NoTrace(Abs(), draw)
      ensures turn.Answered? && Committed(old(Abs()).docs, DocKey(tenant, checksum(f.data))) ==>
                Abs().open[r].added == old(Abs()).open[r].added
      ensures Calm(w) && !Blocked(old(Abs()), r, DocKey(tenant, checksum(f.data))) ==>
                && !turn.Raised?
                && (turn.Answered? ==> Still(old(Abs()), Abs(), r))
                && (turn.Refusing? ==> Closed(old(Abs()), Abs(), r))
    {
      hide Run, Inv, Between, NoTrace, Committed, Refusal, Grows, Sees, Blocked;
      ghost var s := Abs();
      var failure;
      failure, trace := ReadFile(r, tenant, f, i, draw, w);
      if failure.Some? {
        return failure.value, trace;
      }
      ghost var middle := Abs();
      ghost var more;
      GrowsCommitted(s.docs, docs, DocKey(tenant, checksum(f.data)));
      turn, more := EnterFile(r, tenant, checksum(f.data), i, draw, w);
      if turn.Answered? {
        BetweenIsOpen(Abs(), r, tenant, draw);
        GrowsTrans(s.docs, middle.docs, docs);
      }
      RunConcat(s, trace, more);
      trace := trace + more;
    }

    /** Lines 92-136: one turn of the loop, with what the request has so far. */
    method NextFile(ghost s: State, ghost trace: seq<Event>, r: ReqId, tenant: nat, files: seq<File>, i: nat,
                    outDocs: seq<DocId>, draw: nat -> DocId, w: World, ghost calm: bool)
      returns (failure: Option<Response>, moreDocs: seq<DocId>, ghost longer: seq<Event>)
      requires Inv(Abs()) && Abs() == Run(s, trace) && i < |files|
      requires ForeignWorld(w, r, draw) && AllDistinct(draw)
      requires Progress(settings, checksum, s, Abs(), r, tenant, draw, files, i, outDocs)
      requires calm ==> Calm(w) && Still(s, Abs(), r) && !Blocked(s, r, DocKey(tenant, checksum(files[i].data)))
      modifies this
      ensures Inv(Abs()) && Abs() == Run(s, longer)
      ensures failure.None? ==> Progress(settings, checksum, s, Abs(), r, tenant, draw, files, i + 1, moreDocs)
      ensures failure.Some? ==> r !in Abs().open && NoTrace(Abs(), draw) && IsFailure(settings, files, failure.value)
      ensures calm && failure.None? ==> Still(s, Abs(), r)
      ensures calm && failure.Some? ==> failure.value.Rejected? && Closed(s, Abs(), r)
    {
      hide *;
      ghost var before := Abs();
      ProgressMeans(settings, checksum, s, before, r, tenant, draw, files, i, outDocs);
      if calm {
        StillBlocked(s, before, r, DocKey(tenant, checksum(files[i].data)));
      }
      var turn;
      ghost var more;
      turn, more := TakeFile(r, tenant, files[i], i, draw, w);
      RunConcat(s, trace, more);
      longer := trace + more;
      if calm {
        StillTrans(s, before, Abs(), r);
      }
      moreDocs, failure := outDocs, None;
      match turn {
        case Answered(doc) =>
          moreDocs := outDocs + [doc];
          MoreProgress(settings, checksum, s, before, Abs(), r, tenant, draw, files, i, outDocs, doc);
        case Refusing(status) =>
          failure := Some(Rejected(status));
          RefusedFile(settings, files, i, status);
        case Raised =>
          failure := Some(Broken(false));
          BrokenIsFailure(settings, files);
      }
    }

    /** Lines 85-136: the loop over the files, in one transaction. */
    method AddFiles(r: ReqId, tenant: nat, files: seq<File>, draw: nat -> DocId, w: World, ghost calm: bool)
      returns (failure: Option<Response>, outDocs: seq<DocId>, ghost trace: seq<Event>)
      requires Inv(Abs()) && r !in open && ForeignWorld(w, r, draw) && FreshIds(draw, drawn)
      requires calm ==> Calm(w) && NoneBlocked(Abs(), r, KeysOf(tenant, checksum, files))
      modifies this
      ensures Abs() == Run(old(Abs()), trace) && Inv(Abs())
      ensures failure.None? ==>
                Progress(settings, checksum, old(Abs()), Abs(), r, tenant, draw, files, |files|, outDocs)
      ensures failure.Some? ==> r !in Abs().open && NoTrace(Abs(), draw) && IsFailure(settings, files, failure.value)
      ensures calm && failure.None? ==> Still(old(Abs()), Abs(), r)
      ensures calm && failure.Some? ==> failure.value.Rejected? && Closed(old(Abs()), Abs(), r)
    {
      ghost var s := Abs();
      outDocs, failure := [], None;
      trace := [Begin(r, tenant)];
      RunOne(s, Begin(r, tenant));
      BeginKeepsInv(s, r, tenant);
      open := open[r := Request(tenant, [], Reading)];
      NoProgress(settings, checksum, s, r, tenant, draw, files);
      assert AllDistinct(draw);
      assert calm ==> forall i :: 0 <= i < |files| ==> !Blocked(s, r, KeysOf(tenant, checksum, files)[i]);
      assert Still(s, Abs(), r);
      hide *;
      var i := 0;
      while i < |files|
        invariant i <= |files| && failure == None && Inv(Abs()) && Abs() == Run(s, trace)
        invariant Progress(settings, checksum, s, Abs(), r, tenant, draw, files, i, outDocs)
        invariant calm ==> Still(s, Abs(), r)
      {
        if calm {
          assert !Blocked(s, r, KeysOf(tenant, checksum, files)[i]);
        }
        failure, outDocs, trace := NextFile(s, trace, r, tenant, files, i, outDocs, draw, w, calm);
        if failure.Some? {
          return;
        }
        i := i + 1;
      }
    }

    /** Line 143. */
    method Enqueue(r: ReqId, n: nat)
      requires r in Abs().open && Abs().open[r].phase == Enqueuing(n) && n < |Abs().open[r].added|
      modifies this
      ensures Abs() == AfterQueueing(old(Abs()), r, n, old(Abs()).open[r].added[n].doc)
    {
      queue := queue + [open[r].added[n].doc];
      open := open[r := open[r].(phase := Enqueuing(n + 1))];
    }

    /** Lines 142-145: the next job is queued, or the call raises. */
    method QueueOne(ghost s: State, ghost trace: seq<Event>, r: ReqId, jobs: nat, ghost draw: nat -> DocId, w: World)
      returns (ok: bool, ghost longer: seq<Event>)
      requires Inv(Abs()) && Abs() == Run(s, trace) && ForeignWorld(w, r, draw)
      requires HasQueued(s, Abs(), r, draw, jobs) && jobs < |s.open[r].added|
      modifies this
      ensures Inv(Abs()) && Abs() == Run(s, longer)
      ensures HasQueued(s, Abs(), r, draw, if ok then jobs + 1 else jobs)
      ensures Calm(w) ==> ok && Abs() == AfterQueueing(old(Abs()), r, jobs, s.open[r].added[jobs].doc)
    {
      ghost var before := Abs();
      CalmMeans(w, Queueing(jobs));
      ForeignAt(w, r, draw, Queueing(jobs));
      hide *;
      HasQueuedMeans(s, before, r, draw, jobs);
      Await(r, draw, w.others(Queueing(jobs)));
      StillQueueing(s, before, Abs(), r, draw, jobs);
      HasQueuedMeans(s, Abs(), r, draw, jobs);
      RunConcat(s, trace, w.others(Queueing(jobs)));
      longer := trace + w.others(Queueing(jobs));
      RunNothing(before);
      ok := !w.raises(Queueing(jobs));
      if ok {
        RunSnoc(s, longer, Event.Enqueue(r));
        longer := longer + [Event.Enqueue(r)];
        OneMoreJob(s, Abs(), r, draw, jobs);
        Enqueue(r, jobs);
      }
    }

    /** The request is over. */
    method End(r: ReqId, ghost s: State, ghost trace: seq<Event>) returns (ghost more: seq<Event>)
      requires r in open && open[r].phase.Enqueuing? && Abs() == Run(s, trace) && Inv(Abs())
      modifies this`open
      ensures more == trace + [Stop(r)] && Abs() == Run(s, more) && Inv(Abs())
      ensures Abs() == old(Abs()).(open := old(Abs()).open - {r})
    {
      more := trace + [Stop(r)];
      RunSnoc(s, trace, Stop(r));
      FailKeepsInv(Abs(), r);
      open := open - {r};
    }

    /** Lines 142-145: the jobs of the committed documents are queued until a call raises. */
    method QueueJobs(r: ReqId, added: seq<New>, ghost draw: nat -> DocId, w: World)
      returns (jobs: nat, ghost trace: seq<Event>)
      requires Inv(Abs()) && ForeignWorld(w, r, draw) && HasQueued(Abs(), Abs(), r, draw, 0)
      requires added == Abs().open[r].added
      modifies this
      ensures Abs() == Run(old(Abs()), trace) && Inv(Abs())
      ensures jobs <= |added| && HasEnded(old(Abs()), Abs(), r, draw, jobs)
      ensures Calm(w) ==> jobs == |added| && Abs() == AllQueued(old(Abs()), r)
    {
      ghost var s := Abs();
      trace := [];
      jobs := 0;
      RunNothing(s);
      NoneQueued(s, r);
      HasQueuedMeans(s, s, r, draw, 0);
      hide *;
      var ok := true;
      while jobs < |added| && ok
        invariant jobs <= |added| && Inv(Abs()) && Abs() == Run(s, trace) && HasQueued(s, Abs(), r, draw, jobs)
        invariant Calm(w) ==> ok && Abs() == SomeQueued(s, r, jobs)
        decreases |added| - jobs, ok
      {
        ok, trace := QueueOne(s, trace, r, jobs, draw, w);
        OneMoreOfSome(s, r, jobs);
        jobs := if ok then jobs + 1 else jobs;
      }
      HasQueuedMeans(s, Abs(), r, draw, jobs);
      HasQueuedEnds(s, Abs(), r, draw, jobs);
      AllOfSome(s, r);
      trace := Finish(r, s, trace);
    }

    /** `End` in terms of the abstract state. */
    method Finish(r: ReqId, ghost s: State, ghost trace: seq<Event>) returns (ghost more: seq<Event>)
      requires r in Abs().open && Abs().open[r].phase.Enqueuing? && Abs() == Run(s, trace) && Inv(Abs())
      modifies this`open
      ensures Abs() == Run(s, more) && Inv(Abs())
      ensures Abs() == WithoutRequest(old(Abs()), r)
    {
      more := End(r, s, trace);
    }

    /** Line 140. */
    method Commit(r: ReqId)
      requires r in Abs().open
      modifies this
      ensures Abs() == AfterCommit(old(Abs()), r)
    {
      docs := AddDocs(docs, open[r].added);
      open := open[r := open[r].(phase := Enqueuing(0))];
    }

    /** Line 140: the commit, or an exception in its place. */
    method CommitRows(r: ReqId, tenant: nat, draw: nat -> DocId, w: World, ghost s: State, ghost trace: seq<Event>)
      returns (ok: bool, ghost longer: seq<Event>)
      requires Inv(Abs()) && Abs() == Run(s, trace) && Between(Abs(), r, tenant, draw) && ForeignWorld(w, r, draw)
      modifies this
      ensures Inv(Abs()) && Abs() == Run(s, longer)
      ensures ok ==> HasCommitted(old(Abs()), Abs(), r, draw) && HasQueued(Abs(), Abs(), r, draw, 0)
      ensures !ok ==> r !in Abs().open && NoTrace(Abs(), draw)
      ensures Calm(w) ==> ok && Abs() == AfterCommit(old(Abs()), r)
    {
      ghost var before := Abs();
      CalmMeans(w, Committing);
      ForeignAt(w, r, draw, Committing);
      hide *;
      BetweenIsOpen(before, r, tenant, draw);
      Await(r, draw, w.others(Committing));
      BetweenLater(before, Abs(), r, tenant, draw);
      UndisturbedMeans(before, Abs(), r);
      BetweenIsOpen(Abs(), r, tenant, draw);
      RunConcat(s, trace, w.others(Committing));
      longer := trace + w.others(Committing);
      RunNothing(before);
      BetweenLeavesNoTrace(Abs(), r, tenant, draw);
      ok := !w.raises(Committing);
      if ok {
        RunSnoc(s, longer, Event.Commit(r));
        longer := longer + [Event.Commit(r)];
        CommitMeans(before, Abs(), r, tenant, draw);
        Commit(r);
      } else {
        ReadingIsUncommitted(Abs(), r);
        NoTraceWithout(Abs(), r, draw);
        longer := RollBack(r, s, longer);
      }
    }

    /** `upload_files`. Whatever other requests do meanwhile and whichever call raises, the call is a
        trace of the interleaved uploads. A request that is refused or breaks before its commit leaves
        nothing; one that breaks later leaves all its rows and some of its jobs; an accepted one
        answers every file with the document of its tenant and checksum and has queued a job for each
        of its new documents. `rows` and `jobs` count those. */
    method UploadFiles(r: ReqId, tenant: nat, files: seq<File>, draw: nat -> DocId, w: World)
      returns (response: Response, ghost rows: nat, ghost jobs: nat, ghost trace: seq<Event>)
      requires Inv(Abs()) && r !in open && ForeignWorld(w, r, draw) && FreshIds(draw, drawn)
      modifies this
      ensures Abs() == Run(old(Abs()), trace) && Inv(Abs()) && r !in Abs().open
      ensures LeavesOwn(Abs(), draw, rows, jobs)
      ensures response.Rejected? ==> Some(response.status) == Refused(settings, files) && rows == jobs == 0
      ensures response == Broken(false) ==> rows == jobs == 0
      ensures response == Broken(true) ==> Refused(settings, files).None? && jobs < rows
      ensures response.Accepted? ==> Refused(settings, files).None? && rows == jobs == response.jobs
      ensures response.Accepted? ==> Answers(Abs().docs, KeysOf(tenant, checksum, files), response.documents)
      ensures response.Rejected? ==> BadRequest(settings, files, response.status)
      ensures response.Accepted? || response == Broken(true) ==> GoodFiles(settings, files)
      ensures GoodFiles(settings, files) ==> !response.Rejected?
      ensures AllKnown(old(docs), KeysOf(tenant, checksum, files)) ==> rows == 0
      ensures Calm(w) && NoneBlocked(old(Abs()), r, KeysOf(tenant, checksum, files)) ==>
                !response.Broken? && AloneAdds(old(Abs()), Abs(), draw, rows)
    {
      ghost var s := Abs();
      ghost var calm := Calm(w) && NoneBlocked(s, r, KeysOf(tenant, checksum, files));
      RefusedIff(settings, files);
      hide GoodFiles, BadRequest;
      rows, jobs, trace := 0, 0, [];
      RunNothing(s);
      FreshLeavesNoTrace(s, draw);
      NothingLeft(s, s, r, draw);
      if files == [] || |files| > settings.maxFiles {
        return Rejected(400), 0, 0, trace;
      }
      var failure, outDocs;
      failure, outDocs, trace := AddFiles(r, tenant, files, draw, w, calm);
      if failure.Some? {
        hide Run, Inv, NoTrace, LeavesOwn, AloneAdds, AllKnown, Answers, FirstRefusal;
        NothingLeft(s, Abs(), r, draw);
        return failure.value, 0, 0, trace;
      }
      assert FirstRefusal(settings, files).None? by {
        AllAccepted(settings, checksum, s, Abs(), r, tenant, draw, files, outDocs);
      }
      hide Run, Inv, NoTrace, LeavesOwn, AloneAdds, AllKnown, Answers, FirstRefusal, Progress, Still, Calm;
      ghost var ready := Abs();
      AllAccepted(settings, checksum, s, ready, r, tenant, draw, files, outDocs);
      var added := open[r].added;
      var ok, sent;
      ok, trace := CommitRows(r, tenant, draw, w, s, trace);
      if !ok {
        NothingLeft(s, Abs(), r, draw);
        return Broken(false), 0, 0, trace;
      }
      ghost var committed := Abs();
      ghost var more;
      sent, more := QueueJobs(r, added, draw, w);
      RunConcat(s, trace, more);
      trace := trace + more;
      rows, jobs := |added|, sent;
      OwnLeft(ready, committed, Abs(), r, draw, sent);
      AnswersLeft(ready, committed, Abs(), r, draw, sent, outDocs, KeysOf(tenant, checksum, files));
      if calm {
        AloneLeft(s, ready, r, tenant, draw);
      }
      response := if sent < |added| then Broken(true) else Accepted(outDocs, sent);
    }
  }
}
