/**
 One upload request among others (src/api/routes/files.py:70-147) on values: which files are refused,
 what the request can rely on while other requests go on, and what it leaves.
 */
module UploadRequest {
  import opened Prelude
  import opened Upload

  datatype File = File(data: string, mime: string, name: string)

  datatype Settings = Settings(maxFiles: nat, maxBytes: nat, allowed: set<string>)

  /** The HTTP status of a rejected request; an exception that reaches the caller, before or after the
      commit; or the documents and the number of queued jobs. */
  datatype Response = Rejected(status: nat) | Broken(committed: bool) | Accepted(documents: seq<DocId>, jobs: nat)

  /** The awaits of a request: reading a file, storing it and inserting its row, the commit, and
      queueing a job. */
  datatype Moment = ReadingFile(i: nat) | Storing(i: nat) | Committing | Queueing(j: nat)

  /** What happens at the awaits of a request: the events of other requests meanwhile, and whether the
      awaited call raises. */
  datatype World = World(others: Moment -> seq<Event>, raises: Moment -> bool)

  /** One turn of the loop over the files. */
  datatype Turn = Answered(doc: DocId) | Refusing(status: nat) | Raised

  function Lower(s: string): string {
    if s == "" then ""
    else [if 'A' <= s[0] <= 'Z' then (s[0] as int - 'A' as int + 'a' as int) as char else s[0]] + Lower(s[1..])
  }

  predicate EndsWith(s: string, suffix: string) {
    |suffix| <= |s| && s[|s| - |suffix|..] == suffix
  }

  predicate KnownExtension(name: string) {
    var n := Lower(name);
    EndsWith(n, ".pdf") || EndsWith(n, ".txt") || EndsWith(n, ".md") || EndsWith(n, ".docx")
  }

  function MimeOf(f: File): string {
    if f.mime == "" then "application/octet-stream" else f.mime
  }

  /** The status a file is refused with, in the order of the checks. */
  function Refusal(st: Settings, f: File): Option<nat> {
    if |f.data| == 0 then Some(400)
    else if |f.data| > st.maxBytes then Some(413)
    else if MimeOf(f) !in st.allowed && !KnownExtension(f.name) then Some(415)
    else None
  }

  /** The refusal of the first file that has one. */
  function FirstRefusal(st: Settings, files: seq<File>): Option<nat> {
    if files == [] then None
    else
      var r := FirstRefusal(st, files[..|files| - 1]);
      if r.Some? then r else Refusal(st, files[|files| - 1])
  }

  function Refused(st: Settings, files: seq<File>): Option<nat> {
    if files == [] || |files| > st.maxFiles then Some(400) else FirstRefusal(st, files)
  }

  lemma {:induction false} RefusedIffSomeFileIs(st: Settings, files: seq<File>)
    ensures FirstRefusal(st, files).Some? <==> exists i :: 0 <= i < |files| && Refusal(st, files[i]).Some?
    ensures FirstRefusal(st, files).Some? ==>
              exists i :: 0 <= i < |files| && Refusal(st, files[i]) == FirstRefusal(st, files) &&
                          forall j :: 0 <= j < i ==> Refusal(st, files[j]).None?
  {
    if files != [] {
      var front, k := files[..|files| - 1], |files| - 1;
      RefusedIffSomeFileIs(st, front);
      if FirstRefusal(st, front).Some? {
        var i :| 0 <= i < |front| && Refusal(st, front[i]) == FirstRefusal(st, front) &&
                 forall j :: 0 <= j < i ==> Refusal(st, front[j]).None?;
        assert Refusal(st, files[i]) == FirstRefusal(st, files);
        assert forall j :: 0 <= j < i ==> files[j] == front[j];
      } else {
        assert forall j :: 0 <= j < k ==> files[j] == front[j];
      }
    }
  }

  // ---- which files are good ------------------------------------------------

  /** The letter, in either case; any other character as it is. */
  ghost predicate EitherCase(c: char, lower: char) {
    c == lower || ('a' <= lower <= 'z' && 'A' <= c <= 'Z' && c as int - 'A' as int == lower as int - 'a' as int)
  }

  ghost predicate EndsInAnyCase(name: string, ext: string) {
    && |ext| <= |name|
    && forall k :: 0 <= k < |ext| ==> EitherCase(name[|name| - |ext| + k], ext[k])
  }

  /** The type that the client names, or the generic one, is allowed, or the name has one of the four
      extensions. */
  ghost predicate GoodType(st: Settings, f: File) {
    || (f.mime != "" && f.mime in st.allowed)
    || (f.mime == "" && "application/octet-stream" in st.allowed)
    || EndsInAnyCase(f.name, ".pdf") || EndsInAnyCase(f.name, ".txt")
    || EndsInAnyCase(f.name, ".md") || EndsInAnyCase(f.name, ".docx")
  }

  ghost predicate GoodFile(st: Settings, f: File) {
    0 < |f.data| <= st.maxBytes && GoodType(st, f)
  }

  ghost predicate GoodFiles(st: Settings, files: seq<File>) {
    1 <= |files| <= st.maxFiles && forall i :: 0 <= i < |files| ==> GoodFile(st, files[i])
  }

  /** What each status says of a file. */
  ghost predicate BadFile(st: Settings, f: File, status: nat) {
    || (status == 400 && |f.data| == 0)
    || (status == 413 && |f.data| > st.maxBytes)
    || (status == 415 && 0 < |f.data| <= st.maxBytes && !GoodType(st, f))
  }

  /** What each status says of a request: no files or too many, or the first bad file. */
  ghost predicate BadRequest(st: Settings, files: seq<File>, status: nat) {
    || (status == 400 && (files == [] || |files| > st.maxFiles))
    || (exists i :: 0 <= i < |files| && BadFile(st, files[i], status) &&
                    forall j :: 0 <= j < i ==> GoodFile(st, files[j]))
  }

  lemma {:induction false} LowerAt(s: string, k: nat, lower: char)
    requires k < |s| && !('A' <= lower <= 'Z')
    ensures |Lower(s)| == |s| && (Lower(s)[k] == lower <==> EitherCase(s[k], lower))
  {
    if k > 0 {
      LowerAt(s[1..], k - 1, lower);
    } else {
      LowerLength(s[1..]);
    }
  }

  lemma {:induction false} LowerLength(s: string)
    ensures |Lower(s)| == |s|
  {
    if s != "" {
      LowerLength(s[1..]);
    }
  }

  /** Two strings that agree with the suffix at the same places. */
  lemma SuffixIff(n: string, name: string, ext: string, at: nat)
    requires |n| == |name| == at + |ext|
    requires forall k :: 0 <= k < |ext| ==> (n[at + k] == ext[k] <==> EitherCase(name[at + k], ext[k]))
    ensures EndsWith(n, ext) <==> EndsInAnyCase(name, ext)
  {
    hide EitherCase;
    var tail := n[at..];
    assert forall k :: 0 <= k < |ext| ==> tail[k] == n[at + k];
    if EndsInAnyCase(name, ext) {
      forall k | 0 <= k < |ext| ensures tail[k] == ext[k] {
        assert EitherCase(name[|name| - |ext| + k], ext[k]);
      }
      assert tail == ext;
    }
  }

  lemma EndsWithIff(name: string, ext: string)
    requires forall k :: 0 <= k < |ext| ==> !('A' <= ext[k] <= 'Z')
    ensures EndsWith(Lower(name), ext) <==> EndsInAnyCase(name, ext)
  {
    LowerLength(name);
    if |ext| <= |name| {
      var n, at := Lower(name), |name| - |ext|;
      hide *;
      forall k | 0 <= k < |ext| ensures n[at + k] == ext[k] <==> EitherCase(name[at + k], ext[k]) {
        LowerAt(name, at + k, ext[k]);
      }
      SuffixIff(n, name, ext, at);
    }
  }

  lemma TypeIff(st: Settings, f: File)
    ensures GoodType(st, f) <==> MimeOf(f) in st.allowed || KnownExtension(f.name)
  {
    EndsWithIff(f.name, ".pdf");
    EndsWithIff(f.name, ".txt");
    EndsWithIff(f.name, ".md");
    EndsWithIff(f.name, ".docx");
    hide EndsInAnyCase, EndsWith, Lower;
  }

  /** A file is refused exactly if it is bad, with the status that says why. */
  lemma RefusalIff(st: Settings, f: File)
    ensures Refusal(st, f) == None <==> GoodFile(st, f)
    ensures forall status: nat :: Refusal(st, f) == Some(status) <==> BadFile(st, f, status)
  {
    TypeIff(st, f);
    hide GoodType, MimeOf, KnownExtension;
  }

  /** A request is refused exactly if it is bad: for its number of files, or for its first bad file. */
  lemma RefusedIff(st: Settings, files: seq<File>)
    ensures Refused(st, files) == None <==> GoodFiles(st, files)
    ensures Refused(st, files).Some? ==> BadRequest(st, files, Refused(st, files).value)
  {
    forall i | 0 <= i < |files| ensures Refusal(st, files[i]) == None <==> GoodFile(st, files[i]) {
      RefusalIff(st, files[i]);
    }
    RefusedIffSomeFileIs(st, files);
    hide GoodFile, BadFile, Refusal, FirstRefusal;
    if FirstRefusal(st, files).Some? {
      var i :| 0 <= i < |files| && Refusal(st, files[i]) == FirstRefusal(st, files) &&
               forall j :: 0 <= j < i ==> Refusal(st, files[j]).None?;
      RefusalIff(st, files[i]);
      assert BadFile(st, files[i], FirstRefusal(st, files).value);
    }
  }

  /** `uuid4()`: the ids it draws are distinct and were never drawn before. */
  ghost predicate FreshIds(draw: nat -> DocId, drawn: set<DocId>) {
    && (forall i, j :: i != j ==> draw(i) != draw(j))
    && (forall i :: draw(i) !in drawn)
  }

  /** Other requests are other requests, and draw other ids. */
  ghost predicate Foreign(events: seq<Event>, r: ReqId, draw: nat -> DocId) {
    forall i :: 0 <= i < |events| ==> events[i].r != r && (events[i].Lookup? ==> forall j :: events[i].doc != draw(j))
  }

  ghost predicate ForeignWorld(w: World, r: ReqId, draw: nat -> DocId) {
    forall m :: Foreign(w.others(m), r, draw)
  }

  /** Nothing happens at the awaits. */
  ghost predicate Calm(w: World) {
    forall m :: w.others(m) == [] && !w.raises(m)
  }

  // ---- what other requests leave alone -------------------------------------

  ghost predicate Grows(docs: map<DocId, DocKey>, more: map<DocId, DocKey>) {
    forall d :: d in docs ==> d in more && more[d] == docs[d]
  }

  /** What a request can rely on while others go on: its own state, the committed documents, and where
      its own documents are. */
  ghost predicate Undisturbed(s: State, t: State, r: ReqId)
    requires r in s.open
  {
    && r in t.open && t.open[r] == s.open[r] && Grows(s.docs, t.docs)
    && forall d :: Carries(s.open[r], d) ==> (d in t.docs <==> d in s.docs) && (d in t.queue <==> d in s.queue)
  }

  lemma ForeignCommit(s: State, r: ReqId, x: ReqId)
    requires Inv(s) && r in s.open && x != r && Enabled(s, Commit(x))
    ensures Undisturbed(s, Apply(s, Commit(x)), r)
  {
    var q := s.open[x];
    assert RequestOk(s, x) && Apart(q, s.open[r]);
    AddedDocs(s.docs, q.added);
    forall d | AddsDoc(q.added, d) ensures d !in s.docs && !Carries(s.open[r], d) {
      assert Carries(q, d);
    }
  }

  lemma ForeignEnqueue(s: State, r: ReqId, x: ReqId)
    requires Inv(s) && r in s.open && x != r && Enabled(s, Enqueue(x))
    ensures Undisturbed(s, Apply(s, Enqueue(x)), r)
  {
    var q := s.open[x];
    assert Apart(q, s.open[r]);
    assert Carries(q, q.added[q.phase.next].doc);
  }

  lemma ForeignStep(s: State, r: ReqId, e: Event)
    requires Inv(s) && r in s.open && e.r != r
    ensures Undisturbed(s, Apply(s, e), r)
    ensures Apply(s, e).drawn <= s.drawn + if e.Lookup? then {e.doc} else {}
  {
    if Enabled(s, e) {
      match e
      case Commit(x) => ForeignCommit(s, r, x);
      case Enqueue(x) => ForeignEnqueue(s, r, x);
      case _ =>
    }
  }

  lemma UndisturbedTrans(s: State, t: State, u: State, r: ReqId)
    requires r in s.open && Undisturbed(s, t, r) && Undisturbed(t, u, r)
    ensures Undisturbed(s, u, r)
  {
  }

  lemma {:induction false} ForeignRun(s: State, r: ReqId, draw: nat -> DocId, events: seq<Event>)
    requires Inv(s) && r in s.open && Foreign(events, r, draw)
    ensures Inv(Run(s, events)) && Undisturbed(s, Run(s, events), r)
    ensures forall j :: draw(j) in Run(s, events).drawn ==> draw(j) in s.drawn
  {
    if events != [] {
      var front, e := events[..|events| - 1], events[|events| - 1];
      ForeignRun(s, r, draw, front);
      hide Inv, Apply, Undisturbed;
      StepKeepsInv(Run(s, front), e);
      assert r in Run(s, front).open by { UndisturbedMeans(s, Run(s, front), r); }
      ForeignStep(Run(s, front), r, e);
      UndisturbedTrans(s, Run(s, front), Apply(Run(s, front), e), r);
    } else {
      NothingDisturbed(s, r);
    }
  }

  lemma NothingDisturbed(s: State, r: ReqId)
    requires r in s.open
    ensures Undisturbed(s, s, r)
  {
  }

  lemma UndisturbedMeans(s: State, t: State, r: ReqId)
    requires r in s.open && Undisturbed(s, t, r)
    ensures r in t.open && t.open[r] == s.open[r] && Grows(s.docs, t.docs)
  {
  }

  // ---- the state of one request --------------------------------------------

  /** The request stands between two files; its rows took the first ids, and the others are unused. */
  ghost predicate Between(s: State, r: ReqId, tenant: nat, draw: nat -> DocId) {
    && r in s.open && s.open[r].tenant == tenant && s.open[r].phase.Reading?
    && (forall j :: 0 <= j < |s.open[r].added| ==> s.open[r].added[j].doc == draw(j))
    && (forall j :: |s.open[r].added| <= j ==> draw(j) !in s.drawn)
  }

  /** The ids of the request are nowhere. */
  ghost predicate NoTrace(s: State, draw: nat -> DocId) {
    forall j :: draw(j) !in s.docs && draw(j) !in s.queue
  }

  /** The transaction of the request sees `d` under `key`. */
  ghost predicate Sees(s: State, r: ReqId, d: DocId, key: DocKey)
    requires r in s.open
  {
    (d in s.docs && s.docs[d] == key) || New(d, key) in s.open[r].added
  }

  lemma BetweenLater(s: State, t: State, r: ReqId, tenant: nat, draw: nat -> DocId)
    requires Between(s, r, tenant, draw) && Undisturbed(s, t, r)
    requires forall j :: draw(j) in t.drawn ==> draw(j) in s.drawn
    ensures Between(t, r, tenant, draw)
  {
  }

  lemma UncommittedLeavesNoTrace(s: State, r: ReqId, draw: nat -> DocId)
    requires Inv(s) && r in s.open && Uncommitted(s.open[r])
    requires forall j :: Carries(s.open[r], draw(j)) || draw(j) !in s.drawn
    ensures NoTrace(s, draw)
  {
    assert RequestOk(s, r);
    assert forall i :: 0 <= i < |s.queue| ==> s.queue[i] in s.docs;
    assert forall d :: d in s.docs ==> d in s.drawn;
  }

  lemma BetweenCarries(s: State, r: ReqId, tenant: nat, draw: nat -> DocId)
    requires Between(s, r, tenant, draw)
    ensures forall j :: Carries(s.open[r], draw(j)) || draw(j) !in s.drawn
  {
    forall j: nat | j < |s.open[r].added| ensures Carries(s.open[r], draw(j)) {
      assert s.open[r].added[j].doc == draw(j);
    }
  }

  // ---- answers -------------------------------------------------------------

  /** Each file is answered with the document that has its checksum. */
  ghost predicate Answers(docs: map<DocId, DocKey>, keys: seq<DocKey>, out: seq<DocId>) {
    |out| == |keys| && forall i :: 0 <= i < |keys| ==> out[i] in docs && docs[out[i]] == keys[i]
  }

  function KeysOf(tenant: nat, checksum: string -> string, files: seq<File>): (keys: seq<DocKey>)
    ensures |keys| == |files|
    ensures forall i :: 0 <= i < |keys| ==> keys[i] == DocKey(tenant, checksum(files[i].data))
  {
    seq(|files|, i requires 0 <= i < |files| => DocKey(tenant, checksum(files[i].data)))
  }

  ghost predicate AllKnown(docs: map<DocId, DocKey>, keys: seq<DocKey>) {
    forall i :: 0 <= i < |keys| ==> Committed(docs, keys[i])
  }

  ghost predicate NoneBlocked(s: State, r: ReqId, keys: seq<DocKey>) {
    forall i :: 0 <= i < |keys| ==> !Blocked(s, r, keys[i])
  }

  /** Uploading the same files again, whatever happened in between, gives the same answers. */
  lemma SameAnswers(docs: map<DocId, DocKey>, later: map<DocId, DocKey>, keys: seq<DocKey>,
                    first: seq<DocId>, second: seq<DocId>)
    requires Answers(docs, keys, first) && Grows(docs, later) && UniqueKeys(later) && Answers(later, keys, second)
    ensures second == first
  {
    forall i | 0 <= i < |keys| ensures first[i] == second[i] {
      assert later[first[i]] == later[second[i]];
    }
  }

  lemma {:induction false} FirstRefusalStays(st: Settings, files: seq<File>, n: nat)
    requires n <= |files| && FirstRefusal(st, files[..n]).Some?
    ensures FirstRefusal(st, files) == FirstRefusal(st, files[..n])
    decreases |files|
  {
    if n < |files| {
      var front := files[..|files| - 1];
      assert front[..n] == files[..n];
      FirstRefusalStays(st, front, n);
    } else {
      assert files[..n] == files;
    }
  }

  lemma OneMoreFile(st: Settings, files: seq<File>, i: nat)
    requires i < |files| && FirstRefusal(st, files[..i]) == None
    ensures FirstRefusal(st, files[..i + 1]) == Refusal(st, files[i])
  {
    assert files[..i + 1][..i] == files[..i];
  }

  // ---- steps on values -----------------------------------------------------

  lemma RunNothing(s: State)
    ensures Run(s, []) == s
  {
  }

  /** What an uncommitted request carries is neither in the table nor in the queue, also after others
      went on. */
  lemma OwnAreUncommitted(s: State, t: State, r: ReqId)
    requires Inv(s) && r in s.open && Uncommitted(s.open[r]) && Undisturbed(s, t, r)
    ensures forall d :: Carries(s.open[r], d) ==> d !in t.docs && d !in t.queue
  {
    assert RequestOk(s, r);
  }

  lemma RunOne(s: State, e: Event)
    ensures Run(s, [e]) == Apply(s, e)
  {
    assert [e][..0] == [];
  }

  lemma GrowsSame(docs: map<DocId, DocKey>)
    ensures Grows(docs, docs)
  {
  }

  lemma BlockedSame(s: State, t: State, r: ReqId, key: DocKey)
    requires r in t.open && t.open == s.open[r := t.open[r]]
    ensures Blocked(s, r, key) <==> Blocked(t, r, key)
  {
    if x :| x in s.open && x != r && Uncommitted(s.open[x]) && Holds(s.open[x], key) {
      assert t.open[x] == s.open[x];
    }
    if x :| x in t.open && x != r && Uncommitted(t.open[x]) && Holds(t.open[x], key) {
      assert t.open[x] == s.open[x];
    }
  }

  lemma CalmMeans(w: World, m: Moment)
    ensures Calm(w) ==> w.others(m) == [] && !w.raises(m)
  {
  }

  lemma ForeignAt(w: World, r: ReqId, draw: nat -> DocId, m: Moment)
    requires ForeignWorld(w, r, draw)
    ensures Foreign(w.others(m), r, draw)
  {
  }

  lemma ReadingIsUncommitted(s: State, r: ReqId)
    requires r in s.open && s.open[r].phase.Reading?
    ensures Uncommitted(s.open[r])
  {
  }

  lemma NoTraceWithout(s: State, r: ReqId, draw: nat -> DocId)
    requires NoTrace(s, draw)
    ensures NoTrace(WithoutRequest(s, r), draw) && r !in WithoutRequest(s, r).open
  {
  }

  ghost predicate AllDistinct(draw: nat -> DocId) {
    forall i, j :: i != j ==> draw(i) != draw(j)
  }

  lemma BetweenLeavesNoTrace(s: State, r: ReqId, tenant: nat, draw: nat -> DocId)
    requires Inv(s) && Between(s, r, tenant, draw)
    ensures NoTrace(s, draw)
  {
    BetweenCarries(s, r, tenant, draw);
    UncommittedLeavesNoTrace(s, r, draw);
  }

  lemma GrowsCommitted(docs: map<DocId, DocKey>, more: map<DocId, DocKey>, key: DocKey)
    requires Grows(docs, more)
    ensures Committed(docs, key) ==> Committed(more, key)
  {
    NotCommitted(docs, key);
    NotCommitted(more, key);
  }

  lemma GrowsTrans(a: map<DocId, DocKey>, b: map<DocId, DocKey>, c: map<DocId, DocKey>)
    requires Grows(a, b) && Grows(b, c)
    ensures Grows(a, c)
  {
  }

  lemma OneMoreRow(s: State, r: ReqId, tenant: nat, draw: nat -> DocId, added: seq<New>, new_: New)
    requires r in s.open && s.open[r] == Request(tenant, added + [new_], Reading)
    requires AllDistinct(draw) && new_.doc == draw(|added|)
    requires forall j :: 0 <= j < |added| ==> added[j].doc == draw(j)
    requires forall j :: |added| <= j && draw(j) != new_.doc ==> draw(j) !in s.drawn
    ensures Between(s, r, tenant, draw) && Sees(s, r, new_.doc, new_.key)
  {
    assert (added + [new_])[|added|] == new_;
  }

  lemma FailedLeavesNoTrace(s: State, t: State, r: ReqId, draw: nat -> DocId, added: seq<New>, new_: New)
    requires r in s.open && s.open[r].added == added && s.open[r].phase == Inserting(new_)
    requires Inv(t) && new_.doc == draw(|added|) && forall j :: 0 <= j < |added| ==> added[j].doc == draw(j)
    requires forall j :: |added| < j ==> draw(j) !in t.drawn
    requires forall d :: Carries(s.open[r], d) ==> d !in t.docs && d !in t.queue
    ensures NoTrace(t, draw)
  {
    forall j: nat ensures draw(j) !in t.docs && draw(j) !in t.queue {
      if j < |added| {
        assert s.open[r].added[j].doc == draw(j);
        assert Carries(s.open[r], draw(j));
      } else if j == |added| {
        assert Carries(s.open[r], draw(j));
      } else {
        assert forall i :: 0 <= i < |t.queue| ==> t.queue[i] in t.docs;
      }
    }
  }

  // ---- what is seen and what is queued -------------------------------------

  ghost predicate SeesAll(s: State, r: ReqId, out: seq<DocId>, keys: seq<DocKey>)
    requires r in s.open
  {
    |out| == |keys| && forall i :: 0 <= i < |keys| ==> Sees(s, r, out[i], keys[i])
  }

  lemma BetweenIsOpen(s: State, r: ReqId, tenant: nat, draw: nat -> DocId)
    requires Between(s, r, tenant, draw)
    ensures r in s.open && s.open[r].tenant == tenant && s.open[r].phase.Reading?
  {
  }

  lemma SeesStays(s: State, t: State, r: ReqId, d: DocId, key: DocKey)
    requires r in s.open && r in t.open && Sees(s, r, d, key)
    requires Grows(s.docs, t.docs) && s.open[r].added <= t.open[r].added
    ensures Sees(t, r, d, key)
  {
    if i :| 0 <= i < |s.open[r].added| && s.open[r].added[i] == New(d, key) {
      assert t.open[r].added[i] == New(d, key);
    }
  }

  lemma OneMoreSeen(s: State, t: State, r: ReqId, out: seq<DocId>, keys: seq<DocKey>, i: nat, doc: DocId)
    requires r in s.open && r in t.open && i < |keys| && SeesAll(s, r, out, keys[..i]) && Sees(t, r, doc, keys[i])
    requires Grows(s.docs, t.docs) && s.open[r].added <= t.open[r].added
    ensures SeesAll(t, r, out + [doc], keys[..i + 1])
  {
    hide Sees, Grows;
    forall k | 0 <= k < i ensures Sees(t, r, out[k], keys[k]) {
      assert Sees(s, r, out[k], keys[..i][k]);
      SeesStays(s, t, r, out[k], keys[k]);
    }
  }

  function DocsOf(added: seq<New>): (ids: seq<DocId>)
    ensures |ids| == |added| && forall i :: 0 <= i < |ids| ==> ids[i] == added[i].doc
  {
    seq(|added|, i requires 0 <= i < |added| => added[i].doc)
  }

  /** All rows are committed, and exactly the first `n` jobs are queued. */
  ghost predicate QueuedUpTo(s: State, added: seq<New>, n: nat) {
    forall i :: 0 <= i < |added| ==> added[i].doc in s.docs && (added[i].doc in s.queue <==> i < n)
  }

  lemma QueuedSame(s: State, open: map<ReqId, Request>, added: seq<New>, n: nat)
    requires QueuedUpTo(s, added, n)
    ensures QueuedUpTo(s.(open := open), added, n)
  {
  }

  lemma StillQueued(s: State, t: State, r: ReqId, added: seq<New>, n: nat)
    requires r in s.open && s.open[r].added == added && QueuedUpTo(s, added, n) && Undisturbed(s, t, r)
    ensures QueuedUpTo(t, added, n)
  {
    forall i | 0 <= i < |added| ensures Carries(s.open[r], added[i].doc) {
    }
  }

  lemma OneMoreQueued(s: State, r: ReqId, added: seq<New>, n: nat, open: map<ReqId, Request>)
    requires Inv(s) && r in s.open && s.open[r].added == added && n < |added| && QueuedUpTo(s, added, n)
    ensures QueuedUpTo(s.(queue := s.queue + [added[n].doc], open := open), added, n + 1)
  {
    assert RequestOk(s, r);
  }

  /** The request committed in `s` and has queued `n` of its jobs. */
  ghost predicate HasQueued(s: State, t: State, r: ReqId, draw: nat -> DocId, n: nat) {
    && r in s.open && r in t.open && n <= |s.open[r].added|
    && t.open[r] == s.open[r].(phase := Enqueuing(n))
    && Grows(s.docs, t.docs) && QueuedUpTo(t, s.open[r].added, n)
    && forall j :: draw(j) in t.drawn ==> draw(j) in s.drawn
  }

  lemma StillQueueing(s: State, t: State, u: State, r: ReqId, draw: nat -> DocId, n: nat)
    requires HasQueued(s, t, r, draw, n) && Undisturbed(t, u, r)
    requires forall j :: draw(j) in u.drawn ==> draw(j) in t.drawn
    ensures HasQueued(s, u, r, draw, n)
  {
    StillQueued(t, u, r, s.open[r].added, n);
    GrowsTrans(s.docs, t.docs, u.docs);
  }

  lemma HasQueuedMeans(s: State, t: State, r: ReqId, draw: nat -> DocId, n: nat)
    requires HasQueued(s, t, r, draw, n)
    ensures r in s.open && r in t.open && n <= |s.open[r].added| && t.open[r] == s.open[r].(phase := Enqueuing(n))
    ensures Grows(s.docs, t.docs) && QueuedUpTo(t, s.open[r].added, n)
    ensures forall j :: draw(j) in t.drawn ==> draw(j) in s.drawn
  {
  }

  function AfterQueueing(s: State, r: ReqId, n: nat, d: DocId): State
    requires r in s.open
  {
    s.(queue := s.queue + [d], open := s.open[r := s.open[r].(phase := Enqueuing(n + 1))])
  }

  lemma ApplyEnqueue(t: State, r: ReqId, n: nat)
    requires r in t.open && t.open[r].phase == Enqueuing(n) && n < |t.open[r].added|
    ensures Apply(t, Enqueue(r)) == AfterQueueing(t, r, n, t.open[r].added[n].doc)
  {
  }

  lemma JobQueued(s: State, t: State, r: ReqId, draw: nat -> DocId, n: nat)
    requires HasQueued(s, t, r, draw, n) && n < |s.open[r].added|
    requires QueuedUpTo(AfterQueueing(t, r, n, s.open[r].added[n].doc), s.open[r].added, n + 1)
    ensures HasQueued(s, AfterQueueing(t, r, n, s.open[r].added[n].doc), r, draw, n + 1)
  {
    hide QueuedUpTo, Grows;
  }

  lemma OneMoreJob(s: State, t: State, r: ReqId, draw: nat -> DocId, n: nat)
    requires Inv(t) && HasQueued(s, t, r, draw, n) && n < |s.open[r].added|
    ensures var u := AfterQueueing(t, r, n, s.open[r].added[n].doc);
            u == Apply(t, Enqueue(r)) && Inv(u) && HasQueued(s, u, r, draw, n + 1)
  {
    HasQueuedMeans(s, t, r, draw, n);
    hide Inv, QueuedUpTo, Grows, HasQueued, Apply, AfterQueueing;
    ApplyEnqueue(t, r, n);
    CanEnqueue(t, r, n);
    EnqueueKeepsInv(t, r);
    OneMoreQueued(t, r, s.open[r].added, n, AfterQueueing(t, r, n, s.open[r].added[n].doc).open);
    assert QueuedUpTo(AfterQueueing(t, r, n, s.open[r].added[n].doc), s.open[r].added, n + 1) by {
      QueueingShape(t, r, n, s.open[r].added[n].doc);
    }
    JobQueued(s, t, r, draw, n);
  }

  lemma CanEnqueue(t: State, r: ReqId, n: nat)
    requires r in t.open && t.open[r].phase == Enqueuing(n) && n < |t.open[r].added|
    ensures Enabled(t, Enqueue(r))
  {
  }

  lemma QueueingShape(t: State, r: ReqId, n: nat, d: DocId)
    requires r in t.open
    ensures var u := AfterQueueing(t, r, n, d); u == t.(queue := t.queue + [d], open := u.open)
  {
  }

  function WithoutRequest(s: State, r: ReqId): State {
    s.(open := s.open - {r})
  }

  /** `s` with `n` of the jobs of the request queued and nothing else changed. */
  function SomeQueued(s: State, r: ReqId, n: nat): State
    requires r in s.open && n <= |s.open[r].added|
  {
    s.(queue := s.queue + DocsOf(s.open[r].added)[..n], open := s.open[r := s.open[r].(phase := Enqueuing(n))])
  }

  function AllQueued(s: State, r: ReqId): State
    requires r in s.open
  {
    s.(queue := s.queue + DocsOf(s.open[r].added), open := s.open - {r})
  }

  lemma NoneQueued(s: State, r: ReqId)
    requires r in s.open && s.open[r].phase == Enqueuing(0)
    ensures SomeQueued(s, r, 0) == s
  {
    assert s.queue + DocsOf(s.open[r].added)[..0] == s.queue;
    assert s.open[r := s.open[r]] == s.open;
  }

  lemma OneMoreOfSome(s: State, r: ReqId, n: nat)
    requires r in s.open && n < |s.open[r].added|
    ensures r in SomeQueued(s, r, n).open
    ensures AfterQueueing(SomeQueued(s, r, n), r, n, s.open[r].added[n].doc) == SomeQueued(s, r, n + 1)
  {
    DocsSnoc(s.queue, s.open[r].added, n);
  }

  lemma AllOfSome(s: State, r: ReqId)
    requires r in s.open
    ensures WithoutRequest(SomeQueued(s, r, |s.open[r].added|), r) == AllQueued(s, r)
  {
    assert DocsOf(s.open[r].added)[..|s.open[r].added|] == DocsOf(s.open[r].added);
    assert s.open[r := s.open[r].(phase := Enqueuing(|s.open[r].added|))] - {r} == s.open - {r};
  }

  /** The request committed in `s`, queued `n` of its jobs, and is over. */
  ghost predicate HasEnded(s: State, t: State, r: ReqId, draw: nat -> DocId, n: nat) {
    && r in s.open && r !in t.open && Grows(s.docs, t.docs) && QueuedUpTo(t, s.open[r].added, n)
    && forall j :: draw(j) in t.drawn ==> draw(j) in s.drawn
  }

  lemma HasQueuedEnds(s: State, t: State, r: ReqId, draw: nat -> DocId, n: nat)
    requires HasQueued(s, t, r, draw, n)
    ensures HasEnded(s, WithoutRequest(t, r), r, draw, n)
  {
    QueuedSame(t, t.open - {r}, s.open[r].added, n);
  }

  lemma DocsSnoc(queue: seq<DocId>, added: seq<New>, n: nat)
    requires n < |added|
    ensures queue + DocsOf(added)[..n] + [added[n].doc] == queue + DocsOf(added)[..n + 1]
  {
  }

  lemma FreshLeavesNoTrace(s: State, draw: nat -> DocId)
    requires Inv(s) && FreshIds(draw, s.drawn)
    ensures NoTrace(s, draw)
  {
    assert forall i :: 0 <= i < |s.queue| ==> s.queue[i] in s.docs;
  }

  // ---- the loop over the files ---------------------------------------------

  predicate IsFailure(st: Settings, files: seq<File>, response: Response) {
    response == Broken(false) || (response.Rejected? && FirstRefusal(st, files) == Some(response.status))
  }

  /** Nothing but the request itself has changed. */
  ghost predicate Still(s: State, t: State, r: ReqId) {
    r in t.open && t.docs == s.docs && t.queue == s.queue && t.open == s.open[r := t.open[r]]
  }

  /** The request has ended and nothing else has changed. */
  ghost predicate Closed(s: State, t: State, r: ReqId) {
    t.docs == s.docs && t.queue == s.queue && t.open == s.open - {r}
  }

  /** The first `i` files are accepted and answered. */
  ghost predicate Progress(st: Settings, checksum: string -> string, s: State, t: State, r: ReqId, tenant: nat,
                           draw: nat -> DocId, files: seq<File>, i: nat, out: seq<DocId>)
  {
    && Between(t, r, tenant, draw) && Grows(s.docs, t.docs)
    && i <= |files| && FirstRefusal(st, files[..i]) == None
    && SeesAll(t, r, out, KeysOf(tenant, checksum, files)[..i])
    && (AllKnown(s.docs, KeysOf(tenant, checksum, files)) ==> t.open[r].added == [])
  }

  lemma StillBlocked(s: State, t: State, r: ReqId, key: DocKey)
    requires Still(s, t, r)
    ensures Blocked(s, r, key) <==> Blocked(t, r, key)
  {
    BlockedSame(s, t, r, key);
  }

  lemma StillTrans(s: State, t: State, u: State, r: ReqId)
    requires Still(s, t, r)
    ensures Still(t, u, r) ==> Still(s, u, r)
    ensures Closed(t, u, r) ==> Closed(s, u, r)
  {
  }

  lemma RefusedFile(st: Settings, files: seq<File>, i: nat, status: nat)
    requires i < |files| && FirstRefusal(st, files[..i]) == None && Refusal(st, files[i]) == Some(status)
    ensures IsFailure(st, files, Rejected(status))
  {
    OneMoreFile(st, files, i);
    FirstRefusalStays(st, files, i + 1);
  }

  lemma BrokenIsFailure(st: Settings, files: seq<File>)
    ensures IsFailure(st, files, Broken(false))
  {
  }

  lemma ProgressMeans(st: Settings, checksum: string -> string, s: State, t: State, r: ReqId, tenant: nat,
                      draw: nat -> DocId, files: seq<File>, i: nat, out: seq<DocId>)
    requires Progress(st, checksum, s, t, r, tenant, draw, files, i, out)
    ensures Between(t, r, tenant, draw) && r in t.open && i <= |files| && FirstRefusal(st, files[..i]) == None
  {
  }

  lemma NoProgress(st: Settings, checksum: string -> string, s: State, r: ReqId, tenant: nat, draw: nat -> DocId,
                   files: seq<File>)
    requires r !in s.open && FreshIds(draw, s.drawn)
    ensures Progress(st, checksum, s, s.(open := s.open[r := Request(tenant, [], Reading)]), r, tenant, draw, files, 0,
                     [])
  {
  }

  lemma MoreProgress(st: Settings, checksum: string -> string, s: State, t: State, u: State, r: ReqId, tenant: nat,
                     draw: nat -> DocId, files: seq<File>, i: nat, out: seq<DocId>, doc: DocId)
    requires i < |files| && Progress(st, checksum, s, t, r, tenant, draw, files, i, out)
    requires Between(u, r, tenant, draw) && Grows(t.docs, u.docs) && t.open[r].added <= u.open[r].added
    requires Sees(u, r, doc, DocKey(tenant, checksum(files[i].data))) && Refusal(st, files[i]).None?
    requires Committed(t.docs, DocKey(tenant, checksum(files[i].data))) ==> u.open[r].added == t.open[r].added
    ensures Progress(st, checksum, s, u, r, tenant, draw, files, i + 1, out + [doc])
  {
    var keys := KeysOf(tenant, checksum, files);
    hide Refusal, Committed, Sees, Grows, FirstRefusal;
    GrowsTrans(s.docs, t.docs, u.docs);
    GrowsCommitted(s.docs, t.docs, keys[i]);
    OneMoreFile(st, files, i);
    OneMoreSeen(t, u, r, out, keys, i, doc);
  }

  // ---- what a request leaves -----------------------------------------------

  /** The rows and jobs of the request are those of its first ids. */
  ghost predicate LeavesOwn(s: State, draw: nat -> DocId, rows: nat, jobs: nat) {
    forall j: nat :: (draw(j) in s.docs <==> j < rows) && (draw(j) in s.queue <==> j < jobs)
  }

  function Firsts(draw: nat -> DocId, n: nat): (ids: seq<DocId>)
    ensures |ids| == n && forall j :: 0 <= j < n ==> ids[j] == draw(j)
  {
    seq(n, j requires 0 <= j < n => draw(j))
  }

  /** An undisturbed request adds its rows and its jobs, in order, and changes nothing else. */
  ghost predicate AloneAdds(s: State, t: State, draw: nat -> DocId, rows: nat) {
    && t.open == s.open && t.queue == s.queue + Firsts(draw, rows) && Grows(s.docs, t.docs)
    && forall d :: d in t.docs <==> d in s.docs || d in Firsts(draw, rows)
  }

  lemma NothingLeft(s: State, t: State, r: ReqId, draw: nat -> DocId)
    requires NoTrace(t, draw)
    ensures LeavesOwn(t, draw, 0, 0)
    ensures r !in s.open && (Closed(s, t, r) || t == s) ==> AloneAdds(s, t, draw, 0)
  {
    assert s.queue + Firsts(draw, 0) == s.queue;
    if r !in s.open {
      assert s.open - {r} == s.open;
    }
  }

  lemma AllAccepted(st: Settings, checksum: string -> string, s: State, t: State, r: ReqId, tenant: nat,
                    draw: nat -> DocId, files: seq<File>, out: seq<DocId>)
    requires Progress(st, checksum, s, t, r, tenant, draw, files, |files|, out)
    ensures Between(t, r, tenant, draw) && r in t.open && FirstRefusal(st, files).None?
    ensures SeesAll(t, r, out, KeysOf(tenant, checksum, files))
    ensures AllKnown(s.docs, KeysOf(tenant, checksum, files)) ==> t.open[r].added == []
  {
    assert files[..|files|] == files;
    assert KeysOf(tenant, checksum, files)[..|files|] == KeysOf(tenant, checksum, files);
  }

  function AfterCommit(s: State, r: ReqId): State
    requires r in s.open
  {
    s.(docs := AddDocs(s.docs, s.open[r].added), open := s.open[r := s.open[r].(phase := Enqueuing(0))])
  }

  /** The request, between two files in `s`, has just committed in `t`. */
  ghost predicate HasCommitted(s: State, t: State, r: ReqId, draw: nat -> DocId) {
    && r in s.open && r in t.open && t.open[r].added == s.open[r].added && Grows(s.docs, t.docs)
    && (forall n :: n in s.open[r].added ==> n.doc in t.docs && t.docs[n.doc] == n.key)
    && (forall j :: 0 <= j < |s.open[r].added| ==> s.open[r].added[j].doc == draw(j))
    && (forall j: nat :: draw(j) in t.drawn ==> j < |s.open[r].added|)
  }

  lemma OwnCommitted(t: State, r: ReqId)
    requires Inv(t) && r in t.open && Uncommitted(t.open[r])
    ensures var added, m := t.open[r].added, AddDocs(t.docs, t.open[r].added);
            forall i :: 0 <= i < |added| ==>
              added[i].doc in m && m[added[i].doc] == added[i].key && added[i].doc !in t.queue
  {
    var added := t.open[r].added;
    assert RequestOk(t, r);
    AddedDocs(t.docs, added);
    forall i | 0 <= i < |added| ensures added[i].doc !in t.queue {
      assert Carries(t.open[r], added[i].doc);
    }
  }

  lemma CommitStepInv(t: State, r: ReqId)
    requires Inv(t) && r in t.open && t.open[r].phase.Reading?
    ensures AfterCommit(t, r) == Apply(t, Event.Commit(r)) && Inv(AfterCommit(t, r))
  {
    CommitKeepsInv(t, r);
    hide Inv;
  }

  lemma ThenHasCommitted(s: State, t: State, r: ReqId, tenant: nat, draw: nat -> DocId)
    requires Inv(t) && Between(s, r, tenant, draw) && Between(t, r, tenant, draw)
    requires t.open[r] == s.open[r] && Grows(s.docs, t.docs)
    ensures HasCommitted(s, AfterCommit(t, r), r, draw)
  {
    OwnCommitted(t, r);
    CommitGrows(t, r);
    GrowsTrans(s.docs, t.docs, AfterCommit(t, r).docs);
    hide Inv, AddDocs, Grows, AddsDoc, Committed;
    forall n | n in s.open[r].added ensures n.doc in AfterCommit(t, r).docs && AfterCommit(t, r).docs[n.doc] == n.key {
      var i :| 0 <= i < |s.open[r].added| && s.open[r].added[i] == n;
    }
  }

  lemma ThenHasQueued(t: State, r: ReqId, draw: nat -> DocId)
    requires Inv(t) && r in t.open && Uncommitted(t.open[r])
    ensures HasQueued(AfterCommit(t, r), AfterCommit(t, r), r, draw, 0)
  {
    OwnCommitted(t, r);
    GrowsSame(AfterCommit(t, r).docs);
    hide Inv, AddDocs, Grows;
  }

  lemma CommitMeans(s: State, t: State, r: ReqId, tenant: nat, draw: nat -> DocId)
    requires Inv(t) && Between(s, r, tenant, draw) && Between(t, r, tenant, draw)
    requires t.open[r] == s.open[r] && Grows(s.docs, t.docs)
    ensures AfterCommit(t, r) == Apply(t, Event.Commit(r)) && Inv(AfterCommit(t, r))
    ensures HasCommitted(s, AfterCommit(t, r), r, draw)
    ensures HasQueued(AfterCommit(t, r), AfterCommit(t, r), r, draw, 0)
  {
    BetweenIsOpen(t, r, tenant, draw);
    ReadingIsUncommitted(t, r);
    hide *;
    CommitStepInv(t, r);
    ThenHasCommitted(s, t, r, tenant, draw);
    ThenHasQueued(t, r, draw);
  }

  lemma OwnLeft(s: State, t: State, u: State, r: ReqId, draw: nat -> DocId, jobs: nat)
    requires Inv(u) && HasCommitted(s, t, r, draw) && HasEnded(t, u, r, draw, jobs) && jobs <= |s.open[r].added|
    ensures LeavesOwn(u, draw, |s.open[r].added|, jobs) && r !in u.open
  {
    var added := s.open[r].added;
    forall j: nat ensures (draw(j) in u.docs <==> j < |added|) && (draw(j) in u.queue <==> j < jobs) {
      if j < |added| {
        assert added[j].doc == draw(j);
        assert t.open[r].added[j].doc in u.docs;
      } else {
        assert draw(j) in u.docs ==> draw(j) in u.drawn;
        assert forall i :: 0 <= i < |u.queue| ==> u.queue[i] in u.docs;
      }
    }
  }

  lemma AnswersLeft(s: State, t: State, u: State, r: ReqId, draw: nat -> DocId, jobs: nat, out: seq<DocId>,
                    keys: seq<DocKey>)
    requires HasCommitted(s, t, r, draw) && HasEnded(t, u, r, draw, jobs) && SeesAll(s, r, out, keys)
    ensures Answers(u.docs, keys, out)
  {
    forall i | 0 <= i < |keys| ensures out[i] in u.docs && u.docs[out[i]] == keys[i] {
      assert Sees(s, r, out[i], keys[i]);
    }
  }

  lemma AddsFirsts(added: seq<New>, draw: nat -> DocId)
    requires forall j :: 0 <= j < |added| ==> added[j].doc == draw(j)
    ensures DocsOf(added) == Firsts(draw, |added|)
    ensures forall d :: AddsDoc(added, d) <==> d in Firsts(draw, |added|)
  {
    assert DocsOf(added) == Firsts(draw, |added|);
    forall d ensures AddsDoc(added, d) <==> d in DocsOf(added) {
      if AddsDoc(added, d) {
        var i :| 0 <= i < |added| && added[i].doc == d;
        assert DocsOf(added)[i] == d;
      }
    }
  }

  lemma CommitGrows(t: State, r: ReqId)
    requires Inv(t) && r in t.open && Uncommitted(t.open[r])
    ensures var m := AddDocs(t.docs, t.open[r].added);
            Grows(t.docs, m) && forall d :: d in m <==> d in t.docs || AddsDoc(t.open[r].added, d)
  {
    var added := t.open[r].added;
    assert RequestOk(t, r);
    AddedDocs(t.docs, added);
    forall d | d in t.docs ensures !AddsDoc(added, d) {
      assert AddsDoc(added, d) ==> Carries(t.open[r], d);
    }
  }

  lemma OpenAgain(s: State, t: State, r: ReqId)
    requires r !in s.open && Still(s, t, r)
    ensures var u := AllQueued(AfterCommit(t, r), r);
            && u.open == s.open && u.docs == AddDocs(s.docs, t.open[r].added)
            && u.queue == s.queue + DocsOf(t.open[r].added)
  {
    assert AllQueued(AfterCommit(t, r), r).open == s.open;
  }

  lemma AloneLeft(s: State, t: State, r: ReqId, tenant: nat, draw: nat -> DocId)
    requires r !in s.open && Still(s, t, r) && Between(t, r, tenant, draw) && Inv(t)
    ensures AloneAdds(s, AllQueued(AfterCommit(t, r), r), draw, |t.open[r].added|)
  {
    AddsFirsts(t.open[r].added, draw);
    CommitGrows(t, r);
    OpenAgain(s, t, r);
    hide Inv, AllQueued, AfterCommit, AddDocs, AddsDoc, Grows, Between;
  }
}
