/**
 Uploads as interleaved requests (src/api/routes/files.py:70-147): per file a lookup by checksum, a
 later insert under the unique constraint (src/db/models/document.py:36), one commit, then one job
 per new document.
 */
module Upload {
  import opened Prelude

  type DocId = nat
  type ReqId = nat

  datatype DocKey = DocKey(tenant: nat, checksum: string)

  datatype New = New(doc: DocId, key: DocKey)

  /** Where a request stands. `Inserting` lies between the lookup that found nothing and the insert,
      with the upload to the object store in between. */
  datatype Phase = Reading | Inserting(new_: New) | Enqueuing(next: nat)

  /** `added` are the rows inserted and not yet committed, or, when enqueuing, just committed. */
  datatype Request = Request(tenant: nat, added: seq<New>, phase: Phase)

  datatype State = State(docs: map<DocId, DocKey>, open: map<ReqId, Request>, queue: seq<DocId>, drawn: set<DocId>)

  const EMPTY: State := State(map[], map[], [], {})

  datatype Event =
    | Begin(r: ReqId, tenant: nat)
    | Lookup(r: ReqId, checksum: string, doc: DocId)
    | Insert(r: ReqId)
    | Commit(r: ReqId)
    | Fail(r: ReqId)
    | Enqueue(r: ReqId)
    | Stop(r: ReqId)

  predicate Committed(docs: map<DocId, DocKey>, key: DocKey) {
    key in docs.Values
  }

  predicate Holds(q: Request, key: DocKey) {
    exists i :: 0 <= i < |q.added| && q.added[i].key == key
  }

  predicate Uncommitted(q: Request) {
    !q.phase.Enqueuing?
  }

  /** An uncommitted row of another request with the same key makes an insert wait. */
  predicate Blocked(s: State, r: ReqId, key: DocKey) {
    exists x :: x in s.open && x != r && Uncommitted(s.open[x]) && Holds(s.open[x], key)
  }

  predicate Enabled(s: State, e: Event) {
    match e
    case Begin(r, _) => r !in s.open
    case Lookup(r, _, doc) => r in s.open && s.open[r].phase.Reading? && doc !in s.drawn
    case Insert(r) => r in s.open && s.open[r].phase.Inserting? && !Blocked(s, r, s.open[r].phase.new_.key)
    case Commit(r) => r in s.open && s.open[r].phase.Reading?
    case Fail(r) => r in s.open && Uncommitted(s.open[r])
    case Enqueue(r) => r in s.open && s.open[r].phase.Enqueuing? && s.open[r].phase.next < |s.open[r].added|
    case Stop(r) => r in s.open && s.open[r].phase.Enqueuing?
  }

  function AddDocs(docs: map<DocId, DocKey>, added: seq<New>): map<DocId, DocKey> {
    if added == [] then docs
    else AddDocs(docs, added[..|added| - 1])[added[|added| - 1].doc := added[|added| - 1].key]
  }

  function Apply(s: State, e: Event): State {
    if !Enabled(s, e) then s
    else
      match e
      case Begin(r, tenant) => s.(open := s.open[r := Request(tenant, [], Reading)])
      case Lookup(r, checksum, doc) =>
        var q := s.open[r];
        var key := DocKey(q.tenant, checksum);
        if Committed(s.docs, key) || Holds(q, key) then s
        else s.(open := s.open[r := q.(phase := Inserting(New(doc, key)))], drawn := s.drawn + {doc})
      case Insert(r) =>
        var q := s.open[r];
        if Committed(s.docs, q.phase.new_.key) then s.(open := s.open - {r})
        else s.(open := s.open[r := q.(added := q.added + [q.phase.new_], phase := Reading)])
      case Commit(r) =>
        s.(docs := AddDocs(s.docs, s.open[r].added), open := s.open[r := s.open[r].(phase := Enqueuing(0))])
      case Fail(r) => s.(open := s.open - {r})
      case Enqueue(r) =>
        var q := s.open[r];
        s.(queue := s.queue + [q.added[q.phase.next].doc],
           open := s.open[r := q.(phase := Enqueuing(q.phase.next + 1))])
      case Stop(r) => s.(open := s.open - {r})
  }

  function Run(s: State, trace: seq<Event>): State {
    if trace == [] then s else Apply(Run(s, trace[..|trace| - 1]), trace[|trace| - 1])
  }

  lemma RunSnoc(s: State, trace: seq<Event>, e: Event)
    ensures Run(s, trace + [e]) == Apply(Run(s, trace), e)
  {
    assert (trace + [e])[..|trace|] == trace;
  }

  lemma {:induction false} RunConcat(s: State, a: seq<Event>, b: seq<Event>)
    ensures Run(s, a + b) == Run(Run(s, a), b)
  {
    if b == [] {
      assert a + b == a;
    } else {
      assert (a + b)[..|a + b| - 1] == a + b[..|b| - 1];
      RunConcat(s, a, b[..|b| - 1]);
    }
  }

  // ---- invariant -----------------------------------------------------------

  ghost predicate UniqueKeys(docs: map<DocId, DocKey>) {
    forall a, b :: a in docs && b in docs && a != b ==> docs[a] != docs[b]
  }

  /** The document ids a request has drawn and may still write or enqueue. */
  ghost predicate Carries(q: Request, d: DocId) {
    || (exists i :: 0 <= i < |q.added| && q.added[i].doc == d)
    || (q.phase.Inserting? && q.phase.new_.doc == d)
  }

  ghost predicate RequestOk(s: State, r: ReqId)
    requires r in s.open
  {
    var q := s.open[r];
    && (forall i, j :: 0 <= i < j < |q.added| ==> q.added[i].doc != q.added[j].doc && q.added[i].key != q.added[j].key)
    && (forall d :: Carries(q, d) ==> d in s.drawn)
    && (q.phase.Inserting? ==>
          forall i :: 0 <= i < |q.added| ==> q.added[i].doc != q.phase.new_.doc && q.added[i].key != q.phase.new_.key)
    && (Uncommitted(q) ==> forall d :: Carries(q, d) ==> d !in s.docs && d !in s.queue)
    && (Uncommitted(q) ==> forall i :: 0 <= i < |q.added| ==> !Committed(s.docs, q.added[i].key))
    && (q.phase.Enqueuing? ==>
          && q.phase.next <= |q.added|
          && (forall i :: 0 <= i < |q.added| ==> q.added[i].doc in s.docs)
          && forall i :: q.phase.next <= i < |q.added| ==> q.added[i].doc !in s.queue)
  }

  ghost predicate Apart(p: Request, q: Request) {
    && (forall d :: Carries(p, d) ==> !Carries(q, d))
    && (Uncommitted(p) && Uncommitted(q) ==>
          forall i, j :: 0 <= i < |p.added| && 0 <= j < |q.added| ==> p.added[i].key != q.added[j].key)
  }

  ghost predicate Inv(s: State) {
    && UniqueKeys(s.docs)
    && (forall d :: d in s.docs ==> d in s.drawn)
    && (forall i :: 0 <= i < |s.queue| ==> s.queue[i] in s.docs)
    && Distinct(s.queue)
    && (forall r :: r in s.open ==> RequestOk(s, r))
    && (forall x, y :: x in s.open && y in s.open && x != y ==> Apart(s.open[x], s.open[y]))
  }

  // ---- every event keeps it ------------------------------------------------

  /** The request adds document `d`. */
  ghost predicate AddsDoc(added: seq<New>, d: DocId) {
    exists i :: 0 <= i < |added| && added[i].doc == d
  }

  lemma AddsSnoc(front: seq<New>, last: New, d: DocId)
    ensures AddsDoc(front + [last], d) <==> AddsDoc(front, d) || d == last.doc
  {
    var added := front + [last];
    assert added[|front|].doc == last.doc;
    if AddsDoc(front, d) {
      var i :| 0 <= i < |front| && front[i].doc == d;
      assert added[i].doc == d;
    }
  }

  lemma {:induction false} AddedDocs(docs: map<DocId, DocKey>, added: seq<New>)
    requires forall i, j :: 0 <= i < j < |added| ==> added[i].doc != added[j].doc
    ensures forall d :: d in AddDocs(docs, added) <==> d in docs || AddsDoc(added, d)
    ensures forall i :: 0 <= i < |added| ==>
              added[i].doc in AddDocs(docs, added) && AddDocs(docs, added)[added[i].doc] == added[i].key
    ensures forall d :: d in docs && !AddsDoc(added, d) ==>
              d in AddDocs(docs, added) && AddDocs(docs, added)[d] == docs[d]
  {
    if added != [] {
      hide AddsDoc;
      var front, last := added[..|added| - 1], added[|added| - 1];
      assert added == front + [last];
      AddedDocs(docs, front);
      forall d ensures AddsDoc(added, d) <==> AddsDoc(front, d) || d == last.doc {
        AddsSnoc(front, last, d);
      }
    } else {
      assert forall d :: !AddsDoc(added, d);
    }
  }

  lemma NotCommitted(docs: map<DocId, DocKey>, key: DocKey)
    ensures Committed(docs, key) <==> exists d :: d in docs && docs[d] == key
  {
  }

  lemma LookupKeepsOwn(s: State, r: ReqId, new_: New)
    requires Inv(s) && r in s.open && s.open[r].phase.Reading? && new_.doc !in s.drawn
    requires !Committed(s.docs, new_.key) && !Holds(s.open[r], new_.key)
    ensures var q := s.open[r].(phase := Inserting(new_));
            RequestOk(s.(open := s.open[r := q], drawn := s.drawn + {new_.doc}), r)
  {
    var q := s.open[r];
    assert RequestOk(s, r);
    assert forall d :: Carries(q.(phase := Inserting(new_)), d) <==> Carries(q, d) || d == new_.doc;
    forall i | 0 <= i < |q.added| ensures q.added[i].doc != new_.doc && q.added[i].key != new_.key {
      assert Carries(q, q.added[i].doc);
    }
    assert forall i :: 0 <= i < |s.queue| ==> s.queue[i] in s.drawn;
  }

  /** A request that carries only ids drawn before is apart from one that adds a new id. */
  lemma LookupKeepsApart(s: State, r: ReqId, new_: New, x: ReqId)
    requires Inv(s) && r in s.open && x in s.open && x != r && new_.doc !in s.drawn && s.open[r].phase.Reading?
    ensures Apart(s.open[x], s.open[r].(phase := Inserting(new_)))
    ensures Apart(s.open[r].(phase := Inserting(new_)), s.open[x])
  {
    assert RequestOk(s, x) && Apart(s.open[x], s.open[r]) && Apart(s.open[r], s.open[x]);
    assert forall d :: Carries(s.open[r].(phase := Inserting(new_)), d) <==> Carries(s.open[r], d) || d == new_.doc;
  }

  lemma MoreDrawn(s: State, x: ReqId, open: map<ReqId, Request>, doc: DocId)
    requires x in s.open && RequestOk(s, x) && x in open && open[x] == s.open[x]
    ensures RequestOk(s.(open := open, drawn := s.drawn + {doc}), x)
  {
  }

  lemma DrawKeepsInv(s: State, r: ReqId, new_: New)
    requires Inv(s) && r in s.open && s.open[r].phase.Reading? && new_.doc !in s.drawn
    requires !Committed(s.docs, new_.key) && !Holds(s.open[r], new_.key)
    ensures Inv(s.(open := s.open[r := s.open[r].(phase := Inserting(new_))], drawn := s.drawn + {new_.doc}))
  {
    var t := s.(open := s.open[r := s.open[r].(phase := Inserting(new_))], drawn := s.drawn + {new_.doc});
    hide Apart, RequestOk, Committed, Holds, UniqueKeys, Distinct;
    forall x | x in t.open ensures RequestOk(t, x) {
      if x == r {
        LookupKeepsOwn(s, r, new_);
      } else {
        MoreDrawn(s, x, t.open, new_.doc);
      }
    }
    forall x, y | x in t.open && y in t.open && x != y ensures Apart(t.open[x], t.open[y]) {
      if x == r {
        LookupKeepsApart(s, r, new_, y);
      } else if y == r {
        LookupKeepsApart(s, r, new_, x);
      }
    }
  }

  lemma LookupKeepsInv(s: State, r: ReqId, checksum: string, doc: DocId)
    requires Inv(s) && Enabled(s, Lookup(r, checksum, doc))
    ensures Inv(Apply(s, Lookup(r, checksum, doc)))
  {
    hide Inv, Committed, Holds;
    var q, key := s.open[r], DocKey(s.open[r].tenant, checksum);
    if !Committed(s.docs, key) && !Holds(q, key) {
      DrawKeepsInv(s, r, New(doc, key));
    }
  }

  lemma InsertCarriesSame(q: Request, d: DocId)
    requires q.phase.Inserting?
    ensures Carries(q.(added := q.added + [q.phase.new_], phase := Reading), d) <==> Carries(q, d)
  {
    var q' := q.(added := q.added + [q.phase.new_], phase := Reading);
    assert q'.added[|q.added|] == q.phase.new_;
    if exists i :: 0 <= i < |q.added| && q.added[i].doc == d {
      var i :| 0 <= i < |q.added| && q.added[i].doc == d;
      assert q'.added[i].doc == d;
    }
  }

  lemma InsertKeepsOwn(s: State, r: ReqId, t: State)
    requires Inv(s) && r in s.open && s.open[r].phase.Inserting? && !Committed(s.docs, s.open[r].phase.new_.key)
    requires var q := s.open[r]; t == s.(open := s.open[r := q.(added := q.added + [q.phase.new_], phase := Reading)])
    ensures RequestOk(t, r)
  {
    assert RequestOk(s, r);
    forall d ensures Carries(t.open[r], d) <==> Carries(s.open[r], d) {
      InsertCarriesSame(s.open[r], d);
    }
  }

  lemma InsertKeepsApart(s: State, r: ReqId, x: ReqId)
    requires Inv(s) && Enabled(s, Insert(r)) && x in s.open && x != r
    ensures var q := s.open[r]; var q' := q.(added := q.added + [q.phase.new_], phase := Reading);
            Apart(s.open[x], q') && Apart(q', s.open[x])
  {
    var q := s.open[r];
    assert Apart(s.open[x], q) && Apart(q, s.open[x]);
    assert Uncommitted(s.open[x]) ==> !Holds(s.open[x], q.phase.new_.key);
    forall d ensures Carries(q.(added := q.added + [q.phase.new_], phase := Reading), d) <==> Carries(q, d) {
      InsertCarriesSame(q, d);
    }
  }

  lemma SameRequestOk(s: State, x: ReqId, open: map<ReqId, Request>)
    requires x in s.open && RequestOk(s, x) && x in open && open[x] == s.open[x]
    ensures RequestOk(s.(open := open), x)
  {
  }

  /** The insert moves the new row from the lookup to the request's transaction. */
  lemma InsertKeepsInv(s: State, r: ReqId)
    requires Inv(s) && Enabled(s, Insert(r))
    ensures Inv(Apply(s, Insert(r)))
  {
    var q := s.open[r];
    if Committed(s.docs, q.phase.new_.key) {
      FailKeepsInv(s, r);
    } else {
      var t := Apply(s, Insert(r));
      hide Apart, RequestOk, Committed, Holds;
      forall x | x in t.open ensures RequestOk(t, x) {
        if x == r {
          InsertKeepsOwn(s, r, t);
        } else {
          SameRequestOk(s, x, t.open);
        }
      }
      forall x, y | x in t.open && y in t.open && x != y ensures Apart(t.open[x], t.open[y]) {
        if x == r {
          InsertKeepsApart(s, r, y);
        } else if y == r {
          InsertKeepsApart(s, r, x);
        }
      }
    }
  }

  lemma FailKeepsInv(s: State, r: ReqId)
    requires Inv(s)
    ensures Inv(s.(open := s.open - {r}))
  {
    var t := s.(open := s.open - {r});
    forall x | x in t.open ensures RequestOk(t, x) {
      assert RequestOk(s, x);
    }
  }

  /** Where a row of the table comes from once the rows of a request are added. */
  lemma WhereFrom(docs: map<DocId, DocKey>, added: seq<New>, d: DocId) returns (i: int)
    requires forall i, j :: 0 <= i < j < |added| ==> added[i].doc != added[j].doc
    requires d in AddDocs(docs, added)
    ensures i < |added|
    ensures if i < 0 then d in docs && AddDocs(docs, added)[d] == docs[d]
            else added[i].doc == d && AddDocs(docs, added)[d] == added[i].key
  {
    AddedDocs(docs, added);
    if AddsDoc(added, d) {
      i :| 0 <= i < |added| && added[i].doc == d;
    } else {
      i := -1;
    }
  }

  /** Committing publishes rows whose keys nobody else has. */
  lemma CommitKeepsUnique(s: State, r: ReqId)
    requires Inv(s) && Enabled(s, Commit(r))
    ensures UniqueKeys(AddDocs(s.docs, s.open[r].added))
  {
    var added := s.open[r].added;
    var m := AddDocs(s.docs, added);
    assert RequestOk(s, r);
    hide Apart, AddDocs, RequestOk;
    forall a, b | a in m && b in m && a != b ensures m[a] != m[b] {
      var i := WhereFrom(s.docs, added, a);
      var j := WhereFrom(s.docs, added, b);
      if 0 <= i {
        NotCommitted(s.docs, added[i].key);
      }
      if 0 <= j {
        NotCommitted(s.docs, added[j].key);
      }
    }
  }

  lemma CommitKeepsKeysFree(s: State, r: ReqId, x: ReqId, i: nat)
    requires Inv(s) && Enabled(s, Commit(r)) && x in s.open && x != r && Uncommitted(s.open[x]) && i < |s.open[x].added|
    ensures !Committed(AddDocs(s.docs, s.open[r].added), s.open[x].added[i].key)
  {
    var q, p := s.open[r], s.open[x];
    var m := AddDocs(s.docs, q.added);
    assert RequestOk(s, r) && RequestOk(s, x) && Apart(q, p);
    hide RequestOk, AddDocs;
    NotCommitted(m, p.added[i].key);
    NotCommitted(s.docs, p.added[i].key);
    forall d | d in m ensures m[d] != p.added[i].key {
      var j := WhereFrom(s.docs, q.added, d);
    }
  }

  lemma CommitKeepsDocsFree(s: State, r: ReqId, x: ReqId, d: DocId)
    requires Inv(s) && Enabled(s, Commit(r)) && x in s.open && x != r && Uncommitted(s.open[x]) && Carries(s.open[x], d)
    ensures d !in AddDocs(s.docs, s.open[r].added)
  {
    var q, p := s.open[r], s.open[x];
    assert RequestOk(s, r) && RequestOk(s, x) && Apart(q, p);
    AddedDocs(s.docs, q.added);
    assert AddsDoc(q.added, d) ==> Carries(q, d);
  }

  /** A request is still fine when documents were added that are none of its own. */
  lemma OkWithMoreDocs(s: State, t: State, x: ReqId)
    requires x in s.open && x in t.open && t.open[x] == s.open[x] && RequestOk(s, x)
    requires t.drawn == s.drawn && t.queue == s.queue && forall d :: d in s.docs ==> d in t.docs
    requires Uncommitted(s.open[x]) ==>
               && (forall d :: Carries(s.open[x], d) ==> d !in t.docs)
               && forall i :: 0 <= i < |s.open[x].added| ==> !Committed(t.docs, s.open[x].added[i].key)
    ensures RequestOk(t, x)
  {
    hide Carries, Committed;
  }

  lemma CommitKeepsOthers(s: State, r: ReqId, x: ReqId)
    requires Inv(s) && Enabled(s, Commit(r)) && x in s.open && x != r
    ensures RequestOk(Apply(s, Commit(r)), x)
  {
    var p, t := s.open[x], Apply(s, Commit(r));
    assert RequestOk(s, r) && RequestOk(s, x);
    AddedDocs(s.docs, s.open[r].added);
    hide Apart, Committed, AddDocs, Carries, AddsDoc, RequestOk, Inv;
    if Uncommitted(p) {
      forall d | Carries(p, d) ensures d !in t.docs {
        CommitKeepsDocsFree(s, r, x, d);
      }
      forall i | 0 <= i < |p.added| ensures !Committed(t.docs, p.added[i].key) {
        CommitKeepsKeysFree(s, r, x, i);
      }
    }
    OkWithMoreDocs(s, t, x);
  }

  lemma CommitKeepsOwn(s: State, r: ReqId)
    requires Inv(s) && Enabled(s, Commit(r))
    ensures RequestOk(Apply(s, Commit(r)), r)
    ensures forall d :: d in AddDocs(s.docs, s.open[r].added) ==> d in s.drawn
    ensures forall d :: d in s.docs ==> d in AddDocs(s.docs, s.open[r].added)
  {
    var q, t := s.open[r], Apply(s, Commit(r));
    assert RequestOk(s, r);
    AddedDocs(s.docs, q.added);
    assert forall d :: Carries(t.open[r], d) <==> Carries(q, d);
    forall i | 0 <= i < |q.added| ensures q.added[i].doc !in t.queue && q.added[i].doc in s.drawn {
      assert Carries(q, q.added[i].doc);
    }
    forall d | d in s.docs ensures d in AddDocs(s.docs, q.added) {
    }
  }

  lemma CommitKeepsApart(s: State, r: ReqId, x: ReqId, y: ReqId)
    requires Inv(s) && Enabled(s, Commit(r)) && x in s.open && y in s.open && x != y
    ensures Apart(Apply(s, Commit(r)).open[x], Apply(s, Commit(r)).open[y])
  {
    assert Apart(s.open[x], s.open[y]);
  }

  lemma CommitKeepsInv(s: State, r: ReqId)
    requires Inv(s) && Enabled(s, Commit(r))
    ensures Inv(Apply(s, Commit(r)))
  {
    var t := Apply(s, Commit(r));
    hide Apart, RequestOk, Committed, AddDocs;
    CommitKeepsOwn(s, r);
    CommitKeepsUnique(s, r);
    forall x | x in t.open ensures RequestOk(t, x) {
      if x != r {
        CommitKeepsOthers(s, r, x);
      }
    }
    forall x, y | x in t.open && y in t.open && x != y ensures Apart(t.open[x], t.open[y]) {
      CommitKeepsApart(s, r, x, y);
    }
  }

  lemma EnqueueKeepsOwn(s: State, r: ReqId)
    requires r in s.open && RequestOk(s, r) && Enabled(s, Enqueue(r))
    ensures RequestOk(Apply(s, Enqueue(r)), r)
  {
    var q, q' := s.open[r], Apply(s, Enqueue(r)).open[r];
    assert forall d :: Carries(q', d) <==> Carries(q, d);
  }

  /** Queueing a document that a request does not carry means nothing to that request. */
  lemma QueueingOthers(s: State, x: ReqId, d: DocId, open: map<ReqId, Request>)
    requires x in s.open && RequestOk(s, x) && !Carries(s.open[x], d) && x in open && open[x] == s.open[x]
    ensures RequestOk(s.(queue := s.queue + [d], open := open), x)
  {
    var p := s.open[x];
    assert forall i :: 0 <= i < |p.added| ==> Carries(p, p.added[i].doc);
  }

  lemma EnqueueKeepsRequest(s: State, r: ReqId, x: ReqId)
    requires Inv(s) && Enabled(s, Enqueue(r)) && x in s.open
    ensures RequestOk(Apply(s, Enqueue(r)), x)
  {
    var q := s.open[r];
    var d := q.added[q.phase.next].doc;
    assert Carries(q, d);
    if x == r {
      EnqueueKeepsOwn(s, r);
    } else {
      assert Apart(q, s.open[x]);
      hide RequestOk, Carries;
      QueueingOthers(s, x, d, Apply(s, Enqueue(r)).open);
    }
  }

  /** Requests that carry the same ids and stay past their commits stay apart. */
  lemma EnqueueKeepsApart(s: State, r: ReqId, x: ReqId, y: ReqId)
    requires Inv(s) && Enabled(s, Enqueue(r)) && x in s.open && y in s.open && x != y
    ensures Apart(Apply(s, Enqueue(r)).open[x], Apply(s, Enqueue(r)).open[y])
  {
    assert Apart(s.open[x], s.open[y]);
  }

  lemma EnqueueKeepsInv(s: State, r: ReqId)
    requires Inv(s) && Enabled(s, Enqueue(r))
    ensures Inv(Apply(s, Enqueue(r)))
  {
    var t := Apply(s, Enqueue(r));
    assert RequestOk(s, r);
    forall x | x in t.open ensures RequestOk(t, x) {
      EnqueueKeepsRequest(s, r, x);
    }
    forall x, y | x in t.open && y in t.open && x != y ensures Apart(t.open[x], t.open[y]) {
      EnqueueKeepsApart(s, r, x, y);
    }
    forall i, j | 0 <= i < j < |t.queue| ensures t.queue[i] != t.queue[j] {
      if j == |s.queue| {
        assert s.queue[i] in s.queue;
      }
    }
  }

  lemma BeginKeepsInv(s: State, r: ReqId, tenant: nat)
    requires Inv(s) && Enabled(s, Begin(r, tenant))
    ensures Inv(Apply(s, Begin(r, tenant)))
  {
    var t := Apply(s, Begin(r, tenant));
    assert forall d :: !Carries(t.open[r], d);
    forall x | x in t.open ensures RequestOk(t, x) {
      if x != r {
        assert RequestOk(s, x);
      }
    }
  }

  lemma StepKeepsInv(s: State, e: Event)
    requires Inv(s)
    ensures Inv(Apply(s, e))
  {
    if Enabled(s, e) {
      match e
      case Begin(r, tenant) => BeginKeepsInv(s, r, tenant);
      case Lookup(r, checksum, doc) => LookupKeepsInv(s, r, checksum, doc);
      case Insert(r) => InsertKeepsInv(s, r);
      case Commit(r) => CommitKeepsInv(s, r);
      case Fail(r) => FailKeepsInv(s, r);
      case Enqueue(r) => EnqueueKeepsInv(s, r);
      case Stop(r) => FailKeepsInv(s, r);
    }
  }

  lemma {:induction false} RunKeepsInv(s: State, trace: seq<Event>)
    requires Inv(s)
    ensures Inv(Run(s, trace))
  {
    if trace != [] {
      RunKeepsInv(s, trace[..|trace| - 1]);
      StepKeepsInv(Run(s, trace[..|trace| - 1]), trace[|trace| - 1]);
    }
  }

  // ---- main results --------------------------------------------------------

  /** Over all interleavings there is at most one document per tenant and checksum, and every
      queued job names a committed document and was queued for it once. */
  lemma UploadsAreSafe(trace: seq<Event>)
    ensures var s := Run(EMPTY, trace);
            && UniqueKeys(s.docs)
            && (forall i :: 0 <= i < |s.queue| ==> s.queue[i] in s.docs)
            && Distinct(s.queue)
  {
    RunKeepsInv(EMPTY, trace);
  }

  /** A document id that was drawn, has no row and is carried by no open request. */
  ghost predicate Gone(s: State, d: DocId) {
    d in s.drawn && d !in s.docs && forall r :: r in s.open ==> !Carries(s.open[r], d)
  }

  /** The event ends the request of `r` before its commit: an exception at any file, or an insert whose
      key another request has committed since the lookup. */
  ghost predicate EndsUncommitted(s: State, e: Event, r: ReqId) {
    && e.r == r && Enabled(s, e)
    && (e.Fail? || (e.Insert? && Committed(s.docs, s.open[r].phase.new_.key)))
  }

  lemma RejectedInsert(s: State, e: Event, r: ReqId)
    requires EndsUncommitted(s, e, r)
    ensures r in s.open && Uncommitted(s.open[r]) && Apply(s, e) == s.(open := s.open - {r})
  {
  }

  /** A request that fails at any file, also by the unique key, leaves the tables and the queue as they
      are, and its rows and jobs do not appear later either. */
  lemma FailedLeavesNothing(s: State, e: Event, r: ReqId, d: DocId, more: seq<Event>)
    requires Inv(s) && EndsUncommitted(s, e, r) && Carries(s.open[r], d)
    ensures Apply(s, e).docs == s.docs && Apply(s, e).queue == s.queue
    ensures d !in Run(Apply(s, e), more).docs && d !in Run(Apply(s, e), more).queue
  {
    RejectedInsert(s, e, r);
    var t := Apply(s, e);
    assert RequestOk(s, r);
    forall x | x in t.open ensures !Carries(t.open[x], d) {
      assert Apart(s.open[r], s.open[x]);
    }
    StepKeepsInv(s, e);
    GoneForever(t, d, more);
    RunKeepsInv(t, more);
    var u := Run(t, more);
    assert forall i :: 0 <= i < |u.queue| ==> u.queue[i] in u.docs;
  }

  lemma {:induction false} GoneForever(s: State, d: DocId, more: seq<Event>)
    requires Inv(s) && Gone(s, d)
    ensures Gone(Run(s, more), d)
  {
    if more != [] {
      var t := Run(s, more[..|more| - 1]);
      GoneForever(s, d, more[..|more| - 1]);
      RunKeepsInv(s, more[..|more| - 1]);
      GoneStep(t, d, more[|more| - 1]);
    }
  }

  lemma GoneStep(s: State, d: DocId, e: Event)
    requires Inv(s) && Gone(s, d)
    ensures Gone(Apply(s, e), d)
  {
    if Enabled(s, e) && e.Commit? {
      var q := s.open[e.r];
      assert RequestOk(s, e.r);
      AddedDocs(s.docs, q.added);
      assert !Carries(q, d);
    }
    if Enabled(s, e) && e.Insert? {
      assert !Carries(s.open[e.r], d);
    }
  }

  /** A committed document whose job is not queued and that no open request will queue. */
  ghost predicate Orphaned(s: State, d: DocId) {
    d in s.docs && d !in s.queue && forall r :: r in s.open ==> !Carries(s.open[r], d)
  }

  lemma StopOrphans(s: State, r: ReqId, d: DocId)
    requires Inv(s) && Enabled(s, Stop(r)) && WaitsIn(s.open[r], d)
    ensures Orphaned(Apply(s, Stop(r)), d)
  {
    var t := Apply(s, Stop(r));
    assert RequestOk(s, r) && Carries(s.open[r], d);
    forall x | x in t.open ensures !Carries(t.open[x], d) {
      assert Apart(s.open[r], s.open[x]);
    }
  }

  /** What the commit does not guarantee: a request that stops between its commit and the queueing
      of a document leaves that document without a job for ever, since a later upload of the same
      file finds the row and queues nothing. */
  lemma StoppedIsNeverQueued(s: State, r: ReqId, d: DocId, more: seq<Event>)
    requires Inv(s) && Enabled(s, Stop(r)) && WaitsIn(s.open[r], d)
    ensures d !in Run(Apply(s, Stop(r)), more).queue
    ensures d in Run(Apply(s, Stop(r)), more).docs
  {
    StopOrphans(s, r, d);
    StepKeepsInv(s, Stop(r));
    OrphanedForever(Apply(s, Stop(r)), d, more);
  }

  lemma {:induction false} OrphanedForever(s: State, d: DocId, more: seq<Event>)
    requires Inv(s) && Orphaned(s, d)
    ensures Orphaned(Run(s, more), d)
  {
    if more != [] {
      OrphanedForever(s, d, more[..|more| - 1]);
      RunKeepsInv(s, more[..|more| - 1]);
      OrphanedStep(Run(s, more[..|more| - 1]), d, more[|more| - 1]);
    }
  }

  lemma OrphanedStep(s: State, d: DocId, e: Event)
    requires Inv(s) && Orphaned(s, d)
    ensures Orphaned(Apply(s, e), d)
  {
    if Enabled(s, e) && e.Commit? {
      var q := s.open[e.r];
      assert RequestOk(s, e.r);
      AddedDocs(s.docs, q.added);
      assert !Carries(q, d);
    }
    if Enabled(s, e) && (e.Insert? || e.Enqueue?) {
      assert !Carries(s.open[e.r], d);
    }
    assert d in s.drawn;
  }

  // ---- every committed document is accounted for ---------------------------

  /** The committed request has still to queue `d`. */
  ghost predicate WaitsIn(q: Request, d: DocId) {
    q.phase.Enqueuing? && exists i :: q.phase.next <= i < |q.added| && q.added[i].doc == d
  }

  ghost predicate Waiting(s: State, d: DocId) {
    exists r :: r in s.open && WaitsIn(s.open[r], d)
  }

  /** The event stops a request that had still to queue `d`. */
  ghost predicate Drops(s: State, e: Event, d: DocId) {
    e.Stop? && Enabled(s, e) && WaitsIn(s.open[e.r], d)
  }

  /** Some step of the trace dropped `d`. */
  ghost predicate DroppedBy(trace: seq<Event>, d: DocId) {
    trace != [] &&
    (|| DroppedBy(trace[..|trace| - 1], d)
     || Drops(Run(EMPTY, trace[..|trace| - 1]), trace[|trace| - 1], d))
  }

  /** Whoever waits in one state and not in the other waits in a request that differs. */
  lemma OnlyOneChanges(s: State, t: State, r: ReqId, d: DocId)
    requires forall x :: x != r ==> (x in s.open <==> x in t.open) && (x in s.open ==> s.open[x] == t.open[x])
    requires r in s.open && WaitsIn(s.open[r], d) <==> r in t.open && WaitsIn(t.open[r], d)
    ensures Waiting(s, d) <==> Waiting(t, d)
  {
    if x :| x in s.open && WaitsIn(s.open[x], d) {
      assert x in t.open && WaitsIn(t.open[x], d);
    }
    if x :| x in t.open && WaitsIn(t.open[x], d) {
      assert x in s.open && WaitsIn(s.open[x], d);
    }
  }

  lemma EarlyStep(s: State, e: Event, d: DocId)
    requires e.Begin? || e.Lookup? || e.Insert? || e.Fail?
    ensures Apply(s, e).docs == s.docs && Apply(s, e).queue == s.queue
    ensures Waiting(Apply(s, e), d) <==> Waiting(s, d)
  {
    hide WaitsIn, Committed, Holds;
    if Enabled(s, e) {
      var t := Apply(s, e);
      assert (e.r in s.open ==> Uncommitted(s.open[e.r])) && (e.r in t.open ==> Uncommitted(t.open[e.r]));
      NotWaiting(s, e.r, d);
      NotWaiting(t, e.r, d);
      OnlyOneChanges(s, t, e.r, d);
    }
  }

  lemma NotWaiting(s: State, r: ReqId, d: DocId)
    requires r in s.open ==> Uncommitted(s.open[r])
    ensures !(r in s.open && WaitsIn(s.open[r], d))
  {
  }

  lemma CommitStep(s: State, r: ReqId, d: DocId)
    requires Inv(s) && Enabled(s, Commit(r))
    ensures Apply(s, Commit(r)).queue == s.queue
    ensures d in Apply(s, Commit(r)).docs <==> d in s.docs || AddsDoc(s.open[r].added, d)
    ensures Waiting(Apply(s, Commit(r)), d) <==> Waiting(s, d) || AddsDoc(s.open[r].added, d)
  {
    assert RequestOk(s, r);
    AddedDocs(s.docs, s.open[r].added);
    var t := Apply(s, Commit(r));
    assert WaitsIn(t.open[r], d) <==> AddsDoc(s.open[r].added, d);
    NotWaiting(s, r, d);
    hide WaitsIn, AddsDoc;
    if WaitsIn(t.open[r], d) {
      assert Waiting(t, d);
    } else {
      OnlyOneChanges(s, t, r, d);
    }
    if x :| x in s.open && WaitsIn(s.open[x], d) {
      assert x in t.open && WaitsIn(t.open[x], d);
    }
  }

  /** Queueing takes the first waiting document out of its request. */
  lemma EnqueueStep(s: State, r: ReqId, d: DocId)
    requires Inv(s) && Enabled(s, Enqueue(r))
    ensures Apply(s, Enqueue(r)).docs == s.docs
    ensures d in Apply(s, Enqueue(r)).queue <==> d in s.queue || d == s.open[r].added[s.open[r].phase.next].doc
    ensures d != s.open[r].added[s.open[r].phase.next].doc ==> (Waiting(Apply(s, Enqueue(r)), d) <==> Waiting(s, d))
    ensures d == s.open[r].added[s.open[r].phase.next].doc ==> Waiting(s, d)
  {
    var q, t := s.open[r], Apply(s, Enqueue(r));
    var head := q.added[q.phase.next].doc;
    if d == head {
      assert WaitsIn(q, d);
    } else {
      assert WaitsIn(q, d) <==> WaitsIn(t.open[r], d) by {
        if WaitsIn(q, d) {
          var i :| q.phase.next <= i < |q.added| && q.added[i].doc == d;
          assert i != q.phase.next;
        }
      }
      hide WaitsIn;
      OnlyOneChanges(s, t, r, d);
    }
  }

  lemma StopStep(s: State, r: ReqId, d: DocId)
    requires Enabled(s, Stop(r))
    ensures Apply(s, Stop(r)).docs == s.docs && Apply(s, Stop(r)).queue == s.queue
    ensures Waiting(Apply(s, Stop(r)), d) ==> Waiting(s, d)
    ensures Waiting(s, d) ==> Waiting(Apply(s, Stop(r)), d) || WaitsIn(s.open[r], d)
  {
    var t := Apply(s, Stop(r));
    hide WaitsIn;
    if x :| x in s.open && WaitsIn(s.open[x], d) {
      assert x == r || (x in t.open && WaitsIn(t.open[x], d));
    }
    if x :| x in t.open && WaitsIn(t.open[x], d) {
      assert x in s.open && WaitsIn(s.open[x], d);
    }
  }

  lemma AccountStep(s: State, e: Event, d: DocId, dropped: bool)
    requires Inv(s) && (d in s.docs <==> d in s.queue || Waiting(s, d) || dropped)
    ensures var t := Apply(s, e);
            d in t.docs <==> d in t.queue || Waiting(t, d) || dropped || Drops(s, e, d)
  {
    if Enabled(s, e) {
      match e
      case Commit(r) =>
        hide Inv, Waiting, AddsDoc;
        CommitStep(s, r, d);
      case Enqueue(r) =>
        hide Inv, Waiting;
        EnqueueStep(s, r, d);
      case Stop(r) =>
        assert WaitsIn(s.open[r], d) ==> Waiting(s, d);
        hide Inv, Waiting, WaitsIn;
        StopStep(s, r, d);
      case _ =>
        hide Inv, Waiting;
        EarlyStep(s, e, d);
    }
  }

  /** After any interleaving, a document is committed if and only if its job is queued, or an open
      request has still to queue it, or a request stopped before it queued it. */
  lemma {:induction false} EveryDocumentAccounted(trace: seq<Event>, d: DocId)
    ensures var s := Run(EMPTY, trace);
            d in s.docs <==> d in s.queue || Waiting(s, d) || DroppedBy(trace, d)
  {
    if trace != [] {
      var front := trace[..|trace| - 1];
      EveryDocumentAccounted(front, d);
      RunKeepsInv(EMPTY, front);
      AccountStep(Run(EMPTY, front), trace[|trace| - 1], d, DroppedBy(front, d));
    }
  }

  /** A committed document has lost its job if and only if its request stopped between the commit and
      the queueing of that document. */
  lemma {:induction false} OrphanedIffStopped(trace: seq<Event>, d: DocId)
    ensures Orphaned(Run(EMPTY, trace), d) <==> DroppedBy(trace, d)
  {
    var s := Run(EMPTY, trace);
    if Orphaned(s, d) {
      EveryDocumentAccounted(trace, d);
      if r :| r in s.open && WaitsIn(s.open[r], d) {
        assert Carries(s.open[r], d);
      }
    }
    if DroppedBy(trace, d) {
      var front, e := trace[..|trace| - 1], trace[|trace| - 1];
      RunKeepsInv(EMPTY, front);
      OrphanedIffStopped(front, d);
      if DroppedBy(front, d) {
        OrphanedStep(Run(EMPTY, front), d, e);
      } else {
        StopOrphans(Run(EMPTY, front), e.r, d);
      }
    }
  }

  lemma {:induction false} RunPrepend(s: State, e: Event, more: seq<Event>)
    ensures Run(s, [e] + more) == Run(Apply(s, e), more)
  {
    if more == [] {
      RunSnoc(s, [], e);
      assert [e] + more == [] + [e];
    } else {
      assert ([e] + more)[..|more|] == [e] + more[..|more| - 1];
      RunPrepend(s, e, more[..|more| - 1]);
    }
  }

  /** The job can still be queued, or has been. */
  ghost predicate CanBeQueued(s: State, d: DocId) {
    exists more :: d in Run(s, more).queue
  }

  lemma {:induction false} WaitingCanBeQueued(s: State, r: ReqId, i: nat)
    requires r in s.open && s.open[r].phase.Enqueuing? && s.open[r].phase.next <= i < |s.open[r].added|
    ensures CanBeQueued(s, s.open[r].added[i].doc)
    decreases i - s.open[r].phase.next
  {
    var e, d := Enqueue(r), s.open[r].added[i].doc;
    var t := Apply(s, e);
    if i == s.open[r].phase.next {
      RunPrepend(s, e, []);
      assert [e] + [] == [e];
      assert d == t.queue[|s.queue|] && d in Run(s, [e]).queue;
    } else {
      WaitingCanBeQueued(t, r, i);
      var more :| d in Run(t, more).queue;
      RunPrepend(s, e, more);
      assert d in Run(s, [e] + more).queue;
    }
  }

  /** A committed document never gets a job, whatever happens later, if and only if its request stopped
      before it queued it. */
  lemma NeverQueuedIffStopped(trace: seq<Event>, d: DocId)
    requires d in Run(EMPTY, trace).docs
    ensures !CanBeQueued(Run(EMPTY, trace), d) <==> DroppedBy(trace, d)
  {
    var s := Run(EMPTY, trace);
    RunKeepsInv(EMPTY, trace);
    EveryDocumentAccounted(trace, d);
    OrphanedIffStopped(trace, d);
    if DroppedBy(trace, d) {
      forall more ensures d !in Run(s, more).queue {
        OrphanedForever(s, d, more);
      }
    } else if d in s.queue {
      assert d in Run(s, []).queue;
    } else {
      var r :| r in s.open && WaitsIn(s.open[r], d);
      var i :| s.open[r].phase.next <= i < |s.open[r].added| && s.open[r].added[i].doc == d;
      WaitingCanBeQueued(s, r, i);
    }
  }
}
