/**
 The conversation buffer (src/memory/short_term.py:37-75) and the order in which a chat turn
 commits, warms and appends (src/api/routes/chat.py:51-60, 100-111). The log is the message table
 of one conversation; messages of one conversation come one after the other.
 */
module ShortTermMemory {
  import opened Prelude

  datatype Message = Message(role: string, content: string)

  type Messages = seq<Message>

  const RECENT: nat := 20

  /** `LTRIM key -n -1` and `messages[-n:]`: the last `n`, and everything when `n` is zero. */
  function KeepLast(s: Messages, n: nat): Messages {
    if n == 0 then s else Last(s, n)
  }

  /** `t` is the end of `s` with at most `n` messages, or all of `s` when `n` is zero. */
  ghost predicate IsEnd(t: Messages, s: Messages, n: nat) {
    |t| == (if n == 0 || |s| < n then |s| else n) && t == s[|s| - |t|..]
  }

  lemma KeepLastIsEnd(s: Messages, n: nat)
    ensures IsEnd(KeepLast(s, n), s, n)
  {
  }

  lemma EndOfRecent(log: Messages, n: nat)
    ensures IsEnd(KeepLast(Last(log, RECENT), n), log, if 0 < n < 20 then n else 20)
  {
  }

  datatype State = State(log: Messages, buffer: Messages)

  /** `warmup_from_db` with the recent messages of the log. */
  function Warmed(s: State, n: nat): State {
    var recent := Last(s.log, RECENT);
    if recent == [] then s else s.(buffer := KeepLast(recent, n))
  }

  function Appended(s: State, m: Message, n: nat): State {
    s.(buffer := KeepLast(s.buffer + [m], n))
  }

  /** A user message: commit, warm an empty buffer from the log, append. */
  function UserTurn(s: State, m: Message, n: nat): State {
    var committed := s.(log := s.log + [m]);
    Appended(if committed.buffer == [] then Warmed(committed, n) else committed, m, n)
  }

  /** An assistant message: commit, append. */
  function AssistantTurn(s: State, m: Message, n: nat): State {
    Appended(s.(log := s.log + [m]), m, n)
  }

  class Conversation {
    const size: nat
    var log: Messages
    var buffer: Messages

    ghost function Abs(): State
      reads this
    {
      State(log, buffer)
    }

    constructor (size: nat)
      ensures this.size == size && Abs() == State([], [])
    {
      this.size, log, buffer := size, [], [];
    }

    method AppendMessage(m: Message)
      modifies this`buffer
      ensures Abs() == Appended(old(Abs()), m, size)
      ensures IsEnd(buffer, old(buffer) + [m], size)
    {
      buffer := buffer + [m];
      buffer := KeepLast(buffer, size);
    }

    /** `reset_buffer`: one of the ways to lose the buffer. */
    method ResetBuffer()
      modifies this`buffer
      ensures Abs() == Apply(old(Abs()), Lost, size)
    {
      buffer := [];
    }

    method WarmupFromDb(messages: Messages)
      modifies this`buffer
      ensures buffer == if messages == [] then old(buffer) else KeepLast(messages, size)
      ensures messages != [] ==> IsEnd(buffer, messages, size)
    {
      if messages == [] {
        return;
      }
      buffer := [];
      var kept := KeepLast(messages, size);
      for i := 0 to |kept|
        invariant buffer == kept[..i]
      {
        buffer := buffer + [kept[i]];
      }
    }

    method AddUserMessage(m: Message)
      modifies this
      ensures Abs() == UserTurn(old(Abs()), m, size)
      ensures log == old(log) + [m]
      ensures old(buffer) != [] ==> IsEnd(buffer, old(buffer) + [m], size)
      ensures old(buffer) == [] ==>
                exists warm :: IsEnd(warm, log, if 0 < size < 20 then size else 20) && IsEnd(buffer, warm + [m], size)
    {
      log := log + [m];
      if buffer == [] {
        WarmupFromDb(Last(log, RECENT));
        EndOfRecent(log, size);
      }
      hide IsEnd, KeepLast;
      AppendMessage(m);
    }

    method AddAssistantMessage(m: Message)
      modifies this
      ensures Abs() == AssistantTurn(old(Abs()), m, size)
      ensures log == old(log) + [m] && IsEnd(buffer, old(buffer) + [m], size)
    {
      log := log + [m];
      AppendMessage(m);
    }
  }

  // ---- runs ----------------------------------------------------------------

  /** `Unbuffered` is a message whose worker dies between the commit and the append; `Lost` is an
      expired key, an evicted key, a restart of Redis, or a reset. */
  datatype Event = User(message: Message) | Assistant(message: Message) | Unbuffered(message: Message) | Lost

  /** A message that is both committed and appended. */
  predicate Complete(e: Event) {
    e.User? || e.Assistant?
  }

  function Apply(s: State, e: Event, n: nat): State {
    match e
    case User(m) => UserTurn(s, m, n)
    case Assistant(m) => AssistantTurn(s, m, n)
    case Unbuffered(m) => s.(log := s.log + [m])
    case Lost => s.(buffer := [])
  }

  function Run(s: State, events: seq<Event>, n: nat): State {
    if events == [] then s else Apply(Run(s, events[..|events| - 1], n), events[|events| - 1], n)
  }

  predicate Synced(s: State, n: nat) {
    s.buffer == Last(s.log, n)
  }

  // ---- bound ---------------------------------------------------------------

  /** The buffer never exceeds its size, whatever happens. */
  lemma {:induction false} NeverTooLong(s: State, events: seq<Event>, n: nat)
    requires n >= 1 && |s.buffer| <= n
    ensures |Run(s, events, n).buffer| <= n
  {
    if events != [] {
      NeverTooLong(s, events[..|events| - 1], n);
    }
  }

  // ---- staying in step -----------------------------------------------------

  /** Appending a message to both sides keeps the ends equal. */
  lemma AppendKeepsSync(log: Messages, m: Message, n: nat)
    requires n >= 1
    ensures Last(Last(log, n) + [m], n) == Last(log + [m], n)
  {
  }

  /** A buffer that is in step and not empty stays in step with every further message. */
  lemma SyncIsKept(s: State, e: Event, n: nat)
    requires n >= 1 && Synced(s, n) && s.buffer != [] && Complete(e)
    ensures Synced(Apply(s, e, n), n) && Apply(s, e, n).buffer != []
  {
    AppendKeepsSync(s.log, e.message, n);
  }

  lemma {:induction false} SyncIsKeptByRuns(s: State, events: seq<Event>, n: nat)
    requires n >= 1 && Synced(s, n) && s.buffer != []
    requires forall e :: e in events ==> Complete(e)
    ensures Synced(Run(s, events, n), n) && Run(s, events, n).buffer != []
  {
    if events != [] {
      var front, last := events[..|events| - 1], events[|events| - 1];
      assert last in events && forall e :: e in front ==> e in events;
      SyncIsKeptByRuns(s, front, n);
      SyncIsKept(Run(s, front, n), last, n);
    }
  }

  // ---- the cold path -------------------------------------------------------

  predicate Repeats(s: Messages, m: Message) {
    forall i :: 0 <= i < |s| ==> s[i] == m
  }

  /** What the cold path leaves in the buffer: the recent messages of the log, which already hold the
      new one, and the new one again. */
  function ColdBuffer(log: Messages, m: Message, n: nat): Messages {
    Last(Last(Last(log, RECENT), n) + [m], n)
  }

  /** The length that the end of the log must have for the duplicate to go unnoticed. */
  function ColdLength(n: nat): nat {
    if n <= RECENT then n else RECENT + 1
  }

  lemma ColdShifts(log: Messages, m: Message, n: nat)
    requires n >= 1 && |Last(log, n)| == ColdLength(n)
    ensures ColdBuffer(log, m, n) == Last(log, n)[1..] + [m]
  {
    if n > RECENT {
      assert Last(Last(log, RECENT), n) == Last(log, n)[1..];
    } else {
      assert Last(Last(log, RECENT), n) == Last(log, n);
    }
  }

  lemma ColdLengths(log: Messages, m: Message, n: nat)
    requires n >= 1 && log != []
    ensures |ColdBuffer(log, m, n)| == |Last(log, n)| <==> |Last(log, n)| == ColdLength(n)
  {
  }

  /** The first message to an empty buffer is warmed from the log, which already holds it, and
      then appended again. The result is in step with the log exactly when the end of the log has
      just the right length and consists of that same message only. */
  lemma ColdStartIsExact(s: State, m: Message, n: nat)
    requires n >= 1 && s.buffer == []
    ensures var t := UserTurn(s, m, n);
            && t.buffer == ColdBuffer(t.log, m, n)
            && (Synced(t, n) <==> |Last(t.log, n)| == ColdLength(n) && Repeats(Last(t.log, n), m))
  {
    var t := UserTurn(s, m, n);
    var tail := Last(t.log, n);
    assert tail[|tail| - 1] == m;
    ColdLengths(t.log, m, n);
    hide ColdBuffer, ColdLength;
    if |tail| == ColdLength(n) {
      ColdShifts(t.log, m, n);
      if Repeats(tail, m) {
        assert tail[1..] + [m] == tail;
      }
      if Synced(t, n) {
        ShiftFixedMeansRepeats(tail, m);
      }
    }
  }

  lemma {:induction false} ShiftFixedMeansRepeats(s: Messages, m: Message)
    requires s != [] && s == s[1..] + [m]
    ensures Repeats(s, m)
  {
    var k := |s|;
    while k > 0
      invariant 0 <= k <= |s| && forall i :: k <= i < |s| ==> s[i] == m
    {
      k := k - 1;
      assert s[k] == (s[1..] + [m])[k];
    }
  }

  /** A new conversation with room for two starts with its first message twice. */
  lemma FirstMessageIsDoubled(m: Message, n: nat)
    requires n >= 2
    ensures UserTurn(State([], []), m, n) == State([m], [m, m])
  {
    var committed := State([] + [m], []);
    assert committed.log == [m];
    assert Warmed(committed, n).buffer == [m];
    assert [m] + [m] == [m, m];
  }

  // ---- self-stabilisation --------------------------------------------------

  /** The last `k` messages of the buffer are the last `k` of the log. */
  predicate Agree(s: State, k: nat) {
    k <= |s.buffer| && k <= |s.log| && Last(s.buffer, k) == Last(s.log, k)
  }

  lemma LastOfTrimmed(s: Messages, k: nat, n: nat)
    requires k <= n
    ensures Last(Last(s, n), k) == Last(s, k)
  {
  }

  lemma LastSnoc(s: Messages, m: Message, k: nat)
    requires k <= |s|
    ensures Last(s + [m], k + 1) == Last(s, k) + [m]
  {
  }

  /** What the buffer holds just before the message is appended. */
  function BeforeAppend(s: State, e: Event, n: nat): Messages
    requires Complete(e)
  {
    if e.User? && s.buffer == [] then Warmed(s.(log := s.log + [e.message]), n).buffer else s.buffer
  }

  lemma TurnAppends(s: State, e: Event, n: nat)
    requires n >= 1 && Complete(e)
    ensures Apply(s, e, n) == State(s.log + [e.message], Last(BeforeAppend(s, e, n) + [e.message], n))
  {
  }

  /** Every message adds one to the agreement, up to the size of the buffer, also on the cold
      path, where the duplicate is the older of the two copies. */
  lemma AgreementGrows(s: State, e: Event, n: nat, k: nat)
    requires n >= 1 && Agree(s, k) && k < n && Complete(e)
    ensures Agree(Apply(s, e, n), k + 1)
  {
    var before, m := BeforeAppend(s, e, n), e.message;
    TurnAppends(s, e, n);
    hide Apply, BeforeAppend;
    LastOfTrimmed(before + [m], k + 1, n);
    assert k <= |before| && Last(before, k) == Last(s.log, k) by {
      BeforeAgrees(s, e, n, k);
    }
    LastSnoc(before, m, k);
    LastSnoc(s.log, m, k);
  }

  lemma BeforeAgrees(s: State, e: Event, n: nat, k: nat)
    requires Agree(s, k) && Complete(e)
    ensures k <= |BeforeAppend(s, e, n)| && Last(BeforeAppend(s, e, n), k) == Last(s.log, k)
  {
  }

  lemma FullAgreementStays(s: State, e: Event, n: nat)
    requires n >= 1 && Agree(s, n) && Complete(e)
    ensures Agree(Apply(s, e, n), n)
  {
    var t := Apply(s, e, n);
    assert t.buffer == Last(s.buffer + [e.message], n);
    LastOfTrimmed(s.buffer + [e.message], n, n);
    assert Last(s.buffer + [e.message], n) == Last(Last(s.buffer, n) + [e.message], n);
    AppendKeepsSync(s.log, e.message, n);
  }

  lemma {:induction false} AgreementAfter(s: State, events: seq<Event>, n: nat)
    requires n >= 1 && forall e :: e in events ==> Complete(e)
    ensures Agree(Run(s, events, n), if |events| < n then |events| else n)
  {
    if events != [] {
      var front, last := events[..|events| - 1], events[|events| - 1];
      assert last in events && forall e :: e in front ==> e in events;
      AgreementAfter(s, front, n);
      if |front| < n {
        AgreementGrows(Run(s, front, n), last, n, |front|);
      } else {
        FullAgreementStays(Run(s, front, n), last, n);
      }
    }
  }

  /** Self-stabilisation: from any contents of the buffer, also lost, stale, too long or holding the
      duplicate of a cold start, `n` messages later it is exactly the last `n` messages of the log. */
  lemma Stabilises(s: State, events: seq<Event>, n: nat)
    requires n >= 1 && |events| >= n
    requires forall e :: e in events ==> Complete(e)
    ensures Synced(Run(s, events, n), n)
    ensures |Run(s, events, n).buffer| == n
  {
    AgreementAfter(s, events, n);
    var last := events[|events| - 1];
    assert last in events;
    TurnAppends(Run(s, events[..|events| - 1], n), last, n);
  }
}
