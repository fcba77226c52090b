/** Two-phase sessions.  Each of the three ledgers keeps one word that says which
    batch (or request) has been prepared and not yet consumed.  A history of a
    ledger is viewed here as a trace of what each step did to that word, and the
    exactly-once guarantee is derived once, for any trace in which every submit
    found its own batch pending. */
module Sessions {
  import opened Wrappers

  datatype SessionEvent<+T> = Prepare(id: T) | Submit(id: T) | Clear | Other

  /** What is prepared and not yet consumed at the end of a trace. */
  function Pending<T>(trace: seq<SessionEvent<T>>): Option<T>
  {
    if trace == [] then None else
    match trace[|trace| - 1]
    case Prepare(d) => Some(d)
    case Submit(_) => None
    case Clear => None
    case Other => Pending(trace[..|trace| - 1])
  }

  /** Every submit found exactly its own batch pending. */
  ghost predicate Gated<T>(trace: seq<SessionEvent<T>>)
  {
    forall n | 0 <= n < |trace| && trace[n].Submit? :: Pending(trace[..n]) == Some(trace[n].id)
  }

  /** The prepare at `m` is the one that the trace is still waiting on. */
  ghost predicate OpenedAt<T>(trace: seq<SessionEvent<T>>, m: nat, d: T)
  {
    && m < |trace|
    && trace[m] == Prepare(d)
    && forall j | m < j < |trace| :: trace[j].Other?
  }

  lemma {:induction false} PendingOrigin<T>(trace: seq<SessionEvent<T>>, d: T) returns (m: nat)
    requires Pending(trace) == Some(d)
    ensures OpenedAt(trace, m, d)
  {
    var last := |trace| - 1;
    if trace[last].Other? {
      m := PendingOrigin(trace[..last], d);
      assert forall j | m < j < last :: trace[j] == trace[..last][j];
    } else {
      m := last;
    }
  }

  /** Every successful submit matches an earlier prepare of the same batch with
      no prepare, submit or rollback in between. */
  lemma SubmitMatchesPrepare<T>(trace: seq<SessionEvent<T>>, n: nat) returns (m: nat)
    requires Gated(trace) && n < |trace| && trace[n].Submit?
    ensures m < n && trace[m] == Prepare(trace[n].id)
    ensures forall j | m < j < n :: trace[j].Other?
  {
    m := PendingOrigin(trace[..n], trace[n].id);
    assert forall j | m < j < n :: trace[j] == trace[..n][j];
  }

  /** One prepare yields at most one application: between two submits there is
      always a fresh prepare of the second batch. */
  lemma OneSubmitPerPrepare<T>(trace: seq<SessionEvent<T>>, i: nat, j: nat) returns (m: nat)
    requires Gated(trace) && i < j < |trace| && trace[i].Submit? && trace[j].Submit?
    ensures i < m < j && trace[m] == Prepare(trace[j].id)
  {
    m := SubmitMatchesPrepare(trace, j);
    assert m != i;
  }

  /** Extending a gated trace by one event keeps it gated when a submit finds its
      own batch pending. */
  lemma GatedExtend<T>(trace: seq<SessionEvent<T>>, e: SessionEvent<T>)
    requires Gated(trace)
    requires e.Submit? ==> Pending(trace) == Some(e.id)
    ensures Gated(trace + [e])
  {
    var longer := trace + [e];
    forall n | 0 <= n < |longer| && longer[n].Submit?
      ensures Pending(longer[..n]) == Some(longer[n].id)
    {
      assert longer[..n] == trace[..n];
      assert trace[..|trace|] == trace;
    }
  }

  // ---------------------------------------------------------------------------
  // Runs of a ledger and their traces
  // ---------------------------------------------------------------------------

  /** The state after a run of transactions. */
  function RunOf<S, X>(step: (S, X) -> S, s: S, txs: seq<X>): S {
    if txs == [] then s else step(RunOf(step, s, txs[..|txs| - 1]), txs[|txs| - 1])
  }

  function TraceOf<S, X, T>(step: (S, X) -> S, event: (S, X) -> SessionEvent<T>, s: S,
                            txs: seq<X>): (trace: seq<SessionEvent<T>>)
    ensures |trace| == |txs|
  {
    if txs == [] then [] else
    var front := txs[..|txs| - 1];
    TraceOf(step, event, s, front) + [event(RunOf(step, s, front), txs[|txs| - 1])]
  }

  /** What the session word says after an event. */
  function After<T>(word: Option<T>, e: SessionEvent<T>): Option<T> {
    match e
    case Prepare(d) => Some(d)
    case Submit(_) => None
    case Clear => None
    case Other => word
  }

  /** From every state in `inv`, each transaction stays in `inv`, moves the
      session word as its event says, and submits only what the word names. */
  ghost predicate Tracks<S(!new), X(!new), T(!new)>(step: (S, X) -> S, event: (S, X) -> SessionEvent<T>,
                                                  word: S -> Option<T>, inv: S -> bool)
  {
    forall s, x {:trigger step(s, x)} :: inv(s) ==>
      && inv(step(s, x))
      && word(step(s, x)) == After(word(s), event(s, x))
      && (event(s, x).Submit? ==> word(s) == Some(event(s, x).id))
  }

  lemma {:induction false} TrackedRun<S(!new), X(!new), T(!new)>(step: (S, X) -> S, event: (S, X) -> SessionEvent<T>,
      word: S -> Option<T>, inv: S -> bool, s: S, txs: seq<X>)
    requires Tracks(step, event, word, inv) && inv(s) && word(s) == None
    ensures inv(RunOf(step, s, txs))
    ensures Gated(TraceOf(step, event, s, txs))
    ensures word(RunOf(step, s, txs)) == Pending(TraceOf(step, event, s, txs))
  {
    if txs != [] {
      var front, last := txs[..|txs| - 1], txs[|txs| - 1];
      TrackedRun(step, event, word, inv, s, front);
      var trace := TraceOf(step, event, s, front);
      var e := event(RunOf(step, s, front), last);
      assert step(RunOf(step, s, front), last) == RunOf(step, s, txs);
      GatedExtend(trace, e);
      assert (trace + [e])[..|trace|] == trace;
    }
  }

  lemma {:induction false} TraceAt<S, X, T>(step: (S, X) -> S, event: (S, X) -> SessionEvent<T>, s: S, txs: seq<X>,
                                            n: nat)
    requires n < |txs|
    ensures TraceOf(step, event, s, txs)[n] == event(RunOf(step, s, txs[..n]), txs[n])
  {
    var front := txs[..|txs| - 1];
    if n < |front| {
      TraceAt(step, event, s, front, n);
      assert front[..n] == txs[..n];
    } else {
      assert front == txs[..n];
    }
  }

  lemma {:induction false} PendingOpened<T>(trace: seq<SessionEvent<T>>, m: nat, d: T)
    requires OpenedAt(trace, m, d)
    ensures Pending(trace) == Some(d)
  {
    var last := |trace| - 1;
    if m < last {
      assert forall j | m < j < last :: trace[..last][j] == trace[j];
      PendingOpened(trace[..last], m, d);
    }
  }

  /** This transaction of the run prepares `d`, and none after it touches the session. */
  ghost predicate StillOpen<S, X, T>(step: (S, X) -> S, event: (S, X) -> SessionEvent<T>, s: S, txs: seq<X>, m: nat,
                                     d: T) {
    && m < |txs| && event(RunOf(step, s, txs[..m]), txs[m]) == Prepare(d)
    && forall j | m < j < |txs| :: event(RunOf(step, s, txs[..j]), txs[j]) == Other
  }

  /** After a run, the session word names a batch if and only if some transaction
      of the run prepared it and none has touched the session since. */
  lemma BusyIff<S(!new), X(!new), T(!new)>(step: (S, X) -> S, event: (S, X) -> SessionEvent<T>,
      word: S -> Option<T>, inv: S -> bool, s: S, txs: seq<X>, d: T)
    requires Tracks(step, event, word, inv) && inv(s) && word(s) == None
    ensures word(RunOf(step, s, txs)) == Some(d) <==> exists m :: StillOpen(step, event, s, txs, m, d)
  {
    var trace := TraceOf(step, event, s, txs);
    TrackedRun(step, event, word, inv, s, txs);
    forall j | 0 <= j < |txs| ensures trace[j] == event(RunOf(step, s, txs[..j]), txs[j]) {
      TraceAt(step, event, s, txs, j);
    }
    if word(RunOf(step, s, txs)) == Some(d) {
      var m := PendingOrigin(trace, d);
      assert StillOpen(step, event, s, txs, m, d);
    }
    if m :| StillOpen(step, event, s, txs, m, d) {
      PendingOpened(trace, m, d);
    }
  }

  /** Exactly once, over every run of a ledger that tracks its session word: a
      submit matches an earlier prepare of the same batch, and nothing touched
      the session in between. */
  lemma ExactlyOnce<S(!new), X(!new), T(!new)>(step: (S, X) -> S, event: (S, X) -> SessionEvent<T>,
      word: S -> Option<T>, inv: S -> bool, s: S, txs: seq<X>, n: nat) returns (m: nat)
    requires Tracks(step, event, word, inv) && inv(s) && word(s) == None
    requires n < |txs| && event(RunOf(step, s, txs[..n]), txs[n]).Submit?
    ensures m < n && event(RunOf(step, s, txs[..m]), txs[m]) == Prepare(event(RunOf(step, s, txs[..n]), txs[n]).id)
    ensures forall j | m < j < n :: event(RunOf(step, s, txs[..j]), txs[j]) == Other
  {
    TrackedRun(step, event, word, inv, s, txs);
    TraceAt(step, event, s, txs, n);
    m := SubmitMatchesPrepare(TraceOf(step, event, s, txs), n);
    forall j | m <= j < n
      ensures TraceOf(step, event, s, txs)[j] == event(RunOf(step, s, txs[..j]), txs[j])
    {
      TraceAt(step, event, s, txs, j);
    }
  }
}
