/**
  LLM-call telemetry: a row is committed before the provider is invoked and finalized after it ends,
  in separate transactions, by any number of instrumented providers over one table.
 */
module CallTelemetry {
  import opened Outcomes

  type CallId = nat
  type ProviderId = nat

  datatype Status = Started | Success | Failed | TimedOut

  /** How a write ends: committed, rolled back with an exception, or committed with the exception after it. */
  datatype Fate = Committed | Lost | CommittedThenRaised

  /** What the table and the wrapped provider have seen, in order. */
  datatype Entry = Inserted(id: CallId) | Invoked(id: CallId) | Finalized(id: CallId, status: Status)

  datatype Table = Table(rows: map<CallId, Status>, log: seq<Entry>)

  datatype Written = Written(table: Table, ok: bool)

  // ----- The recorder -----

  /** Insert the started row; an id already present violates the primary key. */
  function StartCall(t: Table, id: CallId, fate: Fate): Written {
    if id in t.rows || fate.Lost? then Written(t, false)
    else Written(Table(t.rows[id := Started], t.log + [Inserted(id)]), fate.Committed?)
  }

  /** Reload the row, refuse one that is gone or already final, and mark it. */
  function FinishCall(t: Table, id: CallId, status: Status, fate: Fate): Written {
    if id !in t.rows || t.rows[id] != Started || fate.Lost? then Written(t, false)
    else Written(Table(t.rows[id := status], t.log + [Finalized(id, status)]), fate.Committed?)
  }

  // ----- The instrumented provider -----

  datatype ProviderEnd = Returns | TimesOut | Fails | Crashes

  function StatusOf(e: ProviderEnd): Status {
    match e
    case Returns => Success
    case TimesOut => Status.TimedOut
    case Fails => Failed
    case Crashes => Failed
  }

  /** How a call looks to its caller. */
  datatype CallResult = NotStarted | Returned(id: CallId) | Unrecorded(id: CallId)
      | ProviderRaised(id: CallId, e: ProviderEnd)

  /** Between calls, with the row committed but the wrapped provider not yet invoked, and inside the call. */
  datatype Phase = Resting | Recorded(id: CallId) | Calling(id: CallId)

  /** latest is how the last finished call ended. */
  datatype Provider = Provider(lastCallId: Option<CallId>, phase: Phase, latest: Option<CallResult>)
  {
    function Open(): Option<CallId> {
      if phase.Resting? then None else Some(phase.id)
    }
  }

  const IDLE := Provider(None, Resting, None)

  datatype Machine = Machine(table: Table, providers: map<ProviderId, Provider>)

  datatype Action =
    | Insert(p: ProviderId, id: CallId, fate: Fate)
    | Invoke(p: ProviderId)
    | End(p: ProviderId, e: ProviderEnd, fate: Fate)

  function Of(m: Machine, p: ProviderId): Provider {
    if p in m.providers then m.providers[p] else IDLE
  }

  /** One instance runs one call at a time; different instances interleave freely. */
  predicate Enabled(m: Machine, a: Action) {
    match a
    case Insert(p, _, _) => Of(m, p).phase.Resting?
    case Invoke(p) => Of(m, p).phase.Recorded?
    case End(p, _, _) => Of(m, p).phase.Calling?
  }

  function Apply(m: Machine, a: Action): Machine
    requires Enabled(m, a)
  {
    match a
    case Insert(p, id, fate) =>
      var w := StartCall(m.table, id, fate);
      var pr := if w.ok then Provider(None, Recorded(id), Of(m, p).latest)
        else Provider(None, Resting, Some(NotStarted));
      Machine(w.table, m.providers[p := pr])
    case Invoke(p) =>
      var id := Of(m, p).phase.id;
      Machine(Table(m.table.rows, m.table.log + [Invoked(id)]), m.providers[p := Of(m, p).(phase := Calling(id))])
    case End(p, e, fate) =>
      var id := Of(m, p).phase.id;
      var w := FinishCall(m.table, id, StatusOf(e), fate);
      var result := if e != Returns then ProviderRaised(id, e) else if w.ok then Returned(id) else Unrecorded(id);
      Machine(w.table, m.providers[p := Provider(if result.Returned? then Some(id) else None, Resting, Some(result))])
  }

  function After(run: seq<Action>): Option<Machine> {
    if run == [] then Some(Machine(Table(map[], []), map[]))
    else
      var before, a := After(run[..|run| - 1]), run[|run| - 1];
      if before.Some? && Enabled(before.value, a) then Some(Apply(before.value, a)) else None
  }

  // ----- The life of a call -----

  datatype Life = Absent | Stored | Running | Ended(status: Status)

  function LifeOf(log: seq<Entry>, id: CallId): Life {
    if log == [] then Absent
    else
      var last := log[|log| - 1];
      if last.id != id then LifeOf(log[..|log| - 1], id)
      else
        match last
        case Inserted(_) => Stored
        case Invoked(_) => Running
        case Finalized(_, status) => Ended(status)
  }

  /** Whether an entry may follow what is already logged about its call. */
  predicate Follows(log: seq<Entry>, e: Entry) {
    match e
    case Inserted(id) => LifeOf(log, id) == Absent
    case Invoked(id) => LifeOf(log, id) == Stored
    case Finalized(id, status) => LifeOf(log, id) == Running && status != Started
  }

  predicate Audited(log: seq<Entry>) {
    log == [] || (Audited(log[..|log| - 1]) && Follows(log[..|log| - 1], log[|log| - 1]))
  }

  lemma Append(log: seq<Entry>, e: Entry)
    requires Audited(log) && Follows(log, e)
    ensures Audited(log + [e])
    ensures forall id :: LifeOf(log + [e], id) ==
              if e.id != id then LifeOf(log, id) else if e.Inserted? then Stored else if e.Invoked? then Running
                else Ended(e.status)
  {
    assert (log + [e])[..|log|] == log;
  }

  /** A call that got somewhere went through every earlier station, and an ended one ended once. */
  lemma {:induction false} LifeIsLogged(log: seq<Entry>, id: CallId)
    requires Audited(log)
    ensures LifeOf(log, id) != Absent <==> Inserted(id) in log
    ensures LifeOf(log, id) in {Absent, Stored} <==> Invoked(id) !in log
    ensures forall s :: LifeOf(log, id) == Ended(s) <==> Finalized(id, s) in log
  {
    if log != [] {
      var most, last := log[..|log| - 1], log[|log| - 1];
      LifeIsLogged(most, id);
      assert log == most + [last];
    }
  }

  lemma {:induction false} AuditedPrefix(log: seq<Entry>, k: nat)
    requires Audited(log) && k < |log|
    ensures Audited(log[..k]) && Follows(log[..k], log[k])
    decreases |log|
  {
    if k < |log| - 1 {
      AuditedPrefix(log[..|log| - 1], k);
      assert log[..|log| - 1][..k] == log[..k];
    }
  }

  // ----- Invariants -----

  /** The rows are what the log says. */
  ghost predicate RowsMatch(t: Table) {
    && (forall id :: id in t.rows <==> LifeOf(t.log, id) != Absent)
    && (forall id :: id in t.rows
         ==> t.rows[id] == if LifeOf(t.log, id).Ended? then LifeOf(t.log, id).status else Started)
  }

  /** A call in progress has got exactly as far as its provider thinks. */
  ghost predicate InProgress(t: Table, pr: Provider) {
    match pr.phase
    case Resting => true
    case Recorded(id) => LifeOf(t.log, id) == Stored && pr.lastCallId.None?
    case Calling(id) => LifeOf(t.log, id) == Running && pr.lastCallId.None?
  }

  /** A remembered id is that of the latest call, which returned and whose row says so; and conversely. */
  ghost predicate Remembers(t: Table, pr: Provider) {
    pr.phase.Resting? ==>
      && (pr.lastCallId.Some? ==>
            pr.latest == Some(Returned(pr.lastCallId.value)) && LifeOf(t.log, pr.lastCallId.value) == Ended(Success))
      && (pr.latest.Some? && pr.latest.value.Returned? ==> pr.lastCallId == Some(pr.latest.value.id))
  }

  ghost predicate ProvidersSound(m: Machine) {
    && (forall p :: p in m.providers ==> InProgress(m.table, m.providers[p]) && Remembers(m.table, m.providers[p]))
    && (forall p, q :: p in m.providers && q in m.providers && p != q && m.providers[p].Open().Some?
          ==> m.providers[p].Open() != m.providers[q].Open())
  }

  ghost predicate Inv(m: Machine) {
    Audited(m.table.log) && RowsMatch(m.table) && ProvidersSound(m)
  }

  lemma StartKeepsTable(t: Table, id: CallId, fate: Fate)
    requires Audited(t.log) && RowsMatch(t)
    ensures var w := StartCall(t, id, fate);
            && Audited(w.table.log) && RowsMatch(w.table)
            && (w.ok ==> LifeOf(t.log, id) == Absent && LifeOf(w.table.log, id) == Stored)
            && (forall other :: other != id ==> LifeOf(w.table.log, other) == LifeOf(t.log, other))
            && (!w.ok ==> LifeOf(t.log, id) != Absent ==> w.table == t)
  {
    if id !in t.rows {
      Append(t.log, Inserted(id));
    }
  }

  /** If only one provider changes, soundly, and the others' calls stay where they are, all stay sound. */
  lemma OthersStaySound(m: Machine, m': Machine, p: ProviderId)
    requires ProvidersSound(m) && p in m'.providers && m'.providers == m.providers[p := m'.providers[p]]
    requires InProgress(m'.table, m'.providers[p]) && Remembers(m'.table, m'.providers[p])
    requires forall id: CallId :: LifeOf(m.table.log, id) != Absent && Of(m, p).Open() != Some(id)
               ==> LifeOf(m'.table.log, id) == LifeOf(m.table.log, id)
    requires m'.providers[p].Open().Some? ==>
               Of(m, p).Open() == m'.providers[p].Open() || LifeOf(m.table.log, m'.providers[p].Open().value) == Absent
    requires forall id: CallId :: LifeOf(m.table.log, id) == Ended(Success)
              ==> LifeOf(m'.table.log, id) == Ended(Success)
    ensures ProvidersSound(m')
  {
    forall q | q in m'.providers
      ensures InProgress(m'.table, m'.providers[q]) && Remembers(m'.table, m'.providers[q])
    {
      if q != p {
        assert InProgress(m.table, m.providers[q]) && Remembers(m.table, m.providers[q]);
      }
    }
    forall q, r | q in m'.providers && r in m'.providers && q != r && m'.providers[q].Open().Some?
      ensures m'.providers[q].Open() != m'.providers[r].Open()
    {
      assert q != p ==> InProgress(m.table, m.providers[q]);
      assert r != p ==> InProgress(m.table, m.providers[r]);
    }
  }

  lemma InsertKeepsInv(m: Machine, a: Action)
    requires Inv(m) && Enabled(m, a) && a.Insert?
    ensures Inv(Apply(m, a))
  {
    StartKeepsTable(m.table, a.id, a.fate);
    OthersStaySound(m, Apply(m, a), a.p);
  }

  lemma InvokeKeepsInv(m: Machine, a: Action)
    requires Inv(m) && Enabled(m, a) && a.Invoke?
    ensures Inv(Apply(m, a))
  {
    var id := Of(m, a.p).phase.id;
    assert InProgress(m.table, m.providers[a.p]);
    Append(m.table.log, Invoked(id));
    OthersStaySound(m, Apply(m, a), a.p);
  }

  lemma EndKeepsInv(m: Machine, a: Action)
    requires Inv(m) && Enabled(m, a) && a.End?
    ensures Inv(Apply(m, a))
  {
    var id := Of(m, a.p).phase.id;
    assert InProgress(m.table, m.providers[a.p]);
    Append(m.table.log, Finalized(id, StatusOf(a.e)));
    OthersStaySound(m, Apply(m, a), a.p);
  }

  lemma {:induction false} ReachableInv(run: seq<Action>)
    requires After(run).Some?
    ensures Inv(After(run).value)
  {
    if run != [] {
      var before, a := After(run[..|run| - 1]).value, run[|run| - 1];
      ReachableInv(run[..|run| - 1]);
      match a
      case Insert(_, _, _) => InsertKeepsInv(before, a);
      case Invoke(_) => InvokeKeepsInv(before, a);
      case End(_, _, _) => EndKeepsInv(before, a);
    }
  }

  // ----- The main results -----

  /**
    In every interleaving of instrumented providers and every pattern of failing writes the provider is
    invoked only after its row is committed, and a row that has left its started status never leaves
    another: its one finalization is its status.
   */
  lemma CallsAreAudited(run: seq<Action>, k: nat)
    requires After(run).Some? && k < |After(run).value.table.log|
    ensures var t := After(run).value.table;
            match t.log[k]
            case Inserted(id) => true
            case Invoked(id) => Inserted(id) in t.log[..k] && Invoked(id) !in t.log[..k]
            case Finalized(id, s) =>
              Invoked(id) in t.log[..k] && (forall s' :: Finalized(id, s') !in t.log[..k]) && id in t.rows
                  && t.rows[id] == s
  {
    ReachableInv(run);
    var t := After(run).value.table;
    AuditedPrefix(t.log, k);
    LifeIsLogged(t.log[..k], t.log[k].id);
    LifeIsLogged(t.log, t.log[k].id);
  }

  /**
    Whenever a call ends its row is still open, so a write that is not lost records exactly the outcome;
    the caller gets the id only if that write is known to have committed, and otherwise learns how it ended.
   */
  lemma OutcomesAreRecorded(run: seq<Action>, a: Action)
    requires After(run).Some? && a.End? && Enabled(After(run).value, a)
    ensures var (m, done) := (After(run).value, Apply(After(run).value, a));
            var id := Of(m, a.p).phase.id;
            && id in m.table.rows && m.table.rows[id] == Started
            && done.table.rows == (if a.fate.Lost? then m.table.rows
                                   else m.table.rows[id := match a.e
                                                           case Returns => Success
                                                           case TimesOut => Status.TimedOut
                                                           case _ => Failed])
            && Of(done, a.p).latest == Some(if a.e != Returns then ProviderRaised(id, a.e)
                                            else if a.fate == Committed then Returned(id) else Unrecorded(id))
            && forall p :: p != a.p ==> Of(done, p) == Of(m, p)
  {
    ReachableInv(run);
    assert InProgress(After(run).value.table, After(run).value.providers[a.p]);
  }

  /** A call is invoked exactly when its id is new and its insert is known to have committed. */
  lemma CallsBeginIff(m: Machine, p: ProviderId, id: CallId, fate: Fate)
    requires Enabled(m, Insert(p, id, fate))
    ensures var done := Apply(m, Insert(p, id, fate));
            && (Enabled(done, Invoke(p)) <==> id !in m.table.rows && fate == Committed)
            && (!Enabled(done, Invoke(p)) ==> Of(done, p) == Provider(None, Resting, Some(NotStarted)))
            && done.table.rows == (if id in m.table.rows || fate == Lost then m.table.rows
              else m.table.rows[id := Started])
            && forall q :: q != p ==> Of(done, q) == Of(m, q)
  {
  }

  /** An idle provider remembers a call id exactly when its latest call returned; the id names a successful row. */
  lemma LastCallIdMeansReturned(run: seq<Action>, p: ProviderId, id: CallId)
    requires After(run).Some? && Of(After(run).value, p).phase.Resting?
    ensures var m := After(run).value;
            && (Of(m, p).lastCallId == Some(id) <==> Of(m, p).latest == Some(Returned(id)))
            && (Of(m, p).lastCallId == Some(id) ==> id in m.table.rows && m.table.rows[id] == Success)
  {
    ReachableInv(run);
    var m := After(run).value;
    if p in m.providers {
      assert Remembers(m.table, m.providers[p]);
    }
  }

  /** A whole call of one provider, with nobody in between. */
  function Called(m: Machine, p: ProviderId, id: CallId, starting: Fate, e: ProviderEnd, finishing: Fate): Machine
    requires Of(m, p).phase.Resting?
  {
    var inserted := Apply(m, Insert(p, id, starting));
    if Of(inserted, p).phase.Recorded? then Apply(Apply(inserted, Invoke(p)), End(p, e, finishing)) else inserted
  }

  /** The same call on a table that no other provider uses. */
  function CalledAlone(t: Table, id: CallId, starting: Fate, e: ProviderEnd, finishing: Fate): Machine {
    Called(Machine(t, map[]), 0, id, starting, e, finishing)
  }

  /** A whole call depends on nothing but the table, and touches nothing but the table and its own provider. */
  lemma CalledIsLocal(m: Machine, p: ProviderId, id: CallId, starting: Fate, e: ProviderEnd, finishing: Fate)
    requires Of(m, p).phase.Resting?
    ensures var (done, alone) :=
              (Called(m, p, id, starting, e, finishing), CalledAlone(m.table, id, starting, e, finishing));
            && done.table == alone.table && Of(done, p) == Of(alone, 0)
            && forall q :: q != p ==> Of(done, q) == Of(m, q)
  {
    var inserted, insertedAlone :=
        Apply(m, Insert(p, id, starting)), Apply(Machine(m.table, map[]), Insert(0, id, starting));
    assert inserted.table == insertedAlone.table;
    if StartCall(m.table, id, starting).ok {
      var invoked, invokedAlone := Apply(inserted, Invoke(p)), Apply(insertedAlone, Invoke(0));
      assert invoked.table == invokedAlone.table;
      assert Of(invoked, p).phase == Calling(id) == Of(invokedAlone, 0).phase;
    }
  }

  // ----- The classes -----

  class Recorder {
    var rows: map<CallId, Status>
    var log: seq<Entry>

    ghost function Contents(): Table
      reads this
    {
      Table(rows, log)
    }

    constructor ()
      ensures Contents() == Table(map[], [])
    {
      rows, log := map[], [];
    }

    method StartLLMCall(id: CallId, fate: Fate) returns (ok: bool)
      modifies this
      ensures Written(Contents(), ok) == StartCall(old(Contents()), id, fate)
    {
      if id in rows || fate.Lost? {
        return false;
      }
      rows := rows[id := Started];
      log := log + [Inserted(id)];
      return fate.Committed?;
    }

    method FinishLLMCall(id: CallId, status: Status, fate: Fate) returns (ok: bool)
      modifies this
      ensures Written(Contents(), ok) == FinishCall(old(Contents()), id, status, fate)
    {
      if id !in rows {
        return false;
      }
      if rows[id] != Started {
        return false;
      }
      if fate.Lost? {
        return false;
      }
      rows := rows[id := status];
      log := log + [Finalized(id, status)];
      return fate.Committed?;
    }
  }

  class InstrumentedProvider {
    const recorder: Recorder
    var lastCallId: Option<CallId>

    constructor (recorder: Recorder)
      ensures this.recorder == recorder && lastCallId == None
    {
      this.recorder := recorder;
      lastCallId := None;
    }

    /** The three steps of the machine, with the provider's own work before the last. */
    method Generate(id: CallId, starting: Fate, e: ProviderEnd, finishing: Fate) returns (result: CallResult)
      modifies this, recorder
      ensures var alone := CalledAlone(old(recorder.Contents()), id, starting, e, finishing);
              recorder.Contents() == alone.table && Provider(lastCallId, Resting, Some(result)) == Of(alone, 0)
    {
      lastCallId := None;
      var started := recorder.StartLLMCall(id, starting);
      if !started {
        return NotStarted;
      }
      recorder.log := recorder.log + [Invoked(id)];
      match e
      case Returns =>
        var completed := recorder.FinishLLMCall(id, Success, finishing);
        if !completed {
          return Unrecorded(id);
        }
        lastCallId := Some(id);
        return Returned(id);
      case TimesOut =>
        var _ := recorder.FinishLLMCall(id, Status.TimedOut, finishing);
        return ProviderRaised(id, e);
      case Fails =>
        var _ := recorder.FinishLLMCall(id, Failed, finishing);
        return ProviderRaised(id, e);
      case Crashes =>
        var _ := recorder.FinishLLMCall(id, Failed, finishing);
        return ProviderRaised(id, e);
    }
  }
}
