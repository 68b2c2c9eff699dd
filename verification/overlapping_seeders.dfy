/**
  Any number of seeder processes over one database, their committed steps interleaved in any order, with
  versions being embedded in between.
  Overlap is harmless unless two processes come to work on the same content of the same document.
 */
module OverlappingSeeders {
  import opened Outcomes
  import opened KnowledgeSeeder

  type ProcessId = nat

  datatype Fleet = Fleet(db: Db, phases: map<ProcessId, Phase>)

  datatype Step = Step(who: ProcessId, action: Action)

  function PhaseOf(f: Fleet, p: ProcessId): Phase {
    if p in f.phases then f.phases[p] else Idle
  }

  function Advance(f: Fleet, s: Step): Option<Fleet> {
    var next := Apply(Machine(f.db, PhaseOf(f, s.who)), s.action);
    if next.None? then None else Some(Fleet(next.value.db, f.phases[s.who := next.value.phase]))
  }

  function FleetAfter(db: Db, run: seq<Step>): Option<Fleet> {
    if run == [] then Some(Fleet(db, map[]))
    else
      var before := FleetAfter(db, run[..|run| - 1]);
      if before.None? then None else Advance(before.value, run[|run| - 1])
  }

  /** The process has claimed a version of this content in this document. */
  predicate WorksOn(f: Fleet, p: ProcessId, d: DocId, h: Hash) {
    p in f.phases && f.phases[p].Claimed? && f.phases[p].doc == d
    && HasVersion(f.db, d, f.phases[p].version) && f.db[d].versions[f.phases[p].version].hash == h
  }

  ghost predicate Contested(f: Fleet, p: ProcessId, d: DocId, h: Hash) {
    exists q :: q in f.phases && q != p && WorksOn(f, q, d, h)
  }

  /**
    The step puts a second version of one content to work: it adds one while another process is
    processing that content, or it claims one that has a live twin or that another process also works on.
   */
  ghost predicate Hazard(f: Fleet, s: Step) {
    match (s.action, PhaseOf(f, s.who))
    case (StartFile(file), Idle) =>
      Prepare(f.db, file).newVersion && file.content.Hashed? && Contested(f, s.who, file.doc, file.content.hash)
    case (ClaimVersion, Chosen(d, v, true)) =>
      HasVersion(f.db, d, v) && (!Alone(f.db[d].versions, v) || Contested(f, s.who, d, f.db[d].versions[v].hash))
    case _ => false
  }

  /** A claimed version is being processed and has no live twin. */
  predicate ClaimSound(f: Fleet, p: ProcessId)
    requires p in f.phases
  {
    f.phases[p].Claimed? ==>
      var (d, v) := (f.phases[p].doc, f.phases[p].version);
      HasVersion(f.db, d, v) && StateOf(f.db, d, v) == Processing && Alone(f.db[d].versions, v)
  }

  /** Two processes never work on the same content of one document. */
  predicate Apart(f: Fleet, p: ProcessId, q: ProcessId)
    requires p in f.phases && q in f.phases
  {
    f.phases[p].Claimed? && f.phases[q].Claimed? && f.phases[p].doc == f.phases[q].doc ==>
      var d := f.phases[p].doc;
      HasVersion(f.db, d, f.phases[p].version) && HasVersion(f.db, d, f.phases[q].version)
      && f.db[d].versions[f.phases[p].version].hash != f.db[d].versions[f.phases[q].version].hash
  }

  predicate FleetInv(f: Fleet) {
    && Sound(f.db)
    && (forall p :: p in f.phases ==> ClaimSound(f, p))
    && (forall p, q :: p in f.phases && q in f.phases && p != q ==> Apart(f, p, q))
  }

  // ----- Steps without hazard -----

  /** No document or version goes away, and none changes its content. */
  predicate VersionsKept(before: Db, after: Db) {
    forall d :: d in before ==>
      && d in after && |before[d].versions| <= |after[d].versions|
      && (forall i :: 0 <= i < |before[d].versions| ==> after[d].versions[i].hash == before[d].versions[i].hash)
  }

  /** Nobody's claim is disturbed: claimed versions are still processed, and no live twin appears. */
  predicate Undisturbed(before: Db, after: Db, d: DocId, v: nat)
    requires HasVersion(before, d, v)
  {
    && VersionsKept(before, after)
    && HasVersion(after, d, v) && StateOf(after, d, v) == StateOf(before, d, v)
    && (forall i :: 0 <= i < |after[d].versions| && i != v && Live(after[d].versions[i].state)
          ==> (i < |before[d].versions| && Live(before[d].versions[i].state))
              || after[d].versions[i].hash != after[d].versions[v].hash)
  }

  lemma ClaimsOutlast(before: Fleet, after: Fleet, p: ProcessId)
    requires p in before.phases && p in after.phases && after.phases[p] == before.phases[p] && ClaimSound(before, p)
    requires before.phases[p].Claimed? ==>
              Undisturbed(before.db, after.db, before.phases[p].doc, before.phases[p].version)
    ensures ClaimSound(after, p)
  {
  }

  lemma ApartOutlasts(before: Fleet, after: Fleet, p: ProcessId, q: ProcessId)
    requires p in before.phases && q in before.phases && p in after.phases && q in after.phases
    requires after.phases[p] == before.phases[p] && after.phases[q] == before.phases[q]
    requires Apart(before, p, q) && VersionsKept(before.db, after.db)
    ensures Apart(after, p, q)
  {
  }

  /** If only the acting process changes phase, and not into a claim, the others' claims carry over. */
  lemma OthersCarryOver(before: Fleet, after: Fleet, who: ProcessId)
    requires FleetInv(before) && Sound(after.db) && VersionsKept(before.db, after.db)
    requires after.phases.Keys == before.phases.Keys + {who} && !after.phases[who].Claimed?
    requires forall p :: p in before.phases && p != who ==>
               && after.phases[p] == before.phases[p]
               && (before.phases[p].Claimed?
                    && HasVersion(before.db, before.phases[p].doc, before.phases[p].version) ==>
                     Undisturbed(before.db, after.db, before.phases[p].doc, before.phases[p].version))
    ensures FleetInv(after)
  {
    forall p | p in after.phases
      ensures ClaimSound(after, p)
    {
      if p != who {
        assert ClaimSound(before, p);
        ClaimsOutlast(before, after, p);
      }
    }
    forall p, q | p in after.phases && q in after.phases && p != q
      ensures Apart(after, p, q)
    {
      if p != who && q != who {
        ApartOutlasts(before, after, p, q);
      }
    }
  }

  /** Preparation leaves versions alone, except that it may add one draft of the file's content. */
  lemma PrepareAdds(db: Db, file: File)
    ensures var p := Prepare(db, file);
            && VersionsKept(db, p.db)
            && (forall d :: d in db && d != file.doc ==> p.db[d] == db[d])
            && (p.newVersion ==> file.content.Hashed?)
            && (file.doc in db && !p.newVersion ==> p.db[file.doc].versions == db[file.doc].versions)
            && (file.doc in db && p.newVersion ==>
                 p.db[file.doc].versions == db[file.doc].versions + [NewDraft(file.content.hash)])
  {
  }

  lemma StartFileIsSafe(f: Fleet, s: Step)
    requires FleetInv(f) && s.action.StartFile? && Advance(f, s).Some? && !Hazard(f, s)
    ensures FleetInv(Advance(f, s).value)
  {
    var file, after := s.action.f, Advance(f, s).value;
    var p := Prepare(f.db, file);
    PrepareKeepsSound(f.db, file);
    PrepareAdds(f.db, file);
    forall q | q in f.phases && q != s.who && f.phases[q].Claimed?
      ensures HasVersion(f.db, f.phases[q].doc, f.phases[q].version)
      ensures Undisturbed(f.db, after.db, f.phases[q].doc, f.phases[q].version)
    {
      assert ClaimSound(f, q);
      if p.newVersion && f.phases[q].doc == file.doc {
        assert !WorksOn(f, q, file.doc, file.content.hash);
      }
    }
    OthersCarryOver(f, after, s.who);
  }

  lemma PublishMoves(db: Db, d: DocId, v: nat)
    requires Publish(db, d, v).Some?
    ensures var after := Publish(db, d, v).value;
            && VersionsKept(db, after)
            && (forall e :: e in db && e != d ==> after[e] == db[e])
            && |after[d].versions| == |db[d].versions|
            && (forall i :: 0 <= i < |db[d].versions| && after[d].versions[i].state != db[d].versions[i].state ==>
                  Live(db[d].versions[i].state))
  {
    PublishedAtFinds(db[d].versions);
  }

  lemma PublishDisturbsNobody(db: Db, d: DocId, v: nat, e: DocId, w: nat)
    requires Publish(db, d, v).Some? && HasVersion(db, e, w) && StateOf(db, e, w) == Processing
    ensures Undisturbed(db, Publish(db, d, v).value, e, w)
  {
    PublishMoves(db, d, v);
  }

  lemma FinishDisturbsNoOther(db: Db, d: DocId, v: nat, st: State, e: DocId, w: nat)
    requires HasVersion(db, d, v) && HasVersion(db, e, w)
              && (d == e ==> db[d].versions[v].hash != db[d].versions[w].hash)
    ensures Undisturbed(db, WithState(db, d, v, st), e, w)
  {
  }

  lemma PublicationCarriesOver(f: Fleet, after: Fleet, who: ProcessId, d: DocId, v: nat)
    requires FleetInv(f) && Publish(f.db, d, v) == Some(after.db) && after.phases == f.phases[who := Idle]
    ensures FleetInv(after)
  {
    PublishKeepsSound(f.db, d, v);
    PublishMoves(f.db, d, v);
    forall q | q in f.phases && q != who && f.phases[q].Claimed?
      ensures HasVersion(f.db, f.phases[q].doc, f.phases[q].version)
      ensures Undisturbed(f.db, after.db, f.phases[q].doc, f.phases[q].version)
    {
      assert ClaimSound(f, q);
      PublishDisturbsNobody(f.db, d, v, f.phases[q].doc, f.phases[q].version);
    }
    OthersCarryOver(f, after, who);
  }

  lemma PublishIsSafe(f: Fleet, s: Step)
    requires FleetInv(f) && s.action.PublishVersion? && Advance(f, s).Some?
    ensures FleetInv(Advance(f, s).value)
  {
    PublicationCarriesOver(f, Advance(f, s).value, s.who, PhaseOf(f, s.who).doc, PhaseOf(f, s.who).version);
  }

  /** Completing or failing the version it claimed disturbs nobody: the others work on other content. */
  lemma FinishIsSafe(f: Fleet, s: Step)
    requires FleetInv(f) && (s.action.CompleteProcessing? || s.action.RecordFailure?) && Advance(f, s).Some?
    ensures FleetInv(Advance(f, s).value)
  {
    var (d, v) := (PhaseOf(f, s.who).doc, PhaseOf(f, s.who).version);
    var after := Advance(f, s).value;
    assert ClaimSound(f, s.who);
    var st := if s.action.CompleteProcessing? then Ready else Failed;
    StateChangeKeepsSound(f.db, d, v, st);
    assert after.db == WithState(f.db, d, v, st);
    forall q | q in f.phases && q != s.who && f.phases[q].Claimed?
      ensures HasVersion(f.db, f.phases[q].doc, f.phases[q].version)
      ensures Undisturbed(f.db, after.db, f.phases[q].doc, f.phases[q].version)
    {
      assert ClaimSound(f, q) && Apart(f, s.who, q);
      FinishDisturbsNoOther(f.db, d, v, st, f.phases[q].doc, f.phases[q].version);
    }
    OthersCarryOver(f, after, s.who);
  }

  lemma ClaimIsSafe(f: Fleet, s: Step)
    requires FleetInv(f) && s.action.ClaimVersion? && Advance(f, s).Some? && !Hazard(f, s)
    ensures FleetInv(Advance(f, s).value)
  {
    var (d, v) := (PhaseOf(f, s.who).doc, PhaseOf(f, s.who).version);
    var after := Advance(f, s).value;
    StateChangeKeepsSound(f.db, d, v, Processing);
    forall p | p in after.phases
      ensures ClaimSound(after, p)
    {
      if p != s.who {
        assert ClaimSound(f, p);
        ClaimsOutlast(f, after, p);
      }
    }
    forall p, q | p in after.phases && q in after.phases && p != q
      ensures Apart(after, p, q)
    {
      if p != s.who && q != s.who {
        ApartOutlasts(f, after, p, q);
      } else {
        var other := if p == s.who then q else p;
        assert ClaimSound(f, other) && !WorksOn(f, other, d, f.db[d].versions[v].hash);
      }
    }
  }

  lemma EmbedDisturbsNobody(db: Db, d: DocId, v: nat, e: DocId, w: nat)
    requires Embed(db, d, v).Some? && HasVersion(db, e, w)
    ensures Undisturbed(db, Embed(db, d, v).value, e, w)
  {
  }

  lemma EmbedIsQuiet(db: Db, d: DocId, v: nat)
    requires Embed(db, d, v).Some?
    ensures VersionsKept(db, Embed(db, d, v).value)
  {
  }

  /** Embedding, whoever does it, leaves every claim and every phase alone. */
  lemma EmbedIsSafe(f: Fleet, s: Step)
    requires FleetInv(f) && s.action.EmbedVersion? && Advance(f, s).Some?
    ensures FleetInv(Advance(f, s).value)
  {
    var (d, v, after) := (s.action.doc, s.action.version, Advance(f, s).value);
    EmbedKeepsSound(f.db, d, v);
    EmbedIsQuiet(f.db, d, v);
    forall p | p in after.phases
      ensures ClaimSound(after, p)
    {
      if p in f.phases {
        assert ClaimSound(f, p);
        if f.phases[p].Claimed? {
          EmbedDisturbsNobody(f.db, d, v, f.phases[p].doc, f.phases[p].version);
        }
        ClaimsOutlast(f, after, p);
      }
    }
    forall p, q | p in after.phases && q in after.phases && p != q
      ensures Apart(after, p, q)
    {
      if p in f.phases && q in f.phases {
        ApartOutlasts(f, after, p, q);
      }
    }
  }

  lemma SafeStep(f: Fleet, s: Step)
    requires FleetInv(f) && Advance(f, s).Some? && !Hazard(f, s)
    ensures FleetInv(Advance(f, s).value)
  {
    match s.action
    case StartFile(_) => StartFileIsSafe(f, s);
    case ClaimVersion => ClaimIsSafe(f, s);
    case CompleteProcessing => FinishIsSafe(f, s);
    case RecordFailure => FinishIsSafe(f, s);
    case PublishVersion => PublishIsSafe(f, s);
    case EmbedVersion(_, _) => EmbedIsSafe(f, s);
    case GiveUp => OthersCarryOver(f, Advance(f, s).value, s.who);
  }

  // ----- What a hazard leads to -----

  /** The named processes complete their claims, in order. */
  function Completed(f: Fleet, who: seq<ProcessId>): Option<Fleet> {
    if who == [] then Some(f)
    else
      var before := Completed(f, who[..|who| - 1]);
      if before.None? then None else Advance(before.value, Step(who[|who| - 1], CompleteProcessing))
  }

  lemma {:induction false} CompletionsAreSafe(f: Fleet, who: seq<ProcessId>)
    requires FleetInv(f) && Completed(f, who).Some?
    ensures FleetInv(Completed(f, who).value)
  {
    if who != [] {
      CompletionsAreSafe(f, who[..|who| - 1]);
      SafeStep(Completed(f, who[..|who| - 1]).value, Step(who[|who| - 1], CompleteProcessing));
    }
  }

  lemma CompletedOne(f: Fleet, p: ProcessId)
    ensures Completed(f, [p]) == Advance(f, Step(p, CompleteProcessing))
  {
    assert [p][..0] == [];
  }

  lemma CompletedTwo(f: Fleet, p: ProcessId, q: ProcessId)
    requires Completed(f, [p]).Some?
    ensures Completed(f, [p, q]) == Advance(Completed(f, [p]).value, Step(q, CompleteProcessing))
  {
    assert [p, q][..1] == [p];
  }

  lemma TwinsAreUnsound(db: Db, d: DocId, v: nat, w: nat)
    requires HasVersion(db, d, v) && HasVersion(db, d, w) && v != w
    requires db[d].versions[v].hash == db[d].versions[w].hash && Live(StateOf(db, d, v)) && Live(StateOf(db, d, w))
    ensures !Sound(db)
  {
    assert !SoundVersions(db[d].versions) by {
      var (i, j) := if v < w then (v, w) else (w, v);
      assert Live(db[d].versions[i].state) && Live(db[d].versions[j].state);
    }
  }

  /** Completing a version keeps a sound database sound exactly when no other live version has its content. */
  lemma FinishIsSoundIff(db: Db, d: DocId, v: nat)
    requires Sound(db) && Finish(db, d, v, Ready).Some?
    ensures Sound(Finish(db, d, v, Ready).value) <==> Alone(db[d].versions, v)
  {
    var vs := db[d].versions;
    if Alone(vs, v) {
      StateChangeKeepsSound(db, d, v, Ready);
    } else {
      var w :| 0 <= w < |vs| && w != v && Live(vs[w].state) && vs[w].hash == vs[v].hash;
      TwinsAreUnsound(Finish(db, d, v, Ready).value, d, v, w);
    }
  }

  lemma AddingHazardBreaks(f: Fleet, s: Step) returns (who: seq<ProcessId>)
    requires FleetInv(f) && Advance(f, s).Some? && s.action.StartFile? && Hazard(f, s)
    ensures Completed(Advance(f, s).value, who).Some? && !Sound(Completed(Advance(f, s).value, who).value.db)
  {
    var file, after := s.action.f, Advance(f, s).value;
    var q :| q in f.phases && q != s.who && WorksOn(f, q, file.doc, file.content.hash);
    PrepareAdds(f.db, file);
    assert ClaimSound(f, q);
    who := [q];
    CompletedOne(after, q);
    var v := f.phases[q].version;
    var w := |f.db[file.doc].versions|;
    TwinsAreUnsound(Completed(after, who).value.db, file.doc, v, w);
  }

  lemma ClaimingHazardBreaks(f: Fleet, s: Step) returns (who: seq<ProcessId>)
    requires FleetInv(f) && Advance(f, s).Some? && s.action.ClaimVersion? && Hazard(f, s)
    ensures Completed(Advance(f, s).value, who).Some? && !Sound(Completed(Advance(f, s).value, who).value.db)
  {
    var (d, v) := (PhaseOf(f, s.who).doc, PhaseOf(f, s.who).version);
    var (h, after) := (f.db[d].versions[v].hash, Advance(f, s).value);
    if !Alone(f.db[d].versions, v) {
      var w :| 0 <= w < |f.db[d].versions| && w != v && Live(f.db[d].versions[w].state)
          && f.db[d].versions[w].hash == h;
      who := [s.who];
      CompletedOne(after, s.who);
      TwinsAreUnsound(Completed(after, who).value.db, d, v, w);
    } else {
      var q :| q in f.phases && q != s.who && WorksOn(f, q, d, h);
      assert ClaimSound(f, q);
      who := [q, s.who];
      CompletedOne(after, q);
      CompletedTwo(after, q, s.who);
      TwinsAreUnsound(Completed(after, who).value.db, d, v, f.phases[q].version);
    }
  }

  // ----- The main results -----

  /**
    From a sound situation a step is harmless exactly when it is no hazard: a harmless one stays sound
    however the work in progress is completed; a hazard can be completed into two live versions of one
    content.
   */
  lemma OverlapIsHarmlessIff(f: Fleet, s: Step)
    requires FleetInv(f) && Advance(f, s).Some?
    ensures !Hazard(f, s) <==>
              forall who :: Completed(Advance(f, s).value, who).Some?
                  ==> Sound(Completed(Advance(f, s).value, who).value.db)
  {
    var after := Advance(f, s).value;
    if Hazard(f, s) {
      var who: seq<ProcessId>;
      if s.action.StartFile? {
        who := AddingHazardBreaks(f, s);
      } else {
        who := ClaimingHazardBreaks(f, s);
      }
      assert Completed(after, who).Some? && !Sound(Completed(after, who).value.db);
    } else {
      SafeStep(f, s);
      forall who | Completed(after, who).Some?
        ensures Sound(Completed(after, who).value.db)
      {
        CompletionsAreSafe(after, who);
      }
    }
  }

  /** No step of the run was a hazard when it was taken. */
  ghost predicate HazardFree(db: Db, run: seq<Step>) {
    forall k :: 0 <= k < |run| && FleetAfter(db, run[..k]).Some? ==> !Hazard(FleetAfter(db, run[..k]).value, run[k])
  }

  /** Any number of seeders, interleaved and interrupted in any way without a hazard, keep the database sound. */
  lemma {:induction false} HazardFreeRunsStaySound(db: Db, run: seq<Step>)
    requires Sound(db) && FleetAfter(db, run).Some? && HazardFree(db, run)
    ensures FleetInv(FleetAfter(db, run).value)
  {
    if run != [] {
      var most := run[..|run| - 1];
      assert forall k :: 0 <= k < |most| ==> most[..k] == run[..k];
      HazardFreeRunsStaySound(db, most);
      SafeStep(FleetAfter(db, most).value, run[|run| - 1]);
    }
  }
}
