/**
  What the seeder's committed steps do, exactly: when each is permitted, what it writes, which version of
  a file's content preparation picks, what a file leaves behind, and how it is counted.
 */
module SeederMeaning {
  import opened KnowledgeSeeder
  import opened Outcomes

  /** One version changed, in its state and coverage only, and nothing else in the database. */
  predicate ChangesOnly(db: Db, after: Db, d: DocId, v: nat, st: State, covered: bool) {
    && HasVersion(db, d, v) && after.Keys == db.Keys
    && (forall e :: e in db && e != d ==> after[e] == db[e])
    && after[d].active == db[d].active && after[d].kind == db[d].kind
    && |after[d].versions| == |db[d].versions|
    && (forall i :: 0 <= i < |db[d].versions| && i != v ==> after[d].versions[i] == db[d].versions[i])
    && after[d].versions[v] == Version(db[d].versions[v].hash, st, covered)
  }

  /** A version can be claimed exactly while it is a draft or failed and its document is active. */
  lemma ClaimMeaning(db: Db, d: DocId, v: nat)
    ensures Claim(db, d, v).Some? <==>
              HasVersion(db, d, v) && db[d].active && (StateOf(db, d, v) == Draft || StateOf(db, d, v) == Failed)
    ensures Claim(db, d, v).Some? ==>
              ChangesOnly(db, Claim(db, d, v).value, d, v, Processing, db[d].versions[v].covered)
  {
  }

  /** Processing ends exactly for a version being processed; if it completed, the embeddings are gone. */
  lemma FinishMeaning(db: Db, d: DocId, v: nat)
    ensures Finish(db, d, v, Ready).Some? <==> HasVersion(db, d, v) && StateOf(db, d, v) == Processing
    ensures Finish(db, d, v, Failed).Some? <==> HasVersion(db, d, v) && StateOf(db, d, v) == Processing
    ensures Finish(db, d, v, Ready).Some? ==> ChangesOnly(db, Finish(db, d, v, Ready).value, d, v, Ready, false)
    ensures Finish(db, d, v, Failed).Some? ==>
              ChangesOnly(db, Finish(db, d, v, Failed).value, d, v, Failed, db[d].versions[v].covered)
  {
  }

  /** Embedding is permitted exactly after completed processing, and completes the version's coverage. */
  lemma EmbedMeaning(db: Db, d: DocId, v: nat)
    ensures Embed(db, d, v).Some? <==>
              && HasVersion(db, d, v)
              && (StateOf(db, d, v) == Ready || StateOf(db, d, v) == Published || StateOf(db, d, v) == Superseded)
    ensures Embed(db, d, v).Some? ==> ChangesOnly(db, Embed(db, d, v).value, d, v, StateOf(db, d, v), true)
  {
  }

  /**
    Publication is permitted exactly for the published version of an active document, where it changes
    nothing, and for a ready and covered one; then that is published, the one published before is
    superseded, and nothing else changes.
   */
  lemma PublishMeaning(db: Db, d: DocId, v: nat)
    requires Sound(db)
    ensures Publish(db, d, v).Some? <==>
              && HasVersion(db, d, v) && db[d].active
              && (StateOf(db, d, v) == Published || (StateOf(db, d, v) == Ready && db[d].versions[v].covered))
    ensures Publish(db, d, v).Some? && StateOf(db, d, v) == Published ==> Publish(db, d, v) == Some(db)
    ensures Publish(db, d, v).Some? && StateOf(db, d, v) != Published ==>
              var after := Publish(db, d, v).value;
              && after.Keys == db.Keys && (forall e :: e in db && e != d ==> after[e] == db[e])
              && after[d].active == db[d].active && after[d].kind == db[d].kind
              && |after[d].versions| == |db[d].versions|
              && forall i :: 0 <= i < |db[d].versions| ==>
                   after[d].versions[i] ==
                     if i == v then db[d].versions[i].(state := Published)
                     else if StateOf(db, d, i) == Published then db[d].versions[i].(state := Superseded)
                     else db[d].versions[i]
  {
    if HasVersion(db, d, v) {
      PublishedAtFinds(db[d].versions);
      assert SoundVersions(db[d].versions);
    }
  }

  /** The newest version with this content and state. */
  predicate NewestIs(vs: seq<Version>, h: Hash, st: State, v: nat) {
    && v < |vs| && vs[v].hash == h && vs[v].state == st
    && forall i :: v < i < |vs| ==> !(vs[i].hash == h && vs[i].state == st)
  }

  lemma {:induction false} NewestMeaning(vs: seq<Version>, h: Hash, st: State, v: nat)
    ensures Newest(vs, h, st) == Some(v) <==> NewestIs(vs, h, st, v)
    ensures Newest(vs, h, st) == None <==> forall i :: 0 <= i < |vs| ==> !(vs[i].hash == h && vs[i].state == st)
  {
    if vs != [] {
      NewestMeaning(vs[..|vs| - 1], h, st, v);
    }
  }

  predicate HasIn(db: Db, d: DocId, h: Hash, st: State) {
    d in db && exists i :: 0 <= i < |db[d].versions| && db[d].versions[i].hash == h && db[d].versions[i].state == st
  }

  /** What preparation decides: skip, refuse, reuse the newest ready or draft version, or add a draft. */
  lemma PreparationMeaning(db: Db, f: File)
    ensures var p := Prepare(db, f);
            && (p.next == Skip <==> UpToDate(db, f))
            && (p.next == Refused <==> !Usable(db, f))
            && (p.next.Work? ==>
                  var (h, vs) := (f.content.hash, if f.doc in db then db[f.doc].versions else []);
                  && (!p.next.process <==> HasIn(db, f.doc, h, Ready))
                  && (p.newVersion <==> !HasIn(db, f.doc, h, Ready) && !HasIn(db, f.doc, h, Draft))
                  && (!p.next.process ==> NewestIs(vs, h, Ready, p.next.version))
                  && (p.next.process && !p.newVersion ==> NewestIs(vs, h, Draft, p.next.version))
                  && (p.newVersion ==> p.next.version == |vs|))
            && (!p.newVersion ==> p.db == db)
            && (p.newVersion ==>
                  p.db == db[f.doc := Document(true, f.kind, (if f.doc in db then db[f.doc].versions else [])
                                                             + [Version(f.content.hash, Draft, false)])])
            && (p.newDocument <==> f.content.Hashed? && f.doc !in db)
  {
    SkippedIff(db, f, WORKING);
    if f.content.Hashed? {
      var (h, vs) := (f.content.hash, if f.doc in db then db[f.doc].versions else []);
      PublishedAtFinds(vs);
      var v := if Prepare(db, f).next.Work? then Prepare(db, f).next.version else 0;
      NewestMeaning(vs, h, Ready, v);
      NewestMeaning(vs, h, Draft, v);
    }
  }

  // ----- What a file leaves behind -----

  /** The file has to be processed: it is usable, not up to date, and no ready version has its content. */
  predicate NeedsProcessing(db: Db, f: File) {
    f.content.Hashed? && Usable(db, f) && !UpToDate(db, f) && !HasIn(db, f.doc, f.content.hash, Ready)
  }

  /** The state in which processing leaves the version, by what the service does. */
  function ProcessedState(s: Services): State {
    if !s.claims then Draft
    else
      match s.processing
      case Succeeds => Ready
      case FailsRecorded => Failed
      case FailsUnrecorded => Processing
  }

  lemma ProcessServiceMeaning(db: Db, d: DocId, v: nat, s: Services)
    requires HasVersion(db, d, v) && db[d].active && StateOf(db, d, v) == Draft
    ensures var (done, st) := (ProcessService(db, d, v, s), ProcessedState(s));
            && ChangesOnly(db, done.db, d, v, st, db[d].versions[v].covered && st != Ready)
            && (done.processed <==> st == Ready) && (done.end == FailedIt <==> st != Ready)
  {
    ClaimMeaning(db, d, v);
    if s.claims {
      FinishMeaning(Claim(db, d, v).value, d, v);
    }
  }

  /** A freshly processed version cannot be published by the same run, so that is all a file in need of it leaves. */
  lemma CarriedMeaning(db: Db, f: File, v: nat, s: Services)
    requires Sound(db) && Pending(db, f, v, Draft) && PublishedHash(db, f.doc) != Some(f.content.hash)
    ensures var (done, st) := (Carried(db, f.doc, v, true, s), ProcessedState(s));
            && ChangesOnly(db, done.db, f.doc, v, st, db[f.doc].versions[v].covered && st != Ready)
            && done.end == FailedIt && (done.processed <==> st == Ready)
  {
    ProcessServiceMeaning(db, f.doc, v, s);
    ProcessOutcome(db, f, v, s);
    var done := ProcessService(db, f.doc, v, s);
    if done.end != FailedIt {
      PublishOutcome(done.db, f, v, true, s);
    }
  }

  /** What a file leaves that has to be processed: its one version as far as the services got, the rest prepared. */
  lemma ProcessedFileLeaves(db: Db, f: File, s: Services)
    requires Sound(db) && NeedsProcessing(db, f)
    ensures var (p, done) := (Prepare(db, f), SeedFile(db, f, s));
            && p.next.Work? && p.next.process && HasVersion(p.db, f.doc, p.next.version)
            && ChangesOnly(p.db, done.db, f.doc, p.next.version, ProcessedState(s),
                           p.db[f.doc].versions[p.next.version].covered && ProcessedState(s) != Ready)
            && done.end == FailedIt && (done.processed <==> ProcessedState(s) == Ready)
  {
    PreparationMeaning(db, f);
    PrepareKeepsSound(db, f);
    PrepareIsQuiet(db, f);
    CarriedMeaning(Prepare(db, f).db, f, Prepare(db, f).next.version, s);
  }

  /** Every other file is published from what waits, or leaves the database as it was. */
  lemma OtherFilesLeave(db: Db, f: File, s: Services)
    requires Sound(db) && !NeedsProcessing(db, f)
    ensures var done := SeedFile(db, f, s);
            && !done.processed
            && (done.end != PublishedIt ==> done.db == db)
            && (done.end == PublishedIt ==>
                  exists v :: Pending(db, f, v, Ready) && Publish(db, f.doc, v) == Some(done.db))
  {
    PreparationMeaning(db, f);
    PrepareKeepsSound(db, f);
    StagedIsReused(db, f);
    SeededFileIsPublished(db, f, s);
    var p := Prepare(db, f);
    if p.next.Work? {
      assert !p.next.process && p.db == db;
      PrepareIsQuiet(db, f);
      PublishOutcome(db, f, p.next.version, false, s);
    }
  }

  /** How a file is counted: what it created, whether it was processed, and exactly one of the three results. */
  lemma FileIsCounted(before: Report, f: File, s: Services)
    requires Sound(before.db)
    ensures var (db, a, b) := (before.db, before.summary, SeedNext(before, f, s).summary);
            && b.discovered == a.discovered
            && b.createdDocuments == a.createdDocuments + One(f.content.Hashed? && f.doc !in db)
            && b.createdVersions == a.createdVersions
                 + One(NeedsProcessing(db, f) && !HasIn(db, f.doc, f.content.hash, Draft))
            && b.processed == a.processed + One(NeedsProcessing(db, f) && ProcessedState(s) == Ready)
            && b.skipped == a.skipped + One(UpToDate(db, f))
            && b.published == a.published + One(Staged(db, f) && s.publishes)
            && b.failed == a.failed + One(!UpToDate(db, f) && !(Staged(db, f) && s.publishes))
            && SeedNext(before, f, s).db == SeedFile(db, f, s).db
  {
    PreparationMeaning(before.db, f);
    SeededFileIsPublished(before.db, f, s);
    if NeedsProcessing(before.db, f) {
      ProcessedFileLeaves(before.db, f, s);
    } else {
      OtherFilesLeave(before.db, f, s);
    }
  }

  // ----- A run left alone is one of the interleaved runs -----

  lemma OneMoreStep(db: Db, run: seq<Action>, a: Action)
    requires After(db, run).Some?
    ensures After(db, run + [a]) == Apply(After(db, run).value, a)
  {
    assert (run + [a])[..|run|] == run;
  }

  lemma GivesUp(db: Db, run: seq<Action>)
    requires After(db, run).Some?
    ensures After(db, run + [GiveUp]) == Some(Machine(After(db, run).value.db, Idle))
  {
    OneMoreStep(db, run, GiveUp);
  }

  /** The chosen version is published, or the seeder gives it up. */
  lemma PublicationIsARun(db: Db, run: seq<Action>, d: DocId, v: nat, processed: bool, s: Services)
    returns (more: seq<Action>)
    requires After(db, run).Some? && After(db, run).value.phase in {Chosen(d, v, false), Processed(d, v)}
    ensures After(db, more) == Some(Machine(PublishService(After(db, run).value.db, d, v, processed, s).db, Idle))
  {
    var m := After(db, run).value;
    if s.publishes && Publish(m.db, d, v).Some? {
      more := run + [PublishVersion];
      OneMoreStep(db, run, PublishVersion);
    } else {
      more := run + [GiveUp];
      GivesUp(db, run);
    }
  }

  /** The version is claimed, processed as far as the services get, and published or given up. */
  lemma ProcessingIsARun(db: Db, run: seq<Action>, d: DocId, v: nat, s: Services) returns (more: seq<Action>)
    requires After(db, run).Some? && After(db, run).value.phase == Chosen(d, v, true)
    requires var now := After(db, run).value.db; HasVersion(now, d, v) && now[d].active && StateOf(now, d, v) == Draft
    ensures After(db, more) == Some(Machine(Carried(After(db, run).value.db, d, v, true, s).db, Idle))
  {
    var now := After(db, run).value.db;
    ClaimMeaning(now, d, v);
    if !s.claims {
      more := run + [GiveUp];
      GivesUp(db, run);
    } else {
      var claimed := run + [ClaimVersion];
      OneMoreStep(db, run, ClaimVersion);
      FinishMeaning(Claim(now, d, v).value, d, v);
      match s.processing
      case FailsUnrecorded =>
        more := claimed + [GiveUp];
        GivesUp(db, claimed);
      case FailsRecorded =>
        more := claimed + [RecordFailure];
        OneMoreStep(db, claimed, RecordFailure);
      case Succeeds =>
        OneMoreStep(db, claimed, CompleteProcessing);
        more := PublicationIsARun(db, claimed + [CompleteProcessing], d, v, true, s);
    }
  }

  /** What one file comes to when left alone is what some run of the committed steps comes to. */
  lemma FileIsARun(db: Db, run: seq<Action>, f: File, s: Services) returns (more: seq<Action>)
    requires After(db, run).Some? && After(db, run).value.phase == Idle && Sound(After(db, run).value.db)
    ensures After(db, more) == Some(Machine(SeedFile(After(db, run).value.db, f, s).db, Idle))
  {
    var now := After(db, run).value.db;
    var p := Prepare(now, f);
    PrepareKeepsSound(now, f);
    more := run + [StartFile(f)];
    OneMoreStep(db, run, StartFile(f));
    match p.next
    case Skip =>
    case Refused =>
    case Work(v, false) => more := PublicationIsARun(db, more, f.doc, v, false, s);
    case Work(v, true) => more := ProcessingIsARun(db, more, f.doc, v, s);
  }

  lemma NextFileIsARun(db: Db, before: seq<Action>, now: Report, f: File, s: Services) returns (run: seq<Action>)
    requires Sound(now.db) && After(db, before) == Some(Machine(now.db, Idle))
    ensures After(db, run) == Some(Machine(SeedNext(now, f, s).db, Idle))
  {
    run := FileIsARun(db, before, f, s);
  }

  /** A whole directory left alone is such a run, so what holds of every interrupted run holds of it. */
  lemma {:induction false} DirectoryIsARun(db: Db, files: seq<File>, services: nat -> Services, n: nat)
    returns (run: seq<Action>)
    requires Sound(db) && n <= |files|
    ensures After(db, run) == Some(Machine(SeedFirst(db, files, services, n).db, Idle))
  {
    run := [];
    if n > 0 {
      var before := DirectoryIsARun(db, files, services, n - 1);
      SeedingKeepsSound(db, files, services, n - 1);
      run := NextFileIsARun(db, before, SeedFirst(db, files, services, n - 1), files[n - 1], services(n - 1));
    }
  }
}
