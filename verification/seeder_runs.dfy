/**
  Whole runs of the seeder: what a run publishes, in terms of the database and the files it starts with,
  and how an interrupted run is recovered.
 */
module SeederRuns {
  import opened KnowledgeSeeder
  import opened Outcomes

  // ----- What one file does to what is published and what waits -----

  predicate Publishes(db: Db, f: File, s: Services, g: File) {
    SeedFile(db, f, s).end == PublishedIt && g.doc == f.doc
  }

  lemma PublishedFile(db: Db, f: File, s: Services) returns (v: nat)
    requires Sound(db) && SeedFile(db, f, s).end == PublishedIt
    ensures Staged(db, f) && Pending(db, f, v, Ready) && db[f.doc].versions[v].covered
    ensures Publish(db, f.doc, v) == Some(SeedFile(db, f, s).db)
  {
    SeededFileIsPublished(db, f, s);
    PrepareKeepsSound(db, f);
    StagedIsReused(db, f);
    PreparedDatabase(db, f);
    v := Prepare(db, f).next.version;
  }

  lemma PublishedEffect(db: Db, f: File, v: nat, after: Db, g: File)
    requires Sound(db) && Pending(db, f, v, Ready) && db[f.doc].versions[v].covered
              && Publish(db, f.doc, v) == Some(after)
    ensures Staged(after, g) <==> Staged(db, g) && !(g.doc == f.doc && g.content == f.content)
    ensures PublishedHash(after, g.doc) == if g.doc == f.doc then Some(f.content.hash) else PublishedHash(db, g.doc)
  {
    PublicationEffect(db, f, v);
  }

  lemma QuietEffect(db: Db, f: File, after: Db, g: File)
    requires NothingPublished(db, after, f.doc)
    ensures Staged(after, g) <==> Staged(db, g)
    ensures PublishedHash(after, g.doc) == PublishedHash(db, g.doc)
  {
  }

  lemma SeedingEffect(db: Db, f: File, s: Services, g: File)
    requires Sound(db)
    ensures var after := SeedFile(db, f, s).db;
            && (Publishes(db, f, s, g) ==> Staged(db, f))
            && (Staged(after, g) <==> Staged(db, g) && !(Publishes(db, f, s, g) && g.content == f.content))
            && PublishedHash(after, g.doc)
               == if Publishes(db, f, s, g) then Some(f.content.hash) else PublishedHash(db, g.doc)
  {
    var done := SeedFile(db, f, s);
    if done.end == PublishedIt {
      var v := PublishedFile(db, f, s);
      PublishedEffect(db, f, v, done.db, g);
    } else {
      SeededFileIsPublished(db, f, s);
      QuietEffect(db, f, done.db, g);
    }
  }

  // ----- A run publishes only what was ready and embedded before it -----

  lemma {:induction false} NothingIsStagedByARun(db: Db, files: seq<File>, services: nat -> Services, n: nat, g: File)
    requires Sound(db) && n <= |files|
    ensures Staged(SeedFirst(db, files, services, n).db, g) ==> Staged(db, g)
  {
    if n > 0 {
      NothingIsStagedByARun(db, files, services, n - 1, g);
      SeedingKeepsSound(db, files, services, n - 1);
      SeedingEffect(SeedFirst(db, files, services, n - 1).db, files[n - 1], services(n - 1), g);
    }
  }

  /** Some file of the document has this content, and it waited for publication when the run began. */
  predicate WasStaged(db: Db, files: seq<File>, n: nat, d: DocId, h: Hash)
    requires n <= |files|
  {
    exists i :: 0 <= i < n && files[i].doc == d && files[i].content == Hashed(h) && Staged(db, files[i])
  }

  lemma WasStagedOneMore(db: Db, files: seq<File>, n: nat, d: DocId, h: Hash)
    requires n < |files|
    ensures WasStaged(db, files, n, d, h) ==> WasStaged(db, files, n + 1, d, h)
    ensures files[n].doc == d && files[n].content == Hashed(h) && Staged(db, files[n]) ==>
              WasStaged(db, files, n + 1, d, h)
  {
  }

  lemma PublishedOneMore(db: Db, files: seq<File>, services: nat -> Services, n: nat, d: DocId, h: Hash)
    requires Sound(db) && n < |files| && PublishedHash(SeedFirst(db, files, services, n + 1).db, d) == Some(h)
    ensures PublishedHash(SeedFirst(db, files, services, n).db, d) == Some(h)
            || (files[n].doc == d && files[n].content == Hashed(h) && Staged(db, files[n]))
  {
    SeedingKeepsSound(db, files, services, n);
    SeedingEffect(SeedFirst(db, files, services, n).db, files[n], services(n), files[n].(doc := d));
    NothingIsStagedByARun(db, files, services, n, files[n]);
  }

  /**
    Whatever the services do, a run that is left alone publishes nothing that was not ready and embedded
    before it began.
   */
  lemma {:induction false} RunsPublishOnlyStagedContent(
    db: Db, files: seq<File>, services: nat -> Services, n: nat, d: DocId, h: Hash)
    requires Sound(db) && n <= |files| && PublishedHash(SeedFirst(db, files, services, n).db, d) == Some(h)
    ensures PublishedHash(db, d) == Some(h) || WasStaged(db, files, n, d, h)
  {
    if n > 0 {
      PublishedOneMore(db, files, services, n - 1, d, h);
      WasStagedOneMore(db, files, n - 1, d, h);
      if PublishedHash(SeedFirst(db, files, services, n - 1).db, d) == Some(h) {
        RunsPublishOnlyStagedContent(db, files, services, n - 1, d, h);
      }
    }
  }

  // ----- What a working run delivers -----

  predicate AllWorking(services: nat -> Services, n: nat) {
    forall i: nat :: i < n ==> services(i) == WORKING
  }

  /** A file before the n-th has published g's content, or found it published. */
  predicate Taken(db: Db, files: seq<File>, n: nat, g: File)
    requires n <= |files|
  {
    exists j :: 0 <= j < n && files[j].doc == g.doc && files[j].content == g.content && Compatible(db, files[j])
  }

  /** What the document shows once n files have been seeded. */
  function Shown(db: Db, files: seq<File>, n: nat, d: DocId): (shown: Option<Hash>)
    requires n <= |files|
    ensures shown.Some? ==> d in db
    decreases n, 0
  {
    if n == 0 then PublishedHash(db, d)
    else if files[n - 1].doc == d && files[n - 1].content.Hashed? && Delivers(db, files, n - 1) then
        Some(files[n - 1].content.hash)
    else Shown(db, files, n - 1, d)
  }

  /**
    The i-th file can be published or skipped: it is blank, or it belongs to an existing document that
    shows its content by then, or in which that content waits since before the run.
   */
  predicate Delivers(db: Db, files: seq<File>, i: nat)
    requires i < |files|
    decreases i, 1
  {
    var f := files[i];
    match f.content
    case Unreadable => false
    case Empty => true
    case Hashed(h) =>
      && f.doc in db && Compatible(db, f)
      && (Shown(db, files, i, f.doc) == Some(h) || (Staged(db, f) && !Taken(db, files, i, f)))
  }

  /** The view of the database after n files that decides what happens to g. */
  predicate Tracks(db: Db, files: seq<File>, n: nat, now: Db, g: File)
    requires n <= |files|
  {
    && (g.doc in db ==> g.doc in now && now[g.doc].active == db[g.doc].active && now[g.doc].kind == db[g.doc].kind)
    && PublishedHash(now, g.doc) == Shown(db, files, n, g.doc)
    && (Staged(now, g) <==> Staged(db, g) && !Taken(db, files, n, g))
  }

  lemma DeliveryDecides(db: Db, files: seq<File>, i: nat, now: Db)
    requires i < |files| && Sound(now) && Tracks(db, files, i, now, files[i])
    ensures SeedFile(now, files[i], WORKING).end != FailedIt <==> Delivers(db, files, i)
    ensures SeedFile(now, files[i], WORKING).end == PublishedIt ==> files[i].content.Hashed? && Delivers(db, files, i)
  {
    SeededFileIsPublished(now, files[i], WORKING);
  }

  lemma TakenOneMore(db: Db, files: seq<File>, n: nat, g: File)
    requires n < |files|
    ensures Taken(db, files, n + 1, g) <==>
              Taken(db, files, n, g) || (files[n].doc == g.doc && files[n].content == g.content
                  && Compatible(db, files[n]))
  {
  }

  lemma TracksOneMore(db: Db, files: seq<File>, n: nat, now: Db, g: File)
    requires n < |files| && Sound(now) && Tracks(db, files, n, now, files[n]) && Tracks(db, files, n, now, g)
    ensures Tracks(db, files, n + 1, SeedFile(now, files[n], WORKING).db, g)
  {
    DeliveryDecides(db, files, n, now);
    SeededFileIsPublished(now, files[n], WORKING);
    SeedingEffect(now, files[n], WORKING, g);
    TakenOneMore(db, files, n, g);
  }

  lemma {:induction false} TracksAlong(db: Db, files: seq<File>, services: nat -> Services, n: nat, g: File)
    requires Sound(db) && n <= |files| && AllWorking(services, n)
    ensures Tracks(db, files, n, SeedFirst(db, files, services, n).db, g)
  {
    if n > 0 {
      SeedingKeepsSound(db, files, services, n - 1);
      TracksAlong(db, files, services, n - 1, g);
      TracksAlong(db, files, services, n - 1, files[n - 1]);
      TracksOneMore(db, files, n - 1, SeedFirst(db, files, services, n - 1).db, g);
    }
  }

  /** With working services the i-th file fails exactly when it cannot be delivered. */
  lemma WorkingFileFailsIff(db: Db, files: seq<File>, services: nat -> Services, i: nat)
    requires Sound(db) && i < |files| && AllWorking(services, i + 1)
    ensures SeedFile(SeedFirst(db, files, services, i).db, files[i], services(i)).end == FailedIt <==>
              !Delivers(db, files, i)
  {
    TracksAlong(db, files, services, i, files[i]);
    SeedingKeepsSound(db, files, services, i);
    DeliveryDecides(db, files, i, SeedFirst(db, files, services, i).db);
  }

  predicate AllDeliver(db: Db, files: seq<File>, n: nat)
    requires n <= |files|
  {
    forall i :: 0 <= i < n ==> Delivers(db, files, i)
  }

  lemma FailsOne(before: Report, f: File, s: Services)
    ensures SeedNext(before, f, s).summary.failed
              == before.summary.failed + One(SeedFile(before.db, f, s).end == FailedIt)
  {
  }

  /** A working run is free of failures exactly when all its files can be delivered, which can be checked beforehand. */
  lemma {:induction false} WorkingRunSucceedsIff(db: Db, files: seq<File>, services: nat -> Services, n: nat)
    requires Sound(db) && n <= |files| && AllWorking(services, n)
    ensures SeedFirst(db, files, services, n).summary.failed == 0 <==> AllDeliver(db, files, n)
  {
    if n > 0 {
      WorkingRunSucceedsIff(db, files, services, n - 1);
      WorkingFileFailsIff(db, files, services, n - 1);
      FailsOne(SeedFirst(db, files, services, n - 1), files[n - 1], services(n - 1));
    }
  }

  /** No two non-blank files share a document. */
  predicate SeparateDocuments(files: seq<File>) {
    forall i, j :: 0 <= i < j < |files| && files[i].content.Hashed? && files[j].content.Hashed?
        ==> files[i].doc != files[j].doc
  }

  lemma {:induction false} UntouchedIsShown(db: Db, files: seq<File>, n: nat, d: DocId)
    requires n <= |files| && forall j :: 0 <= j < n && files[j].content.Hashed? ==> files[j].doc != d
    ensures Shown(db, files, n, d) == PublishedHash(db, d)
  {
    if n > 0 {
      UntouchedIsShown(db, files, n - 1, d);
    }
  }

  /** Files of their own document are delivered exactly when they are up to date, or ready and embedded, beforehand. */
  lemma SeparateFilesDeliverIff(db: Db, files: seq<File>, i: nat)
    requires SeparateDocuments(files) && i < |files|
    ensures Delivers(db, files, i) <==> UpToDate(db, files[i]) || Staged(db, files[i])
  {
    if files[i].content.Hashed? {
      UntouchedIsShown(db, files, i, files[i].doc);
    }
  }

  /** A working run over deliverable files publishes, in each document, its last non-blank file. */
  lemma WorkingRunPublishes(db: Db, files: seq<File>, services: nat -> Services, i: nat)
    requires Sound(db) && AllWorking(services, |files|) && AllDeliver(db, files, |files|) && i < |files|
    ensures var r := SeedAll(db, files, services);
            && r.summary.failed == 0 && Sound(r.db)
            && (Latest(files, |files|, i) ==> UpToDate(r.db, files[i]))
            && (files[i].content.Hashed? ==> PublishedHash(r.db, files[i].doc).Some?)
  {
    WorkingRunSucceedsIff(db, files, services, |files|);
    SeedingKeepsSound(db, files, services, |files|);
    LastFileWins(db, files, services, |files|, i);
    if files[i].content.Hashed? {
      var k := LastOf(files, i);
      LastFileWins(db, files, services, |files|, k);
    }
  }

  /**
    Running the seeder again over the same deliverable files does nothing exactly when no two files of one
    document differ; files sharing a document make it publish back and forth.
   */
  lemma RerunIsIdleIff(db: Db, files: seq<File>, services: nat -> Services, again: nat -> Services)
    requires Sound(db) && AllWorking(services, |files|) && AllDeliver(db, files, |files|)
    ensures var first := SeedAll(db, files, services).db;
            var second := SeedAll(first, files, again);
            && (second.summary.skipped == |files| <==> Consistent(files))
            && (Consistent(files) ==> second.db == first)
  {
    WorkingRunSucceedsIff(db, files, services, |files|);
    UpToDateTogetherIff(db, files, services);
    AllSkippedIff(SeedAll(db, files, services).db, files, again, |files|);
  }

  // ----- Between two runs: embedding -----

  predicate OnlyEmbeds(run: seq<Action>) {
    forall a :: a in run ==> a.EmbedVersion?
  }

  predicate ReadyCovered(db: Db) {
    forall d :: d in db ==> DocumentCovered(db, d, |db[d].versions|)
  }

  /** The first n versions of the document have their embeddings, if they are ready. */
  predicate DocumentCovered(db: Db, d: DocId, n: nat)
    requires d in db && n <= |db[d].versions|
  {
    forall v :: 0 <= v < n && db[d].versions[v].state == Ready ==> db[d].versions[v].covered
  }

  predicate VersionGrew(before: Version, after: Version) {
    before.hash == after.hash && before.state == after.state && (before.covered ==> after.covered)
  }

  predicate DocumentGrew(before: Document, after: Document) {
    && before.active == after.active && before.kind == after.kind
    && |before.versions| == |after.versions|
    && forall v :: 0 <= v < |before.versions| ==> VersionGrew(before.versions[v], after.versions[v])
  }

  /** The same documents and versions in the same states; only embeddings were added. */
  predicate OnlyCoverageGrew(before: Db, after: Db) {
    before.Keys == after.Keys && forall d :: d in before ==> DocumentGrew(before[d], after[d])
  }

  lemma EmbedGrows(db: Db, d: DocId, v: nat)
    requires Embed(db, d, v).Some?
    ensures OnlyCoverageGrew(db, Embed(db, d, v).value)
  {
  }

  lemma GrowsTwice(a: Db, b: Db, c: Db)
    requires OnlyCoverageGrew(a, b) && OnlyCoverageGrew(b, c)
    ensures OnlyCoverageGrew(a, c)
  {
    forall d | d in a
      ensures DocumentGrew(a[d], c[d])
    {
      assert DocumentGrew(a[d], b[d]) && DocumentGrew(b[d], c[d]);
      assert forall v :: 0 <= v < |a[d].versions| ==> VersionGrew(a[d].versions[v], b[d].versions[v]);
    }
  }

  lemma {:induction false} EmbeddingOnlyCovers(db: Db, run: seq<Action>)
    requires OnlyEmbeds(run) && After(db, run).Some?
    ensures After(db, run).value.phase == Idle && OnlyCoverageGrew(db, After(db, run).value.db)
  {
    if run != [] {
      var most, a := run[..|run| - 1], run[|run| - 1];
      assert run == most + [a];
      EmbeddingOnlyCovers(db, most);
      assert a.EmbedVersion?;
      var before := After(db, most).value.db;
      EmbedGrows(before, a.doc, a.version);
      GrowsTwice(db, before, After(db, run).value.db);
    }
  }

  lemma CoverageKeepsStanding(before: Db, after: Db, f: File)
    requires OnlyCoverageGrew(before, after) && Standing(before, f) && ReadyCovered(after)
    ensures UpToDate(after, f) || Staged(after, f)
  {
    assert DocumentGrew(before[f.doc], after[f.doc]);
    var (vs, ws) := (before[f.doc].versions, after[f.doc].versions);
    assert forall i :: 0 <= i < |vs| ==> VersionGrew(vs[i], ws[i]);
    SamePublishedAt(vs, ws);
    PublishedAtFinds(before[f.doc].versions);
    if !UpToDate(before, f) {
      var v :| 0 <= v < |before[f.doc].versions| && Is(before[f.doc].versions[v], f.content.hash, Ready);
      assert DocumentCovered(after, f.doc, |after[f.doc].versions|);
      assert IsStaged(after[f.doc].versions[v], f.content.hash);
    }
  }

  lemma EmbedOneMore(db: Db, run: seq<Action>, d: DocId, v: nat)
    requires OnlyEmbeds(run) && After(db, run).Some? && Embed(After(db, run).value.db, d, v).Some?
    ensures OnlyEmbeds(run + [EmbedVersion(d, v)])
    ensures After(db, run + [EmbedVersion(d, v)]) == Some(Machine(Embed(After(db, run).value.db, d, v).value, Idle))
  {
    EmbeddingOnlyCovers(db, run);
    assert (run + [EmbedVersion(d, v)])[..|run|] == run;
  }

  lemma CoverageStays(before: Db, after: Db, d: DocId, n: nat)
    requires OnlyCoverageGrew(before, after) && d in before && n <= |before[d].versions|
              && DocumentCovered(before, d, n)
    ensures DocumentCovered(after, d, n)
  {
    assert DocumentGrew(before[d], after[d]);
    assert forall v :: 0 <= v < n ==> VersionGrew(before[d].versions[v], after[d].versions[v]);
  }

  /** The worker can go on with the first n versions of one document. */
  lemma {:induction false} DocumentCanBeCovered(db: Db, soFar: seq<Action>, d: DocId, n: nat) returns (run: seq<Action>)
    requires OnlyEmbeds(soFar) && After(db, soFar).Some? && d in After(db, soFar).value.db
    requires n <= |After(db, soFar).value.db[d].versions|
    ensures OnlyEmbeds(run) && After(db, run).Some?
    ensures OnlyCoverageGrew(After(db, soFar).value.db, After(db, run).value.db)
    ensures DocumentCovered(After(db, run).value.db, d, n)
  {
    run := soFar;
    if n > 0 {
      run := DocumentCanBeCovered(db, soFar, d, n - 1);
      var before := After(db, run).value.db;
      if StateOf(before, d, n - 1) == Ready {
        EmbedOneMore(db, run, d, n - 1);
        EmbedGrows(before, d, n - 1);
        run := run + [EmbedVersion(d, n - 1)];
        var after := After(db, run).value.db;
        CoverageStays(before, after, d, n - 1);
        GrowsTwice(After(db, soFar).value.db, before, after);
      }
    }
  }

  lemma {:induction false} DocumentsCanBeCovered(db: Db, ds: set<DocId>) returns (run: seq<Action>)
    requires ds <= db.Keys
    ensures OnlyEmbeds(run) && After(db, run).Some? && OnlyCoverageGrew(db, After(db, run).value.db)
    ensures var after := After(db, run).value.db;
            forall d :: d in ds ==> DocumentCovered(after, d, |after[d].versions|)
  {
    run := [];
    if ds != {} {
      var d :| d in ds;
      var most := DocumentsCanBeCovered(db, ds - {d});
      var before := After(db, most).value.db;
      run := DocumentCanBeCovered(db, most, d, |before[d].versions|);
      var after := After(db, run).value.db;
      GrowsTwice(db, before, after);
      forall e | e in ds
        ensures DocumentCovered(after, e, |after[e].versions|)
      {
        if e != d {
          CoverageStays(before, after, e, |before[e].versions|);
        }
      }
    }
  }

  /** Embedding can always catch up: some run of the worker leaves every ready version covered. */
  lemma EmbeddingCanFinish(db: Db) returns (run: seq<Action>)
    ensures OnlyEmbeds(run) && After(db, run).Some? && ReadyCovered(After(db, run).value.db)
  {
    run := DocumentsCanBeCovered(db, db.Keys);
  }

  // ----- Files left standing by a working run -----

  /** A document that exists is active and of the kind its path says. */
  predicate Fits(db: Db, kindOf: DocId -> ContentType, d: DocId) {
    d in db ==> db[d].active && db[d].kind == kindOf(d)
  }

  predicate TypedFiles(files: seq<File>, kindOf: DocId -> ContentType) {
    forall f :: f in files ==> f.kind == kindOf(f.doc)
  }

  /** The non-blank files of the document agree on its content. */
  predicate AgreesOn(files: seq<File>, d: DocId) {
    forall f, g :: f in files && g in files && f.doc == d == g.doc && f.content.Hashed? && g.content.Hashed?
      ==> f.content == g.content
  }

  lemma SeedingKeepsFit(db: Db, f: File, s: Services, kindOf: DocId -> ContentType, d: DocId)
    requires Sound(db) && f.kind == kindOf(f.doc) && Fits(db, kindOf, d)
    ensures Fits(SeedFile(db, f, s).db, kindOf, d)
  {
    SeededFileIsPublished(db, f, s);
    PreparedDatabase(db, f);
  }

  /** A standing file is published or left as it is, never processed again. */
  lemma StandingIsNotReworked(db: Db, f: File, s: Services)
    requires Sound(db) && Standing(db, f)
    ensures SeedFile(db, f, s).end == PublishedIt || SeedFile(db, f, s).db == db
  {
    SkippedIff(db, f, s);
    PreparedDatabase(db, f);
    PublishedAtFinds(db[f.doc].versions);
    NewestFinds(db[f.doc].versions, f.content.hash, Ready);
  }

  /** Seeding this or another document's file leaves a file standing, if it stood. */
  lemma StandingOutlasts(db: Db, f: File, s: Services, g: File)
    requires Sound(db) && Standing(db, g) && (f.doc == g.doc && f.content.Hashed? ==> f.content == g.content)
    ensures Standing(SeedFile(db, f, s).db, g)
  {
    SeededFileIsPublished(db, f, s);
    if f.doc == g.doc {
      if f.content.Hashed? && Compatible(db, f) {
        StandingIsNotReworked(db, f, s);
      }
    }
  }

  lemma {:induction false} WorkingRunKeepsFit(
    db: Db, files: seq<File>, services: nat -> Services, kindOf: DocId -> ContentType, n: nat, d: DocId)
    requires Sound(db) && n <= |files| && TypedFiles(files, kindOf) && Fits(db, kindOf, d)
    ensures Fits(SeedFirst(db, files, services, n).db, kindOf, d)
  {
    if n > 0 {
      WorkingRunKeepsFit(db, files, services, kindOf, n - 1, d);
      SeedingKeepsSound(db, files, services, n - 1);
      SeedingKeepsFit(SeedFirst(db, files, services, n - 1).db, files[n - 1], services(n - 1), kindOf, d);
    }
  }

  lemma StandsOneMore(db: Db, files: seq<File>, services: nat -> Services, n: nat, i: nat)
    requires Sound(db) && i < n < |files| && AgreesOn(files, files[i].doc)
    requires Standing(SeedFirst(db, files, services, n).db, files[i])
    ensures Standing(SeedFirst(db, files, services, n + 1).db, files[i])
  {
    SeedingKeepsSound(db, files, services, n);
    assert files[n] in files && files[i] in files;
    StandingOutlasts(SeedFirst(db, files, services, n).db, files[n], services(n), files[i]);
  }

  lemma StandsAtItsTurn(db: Db, files: seq<File>, services: nat -> Services, kindOf: DocId -> ContentType, i: nat)
    requires Sound(db) && i < |files| && services(i) == WORKING && TypedFiles(files, kindOf)
    requires Fits(db, kindOf, files[i].doc) && files[i].content.Hashed?
    ensures Standing(SeedFirst(db, files, services, i + 1).db, files[i])
  {
    SeedingKeepsSound(db, files, services, i);
    WorkingRunKeepsFit(db, files, services, kindOf, i, files[i].doc);
    WorkingFileStands(SeedFirst(db, files, services, i).db, files[i]);
  }

  /** A working run leaves every file of an agreeing document published or ready. */
  lemma {:induction false} WorkingRunStands(
    db: Db, files: seq<File>, services: nat -> Services, kindOf: DocId -> ContentType, n: nat, i: nat)
    requires Sound(db) && i < n <= |files| && AllWorking(services, n) && TypedFiles(files, kindOf)
    requires Fits(db, kindOf, files[i].doc) && files[i].content.Hashed? && AgreesOn(files, files[i].doc)
    ensures Standing(SeedFirst(db, files, services, n).db, files[i])
    decreases n
  {
    if i < n - 1 {
      WorkingRunStands(db, files, services, kindOf, n - 1, i);
      StandsOneMore(db, files, services, n - 1, i);
    } else {
      StandsAtItsTurn(db, files, services, kindOf, i);
    }
  }

  // ----- The run after embedding -----

  /** Once published or staged, the content of an agreeing document stays shown or waiting until its turn. */
  lemma {:induction false} AgreeingFilesDeliver(db: Db, files: seq<File>, kindOf: DocId -> ContentType, n: nat, i: nat)
    requires n <= i < |files| && TypedFiles(files, kindOf) && Fits(db, kindOf, files[i].doc)
    requires files[i].content.Hashed? && AgreesOn(files, files[i].doc)
    requires files[i].doc in db && (UpToDate(db, files[i]) || Staged(db, files[i]))
    ensures Shown(db, files, n, files[i].doc) == Some(files[i].content.hash)
              || (Staged(db, files[i]) && !Taken(db, files, n, files[i]))
  {
    if n > 0 {
      AgreeingFilesDeliver(db, files, kindOf, n - 1, i);
      TakenOneMore(db, files, n - 1, files[i]);
      var f := files[n - 1];
      if f.doc == files[i].doc && f.content.Hashed? {
        assert f in files && files[i] in files && f.content == files[i].content;
      }
    }
  }

  lemma UpToDateOutlasts(db: Db, f: File, s: Services, g: File)
    requires Sound(db) && UpToDate(db, g) && (f.doc == g.doc && f.content.Hashed? ==> f.content == g.content)
    ensures UpToDate(SeedFile(db, f, s).db, g)
  {
    SeededFileIsPublished(db, f, s);
    SkippedIff(db, f, s);
  }

  lemma AgreeingFileDelivers(db: Db, files: seq<File>, kindOf: DocId -> ContentType, i: nat)
    requires i < |files| && TypedFiles(files, kindOf) && Fits(db, kindOf, files[i].doc)
    requires files[i].content.Hashed? && AgreesOn(files, files[i].doc)
    requires files[i].doc in db && (UpToDate(db, files[i]) || Staged(db, files[i]))
    ensures Delivers(db, files, i)
  {
    AgreeingFilesDeliver(db, files, kindOf, i, i);
    assert files[i] in files;
  }

  lemma UpToDateAtItsTurn(db: Db, files: seq<File>, services: nat -> Services, i: nat)
    requires Sound(db) && i < |files| && AllWorking(services, i + 1) && Delivers(db, files, i)
    ensures UpToDate(SeedFirst(db, files, services, i + 1).db, files[i])
  {
    SeedingKeepsSound(db, files, services, i);
    WorkingFileFailsIff(db, files, services, i);
    SeededFileIsPublished(SeedFirst(db, files, services, i).db, files[i], services(i));
  }

  lemma UpToDateOneMore(db: Db, files: seq<File>, services: nat -> Services, i: nat, n: nat)
    requires Sound(db) && i < n < |files| && AgreesOn(files, files[i].doc) && files[i].content.Hashed?
    requires UpToDate(SeedFirst(db, files, services, n).db, files[i])
    ensures UpToDate(SeedFirst(db, files, services, n + 1).db, files[i])
  {
    SeedingKeepsSound(db, files, services, n);
    assert files[n] in files && files[i] in files;
    UpToDateOutlasts(SeedFirst(db, files, services, n).db, files[n], services(n), files[i]);
  }

  /** A deliverable file of an agreeing document is up to date from its turn on. */
  lemma {:induction false} UpToDateFromItsTurn(db: Db, files: seq<File>, services: nat -> Services, n: nat, i: nat)
    requires Sound(db) && i < n <= |files| && AllWorking(services, n)
    requires Delivers(db, files, i) && files[i].content.Hashed? && AgreesOn(files, files[i].doc)
    ensures UpToDate(SeedFirst(db, files, services, n).db, files[i])
    decreases n
  {
    if i < n - 1 {
      UpToDateFromItsTurn(db, files, services, n - 1, i);
      UpToDateOneMore(db, files, services, i, n - 1);
    } else {
      UpToDateAtItsTurn(db, files, services, i);
    }
  }

  // ----- Recovery -----

  predicate Typed(run: seq<Action>, kindOf: DocId -> ContentType) {
    forall a :: a in run && a.StartFile? ==> a.f.kind == kindOf(a.f.doc)
  }

  lemma StepKeepsFit(m: Machine, a: Action, kindOf: DocId -> ContentType, d: DocId)
    requires Inv(m) && Apply(m, a).Some? && Fits(m.db, kindOf, d) && (a.StartFile? ==> a.f.kind == kindOf(a.f.doc))
    ensures Fits(Apply(m, a).value.db, kindOf, d)
  {
    if a.StartFile? {
      PreparedDatabase(m.db, a.f);
    }
  }

  lemma {:induction false} RunKeepsFit(db: Db, run: seq<Action>, kindOf: DocId -> ContentType, d: DocId)
    requires Sound(db) && After(db, run).Some? && Fits(db, kindOf, d) && Typed(run, kindOf)
    ensures Fits(After(db, run).value.db, kindOf, d)
  {
    if run != [] {
      var most, a := run[..|run| - 1], run[|run| - 1];
      assert run == most + [a];
      RunKeepsFit(db, most, kindOf, d);
      InterruptedRunsStaySound(db, most);
      StepKeepsFit(After(db, most).value, a, kindOf, d);
    }
  }

  /** Two working runs over the files, with the embedding worker's steps in between. */
  datatype Recovery = Recovery(files: seq<File>, first: nat -> Services, embedding: seq<Action>,
      second: nat -> Services)

  function Reworked(r: Recovery, db: Db): Db {
    SeedAll(db, r.files, r.first).db
  }

  /** All services work, and the worker covers every ready version the first run leaves. */
  predicate Completes(r: Recovery, db: Db) {
    && AllWorking(r.first, |r.files|) && AllWorking(r.second, |r.files|)
    && OnlyEmbeds(r.embedding)
    && After(Reworked(r, db), r.embedding).Some? && ReadyCovered(After(Reworked(r, db), r.embedding).value.db)
  }

  function Embedded(r: Recovery, db: Db): Db
    requires Completes(r, db)
  {
    After(Reworked(r, db), r.embedding).value.db
  }

  function Republished(r: Recovery, db: Db): Report
    requires Completes(r, db)
  {
    SeedAll(Embedded(r, db), r.files, r.second)
  }

  /** The files are of the kind their document has. */
  predicate Fitting(files: seq<File>, db: Db, kindOf: DocId -> ContentType) {
    TypedFiles(files, kindOf) && forall f :: f in files ==> Fits(db, kindOf, f.doc)
  }

  lemma FileIsReady(r: Recovery, db: Db, kindOf: DocId -> ContentType, i: nat)
    requires Sound(db) && Completes(r, db) && Fitting(r.files, db, kindOf) && i < |r.files|
    requires r.files[i].content.Hashed? && AgreesOn(r.files, r.files[i].doc)
    ensures var (embedded, f) := (Embedded(r, db), r.files[i]);
            && Sound(embedded) && f.doc in embedded && Fits(embedded, kindOf, f.doc)
            && (UpToDate(embedded, f) || Staged(embedded, f))
  {
    var (files, f) := (r.files, r.files[i]);
    assert f in files;
    SeedingKeepsSound(db, files, r.first, |files|);
    WorkingRunStands(db, files, r.first, kindOf, |files|, i);
    WorkingRunKeepsFit(db, files, r.first, kindOf, |files|, f.doc);
    InterruptedRunsStaySound(Reworked(r, db), r.embedding);
    EmbeddingOnlyCovers(Reworked(r, db), r.embedding);
    CoverageKeepsStanding(Reworked(r, db), Embedded(r, db), f);
  }

  /** Each document whose files agree comes out publishing their content, whatever happens to the others. */
  lemma AgreeingDocumentsRecover(r: Recovery, db: Db, kindOf: DocId -> ContentType, i: nat)
    requires Sound(db) && Completes(r, db) && Fitting(r.files, db, kindOf) && i < |r.files|
    requires r.files[i].content.Hashed? && AgreesOn(r.files, r.files[i].doc)
    ensures Delivers(Embedded(r, db), r.files, i) && UpToDate(Republished(r, db).db, r.files[i])
  {
    FileIsReady(r, db, kindOf, i);
    var embedded := Embedded(r, db);
    AgreeingFileDelivers(embedded, r.files, kindOf, i);
    UpToDateFromItsTurn(embedded, r.files, r.second, |r.files|, i);
  }

  lemma ConsistentDocumentsAgree(files: seq<File>, d: DocId)
    requires Consistent(files)
    ensures AgreesOn(files, d)
  {
    forall f, g | f in files && g in files && f.doc == d == g.doc && f.content.Hashed? && g.content.Hashed?
      ensures f.content == g.content
    {
      var i :| 0 <= i < |files| && files[i] == f;
      var j :| 0 <= j < |files| && files[j] == g;
      assert i == j || i < j || j < i;
    }
  }

  lemma ConsistentFilesRecover(r: Recovery, db: Db, kindOf: DocId -> ContentType, i: nat)
    requires Sound(db) && Completes(r, db) && Fitting(r.files, db, kindOf) && i < |r.files|
    requires !r.files[i].content.Unreadable? && Consistent(r.files)
    ensures Delivers(Embedded(r, db), r.files, i) && UpToDate(Republished(r, db).db, r.files[i])
  {
    if r.files[i].content.Hashed? {
      ConsistentDocumentsAgree(r.files, r.files[i].doc);
      AgreeingDocumentsRecover(r, db, kindOf, i);
    }
  }

  lemma RecoveryKeepsSound(r: Recovery, db: Db)
    requires Sound(db) && Completes(r, db)
    ensures Sound(Embedded(r, db))
  {
    SeedingKeepsSound(db, r.files, r.first, |r.files|);
    InterruptedRunsStaySound(Reworked(r, db), r.embedding);
  }

  /**
    Recovery takes three steps. Whatever seeder runs were interrupted before, and wherever, a working run
    leaves the files published or ready, embedding covers what is ready, and a second working run publishes
    every file and leaves a third one nothing to do, exactly when files of one document agree.
   */
  lemma InterruptedRunsRecoverIff(
    start: Db, run: seq<Action>, kindOf: DocId -> ContentType, r: Recovery, again: nat -> Services)
    requires Sound(start) && After(start, run).Some? && Typed(run, kindOf) && Fitting(r.files, start, kindOf)
    requires Completes(r, After(start, run).value.db)
    requires forall f :: f in r.files ==> !f.content.Unreadable?
    ensures var published := Republished(r, After(start, run).value.db);
            var third := SeedAll(published.db, r.files, again);
            && (third.summary.skipped == |r.files| <==> Consistent(r.files))
            && (Consistent(r.files) ==>
                  && published.summary.failed == 0 && third.db == published.db
                  && forall i :: 0 <= i < |r.files| ==> UpToDate(published.db, r.files[i]))
  {
    var db := After(start, run).value.db;
    InterruptedRunsStaySound(start, run);
    forall f | f in r.files
      ensures Fits(db, kindOf, f.doc)
    {
      RunKeepsFit(start, run, kindOf, f.doc);
    }
    RecoveryKeepsSound(r, db);
    var published := Republished(r, db);
    AllSkippedIff(published.db, r.files, again, |r.files|);
    if Consistent(r.files) {
      forall i: nat | i < |r.files|
        ensures Delivers(Embedded(r, db), r.files, i) && UpToDate(published.db, r.files[i])
      {
        ConsistentFilesRecover(r, db, kindOf, i);
      }
      WorkingRunSucceedsIff(Embedded(r, db), r.files, r.second, |r.files|);
    }
  }

  /** The embedding such a recovery needs can always be done. */
  lemma RecoveryCanComplete(db: Db, files: seq<File>) returns (r: Recovery)
    ensures r.files == files && Completes(r, db)
  {
    var works := (i: nat) => WORKING;
    var embedding := EmbeddingCanFinish(SeedAll(db, files, works).db);
    r := Recovery(files, works, embedding, works);
  }

  /** On an empty database the first of those runs fails on every non-blank file. */
  lemma FirstRunsPublishNothing(files: seq<File>, services: nat -> Services, d: DocId)
    ensures PublishedHash(SeedAll(map[], files, services).db, d) == None
  {
    var after := SeedAll(map[], files, services).db;
    if PublishedHash(after, d).Some? {
      RunsPublishOnlyStagedContent(map[], files, services, |files|, d, PublishedHash(after, d).value);
    }
  }
}
