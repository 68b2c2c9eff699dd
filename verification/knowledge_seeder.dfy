/**
  The knowledge seeder: committed database steps, runs of them that may die between any two, and the
  whole-directory loop with its summary.
 */
module KnowledgeSeeder {
  import opened Outcomes

  type DocId = nat
  type Hash = nat
  type ContentType = nat

  // ----- Documents and versions -----

  /** A version's status; its ingestion status follows from it. */
  datatype State = Draft | Processing | Ready | Published | Superseded | Failed | Archived

  /** covered: every chunk of the version has its embedding. */
  datatype Version = Version(hash: Hash, state: State, covered: bool)

  datatype Document = Document(active: bool, kind: ContentType, versions: seq<Version>)

  type Db = map<DocId, Document>

  /** What reading and trimming a source file yields. */
  datatype Content = Unreadable | Empty | Hashed(hash: Hash)

  /** Files whose paths differ only in case share a document. */
  datatype File = File(doc: DocId, kind: ContentType, content: Content)

  predicate Is(v: Version, h: Hash, st: State) {
    v.hash == h && v.state == st
  }

  /** The newest version with this hash and state. */
  function Newest(vs: seq<Version>, h: Hash, st: State): Option<nat> {
    if vs == [] then None
    else if Is(vs[|vs| - 1], h, st) then Some(|vs| - 1)
    else Newest(vs[..|vs| - 1], h, st)
  }

  function PublishedAt(vs: seq<Version>): Option<nat> {
    if vs == [] then None
    else if vs[|vs| - 1].state == Published then Some(|vs| - 1)
    else PublishedAt(vs[..|vs| - 1])
  }

  lemma {:induction false} NewestFinds(vs: seq<Version>, h: Hash, st: State)
    ensures Newest(vs, h, st).Some? <==> exists i :: 0 <= i < |vs| && Is(vs[i], h, st)
    ensures Newest(vs, h, st).Some? ==> Newest(vs, h, st).value < |vs| && Is(vs[Newest(vs, h, st).value], h, st)
  {
    if vs != [] {
      NewestFinds(vs[..|vs| - 1], h, st);
    }
  }

  lemma {:induction false} PublishedAtFinds(vs: seq<Version>)
    ensures PublishedAt(vs).Some? <==> exists i :: 0 <= i < |vs| && vs[i].state == Published
    ensures PublishedAt(vs).Some? ==> PublishedAt(vs).value < |vs| && vs[PublishedAt(vs).value].state == Published
  {
    if vs != [] {
      PublishedAtFinds(vs[..|vs| - 1]);
    }
  }

  // ----- Committed steps -----

  datatype Preparation = Skip | Work(version: nat, process: bool) | Refused

  datatype Prepared = Prepared(db: Db, next: Preparation, newDocument: bool, newVersion: bool)

  predicate Compatible(db: Db, f: File) {
    f.doc in db ==> db[f.doc].active && db[f.doc].kind == f.kind
  }

  function NewDraft(h: Hash): Version {
    Version(h, Draft, false)
  }

  /** Find or create the document, then reuse a published, ready or draft version of the content, or add one. */
  function Prepare(db: Db, f: File): Prepared {
    match f.content
    case Unreadable => Prepared(db, Refused, false, false)
    case Empty => Prepared(db, Skip, false, false)
    case Hashed(h) =>
      if !Compatible(db, f) then Prepared(db, Refused, false, false)
      else
        var isNew := f.doc !in db;
        var doc := if isNew then Document(true, f.kind, []) else db[f.doc];
        var known := db[f.doc := doc];
        var vs := doc.versions;
        PublishedAtFinds(vs);
        if PublishedAt(vs).Some? && vs[PublishedAt(vs).value].hash == h then Prepared(known, Skip, isNew, false)
        else if Newest(vs, h, Ready).Some? then Prepared(known, Work(Newest(vs, h, Ready).value, false), isNew, false)
        else if Newest(vs, h, Draft).Some? then Prepared(known, Work(Newest(vs, h, Draft).value, true), isNew, false)
        else Prepared(db[f.doc := doc.(versions := vs + [NewDraft(h)])], Work(|vs|, true), isNew, true)
  }

  predicate HasVersion(db: Db, d: DocId, v: nat) {
    d in db && v < |db[d].versions|
  }

  function StateOf(db: Db, d: DocId, v: nat): State
    requires HasVersion(db, d, v)
  {
    db[d].versions[v].state
  }

  /**
    A version becomes ready by completed processing, which replaces its chunks; the embeddings go with the
    old ones.
   */
  function Moved(v: Version, st: State): Version {
    Version(v.hash, st, v.covered && st != Ready)
  }

  function WithVersion(db: Db, d: DocId, v: nat, changed: Version): Db
    requires HasVersion(db, d, v)
  {
    db[d := db[d].(versions := db[d].versions[v := changed])]
  }

  function WithState(db: Db, d: DocId, v: nat, st: State): Db
    requires HasVersion(db, d, v)
  {
    WithVersion(db, d, v, Moved(db[d].versions[v], st))
  }

  /** Claim a draft, or a failed version for a retry. */
  function Claim(db: Db, d: DocId, v: nat): Option<Db> {
    if !HasVersion(db, d, v) || !db[d].active || StateOf(db, d, v) !in {Draft, Failed} then None
    else Some(WithState(db, d, v, Processing))
  }

  function Finish(db: Db, d: DocId, v: nat, st: State): Option<Db> {
    if !HasVersion(db, d, v) || StateOf(db, d, v) != Processing then None else Some(WithState(db, d, v, st))
  }

  /** The embedding worker stores the missing embeddings of a version whose processing has completed. */
  function Embed(db: Db, d: DocId, v: nat): Option<Db> {
    if !HasVersion(db, d, v) || StateOf(db, d, v) !in {Ready, Published, Superseded} then None
    else Some(WithVersion(db, d, v, db[d].versions[v].(covered := true)))
  }

  /** A repeated publication succeeds; otherwise the version must be ready and fully embedded. */
  function Publish(db: Db, d: DocId, v: nat): Option<Db> {
    if !HasVersion(db, d, v) || !db[d].active then None
    else
      var current := PublishedAt(db[d].versions);
      PublishedAtFinds(db[d].versions);
      if current == Some(v) then Some(db)
      else if StateOf(db, d, v) != Ready || !db[d].versions[v].covered then None
      else
        var superseded := if current.Some? then WithState(db, d, current.value, Superseded) else db;
        Some(WithState(superseded, d, v, Published))
  }

  // ----- Soundness of the database -----

  /** The states in which a later run will pick the version up again. */
  predicate Live(st: State) {
    st in {Draft, Ready, Published}
  }

  predicate SoundVersions(vs: seq<Version>) {
    && (forall i, j :: 0 <= i < j < |vs| && Live(vs[i].state) && Live(vs[j].state) ==> vs[i].hash != vs[j].hash)
    && (forall i, j :: 0 <= i < j < |vs| && vs[i].state == Published ==> vs[j].state != Published)
  }

  predicate Sound(db: Db) {
    forall d :: d in db ==> SoundVersions(db[d].versions)
  }

  /** Nothing but this document's versions has changed. */
  predicate SameElsewhere(db: Db, db': Db, d: DocId) {
    && (forall e :: e in db ==> e in db')
    && (forall e :: e in db' && e != d ==> e in db && db'[e] == db[e])
    && (d in db ==> db'[d].active == db[d].active && db'[d].kind == db[d].kind)
  }

  /** The file's content is this version of its document, in this state. */
  predicate Pending(db: Db, f: File, v: nat, st: State) {
    f.content.Hashed? && HasVersion(db, f.doc, v) && Compatible(db, f) && Is(db[f.doc].versions[v], f.content.hash, st)
  }

  lemma PrepareKeepsSound(db: Db, f: File)
    requires Sound(db)
    ensures var p := Prepare(db, f);
            && Sound(p.db)
            && SameElsewhere(db, p.db, f.doc)
            && (p.next.Work? ==> Pending(p.db, f, p.next.version, if p.next.process then Draft else Ready))
  {
    if f.content.Hashed? && Compatible(db, f) {
      var h := f.content.hash;
      var vs := if f.doc in db then db[f.doc].versions else [];
      PublishedAtFinds(vs);
      NewestFinds(vs, h, Ready);
      NewestFinds(vs, h, Draft);
      if Prepare(db, f).newVersion {
        NoLiveVersion(vs, h);
      }
    }
  }

  /** With no published, ready or draft version of a hash found, none exists. */
  lemma NoLiveVersion(vs: seq<Version>, h: Hash)
    requires SoundVersions(vs)
    requires PublishedAt(vs).Some? ==> PublishedAt(vs).value < |vs| && vs[PublishedAt(vs).value].hash != h
    requires Newest(vs, h, Ready).None? && Newest(vs, h, Draft).None?
    ensures forall i :: 0 <= i < |vs| && Live(vs[i].state) ==> vs[i].hash != h
    ensures SoundVersions(vs + [NewDraft(h)])
  {
    PublishedAtFinds(vs);
    NewestFinds(vs, h, Ready);
    NewestFinds(vs, h, Draft);
    forall i | 0 <= i < |vs| && Live(vs[i].state)
      ensures vs[i].hash != h
    {
      assert !Is(vs[i], h, Ready) && !Is(vs[i], h, Draft);
    }
  }

  /** No other live version has the hash of this one. */
  predicate Alone(vs: seq<Version>, v: nat)
    requires v < |vs|
  {
    forall i :: 0 <= i < |vs| && i != v && Live(vs[i].state) ==> vs[i].hash != vs[v].hash
  }

  lemma StateChangeKeepsSound(db: Db, d: DocId, v: nat, st: State)
    requires Sound(db) && HasVersion(db, d, v)
    requires Live(st) ==> Alone(db[d].versions, v)
    requires st == Published ==> PublishedAt(db[d].versions).None?
    ensures Sound(WithState(db, d, v, st))
  {
    PublishedAtFinds(db[d].versions);
  }

  lemma PublishKeepsSound(db: Db, d: DocId, v: nat)
    requires Sound(db) && Publish(db, d, v).Some?
    ensures Sound(Publish(db, d, v).value)
    ensures var vs := Publish(db, d, v).value[d].versions;
            v < |vs| && PublishedAt(vs) == Some(v) && vs[v].hash == db[d].versions[v].hash
  {
    var vs, vs' := db[d].versions, Publish(db, d, v).value[d].versions;
    PublishedAtFinds(vs);
    PublishedAtFinds(vs');
    assert SoundVersions(vs);
    var current := PublishedAt(vs);
    if current != Some(v) {
      var superseded := if current.Some? then WithState(db, d, current.value, Superseded) else db;
      if current.Some? {
        StateChangeKeepsSound(db, d, current.value, Superseded);
      }
      PublishedAtFinds(superseded[d].versions);
      assert Alone(superseded[d].versions, v);
      StateChangeKeepsSound(superseded, d, v, Published);
      assert SoundVersions(vs') && vs'[v].state == Published;
    }
    assert PublishedAt(vs').value == v;
  }

  lemma EmbedKeepsSound(db: Db, d: DocId, v: nat)
    requires Sound(db) && Embed(db, d, v).Some?
    ensures Sound(Embed(db, d, v).value) && SameElsewhere(db, Embed(db, d, v).value, d)
  {
    var (vs, vs') := (db[d].versions, Embed(db, d, v).value[d].versions);
    assert forall i :: 0 <= i < |vs| ==> vs'[i].hash == vs[i].hash && vs'[i].state == vs[i].state;
  }

  // ----- Runs that may die between any two committed steps -----

  /** What the running seeder process holds in memory. */
  datatype Phase =
    | Idle
    | Chosen(doc: DocId, version: nat, process: bool)
    | Claimed(doc: DocId, version: nat)
    | Processed(doc: DocId, version: nat)

  datatype Machine = Machine(db: Db, phase: Phase)

  datatype Action =
    | StartFile(f: File)
    | ClaimVersion
    | CompleteProcessing
    | RecordFailure
    | PublishVersion
    | EmbedVersion(doc: DocId, version: nat)   // by another actor, in between
    | GiveUp          // the step raised, or the process died: nothing more is committed for this file

  function Apply(m: Machine, a: Action): Option<Machine> {
    match (a, m.phase)
    case (StartFile(f), Idle) =>
      var p := Prepare(m.db, f);
      Some(Machine(p.db, if p.next.Work? then Chosen(f.doc, p.next.version, p.next.process) else Idle))
    case (ClaimVersion, Chosen(d, v, true)) =>
      var db := Claim(m.db, d, v);
      if db.Some? then Some(Machine(db.value, Claimed(d, v))) else None
    case (CompleteProcessing, Claimed(d, v)) =>
      var db := Finish(m.db, d, v, Ready);
      if db.Some? then Some(Machine(db.value, Processed(d, v))) else None
    case (RecordFailure, Claimed(d, v)) =>
      var db := Finish(m.db, d, v, Failed);
      if db.Some? then Some(Machine(db.value, Idle)) else None
    case (PublishVersion, Chosen(d, v, false)) =>
      var db := Publish(m.db, d, v);
      if db.Some? then Some(Machine(db.value, Idle)) else None
    case (PublishVersion, Processed(d, v)) =>
      var db := Publish(m.db, d, v);
      if db.Some? then Some(Machine(db.value, Idle)) else None
    case (EmbedVersion(d, v), _) =>
      var db := Embed(m.db, d, v);
      if db.Some? then Some(m.(db := db.value)) else None
    case (GiveUp, _) => Some(m.(phase := Idle))
    case _ => None
  }

  /** The version in progress is in the state the process left it in, and a claimed one has no live twin. */
  predicate Inv(m: Machine) {
    && Sound(m.db)
    && match m.phase
       case Idle => true
       case Chosen(d, v, process) => HasVersion(m.db, d, v) && StateOf(m.db, d, v) == if process then Draft else Ready
       case Claimed(d, v) => HasVersion(m.db, d, v) && StateOf(m.db, d, v) == Processing && Alone(m.db[d].versions, v)
       case Processed(d, v) => HasVersion(m.db, d, v) && StateOf(m.db, d, v) == Ready
  }

  lemma StepKeepsInv(m: Machine, a: Action)
    requires Inv(m) && Apply(m, a).Some?
    ensures Inv(Apply(m, a).value)
  {
    match a
    case StartFile(f) => PrepareKeepsSound(m.db, f);
    case ClaimVersion =>
      var (d, v) := (m.phase.doc, m.phase.version);
      assert SoundVersions(m.db[d].versions);
      StateChangeKeepsSound(m.db, d, v, Processing);
    case CompleteProcessing => StateChangeKeepsSound(m.db, m.phase.doc, m.phase.version, Ready);
    case RecordFailure => StateChangeKeepsSound(m.db, m.phase.doc, m.phase.version, Failed);
    case PublishVersion => PublishKeepsSound(m.db, m.phase.doc, m.phase.version);
    case EmbedVersion(d, v) => EmbedKeepsSound(m.db, d, v);
    case GiveUp =>
  }

  function After(db: Db, run: seq<Action>): Option<Machine> {
    if run == [] then Some(Machine(db, Idle))
    else
      var before := After(db, run[..|run| - 1]);
      if before.None? then None else Apply(before.value, run[|run| - 1])
  }

  /**
    However many seeder runs follow each other, wherever each was interrupted, and whatever is embedded
    in between, no document ever has two versions of the same content among draft, ready and published,
    nor two published versions.
   */
  lemma {:induction false} InterruptedRunsStaySound(db: Db, run: seq<Action>)
    requires Sound(db) && After(db, run).Some?
    ensures Inv(After(db, run).value)
  {
    if run != [] {
      InterruptedRunsStaySound(db, run[..|run| - 1]);
      StepKeepsInv(After(db, run[..|run| - 1]).value, run[|run| - 1]);
    }
  }

  /** Runs that overlap break it: a second seeder prepares while the first one's version is being processed. */
  lemma OverlappingRunsCanDuplicate(f: File)
    requires f.content.Hashed?
    ensures var first := Prepare(map[], f);
            var claimed := Claim(first.db, f.doc, 0);
            && first.next == Work(0, true) && claimed.Some?
            && var second := Prepare(claimed.value, f);
               var finished := Finish(second.db, f.doc, 0, Ready);
               finished.Some? && !Sound(finished.value)
  {
    var first := Prepare(map[], f);
    var claimed := Claim(first.db, f.doc, 0).value;
    var vs := claimed[f.doc].versions;
    assert vs == [Version(f.content.hash, Processing, false)] && vs[..0] == [];
    var second := Prepare(claimed, f);
    assert second.db[f.doc].versions == vs + [NewDraft(f.content.hash)];
    var finished := Finish(second.db, f.doc, 0, Ready).value;
    assert !SoundVersions(finished[f.doc].versions) by {
      assert finished[f.doc].versions[0] == Version(f.content.hash, Ready, false);
      assert finished[f.doc].versions[1] == NewDraft(f.content.hash);
    }
  }

  // ----- One file without interruption -----

  datatype ProcessEnd = Succeeds | FailsRecorded | FailsUnrecorded

  /** What the services do for one file, should they be called. */
  datatype Services = Services(claims: bool, processing: ProcessEnd, publishes: bool)

  const WORKING := Services(true, Succeeds, true)

  datatype FileEnd = Skipped | PublishedIt | FailedIt

  datatype Seeded = Seeded(db: Db, end: FileEnd, processed: bool)

  function ProcessService(db: Db, d: DocId, v: nat, s: Services): Seeded {
    var claimed := Claim(db, d, v);
    if !s.claims || claimed.None? then Seeded(db, FailedIt, false)
    else
      match s.processing
      case FailsUnrecorded => Seeded(claimed.value, FailedIt, false)
      case FailsRecorded =>
        var failed := Finish(claimed.value, d, v, Failed);
        Seeded(if failed.Some? then failed.value else claimed.value, FailedIt, false)
      case Succeeds =>
        var ready := Finish(claimed.value, d, v, Ready);
        if ready.Some? then Seeded(ready.value, PublishedIt, true) else Seeded(claimed.value, FailedIt, false)
  }

  function PublishService(db: Db, d: DocId, v: nat, processed: bool, s: Services): Seeded {
    var published := Publish(db, d, v);
    if s.publishes && published.Some? then Seeded(published.value, PublishedIt, processed)
      else Seeded(db, FailedIt, processed)
  }

  /** Processing, if the version needs it, and publication. */
  function Carried(db: Db, d: DocId, v: nat, process: bool, s: Services): Seeded {
    if !process then PublishService(db, d, v, false, s)
    else
      var done := ProcessService(db, d, v, s);
      if done.end == FailedIt then done else PublishService(done.db, d, v, true, s)
  }

  function SeedFile(db: Db, f: File, s: Services): Seeded {
    var p := Prepare(db, f);
    match p.next
    case Skip => Seeded(p.db, Skipped, false)
    case Refused => Seeded(p.db, FailedIt, false)
    case Work(v, process) => Carried(p.db, f.doc, v, process, s)
  }

  function PublishedHash(db: Db, d: DocId): Option<Hash> {
    if d !in db then None
    else
      PublishedAtFinds(db[d].versions);
      if PublishedAt(db[d].versions).None? then None else Some(db[d].versions[PublishedAt(db[d].versions).value].hash)
  }

  /** The file's content is what its document currently publishes, and the file still belongs to it. */
  predicate UpToDate(db: Db, f: File) {
    match f.content
    case Unreadable => false
    case Empty => true
    case Hashed(h) => f.doc in db && Compatible(db, f) && PublishedHash(db, f.doc) == Some(h)
  }

  /** A file is skipped exactly when it is up to date, and then nothing changes. */
  lemma SkippedIff(db: Db, f: File, s: Services)
    ensures SeedFile(db, f, s).end == Skipped <==> UpToDate(db, f)
    ensures UpToDate(db, f) ==> SeedFile(db, f, s).db == db
  {
    if f.content.Hashed? && Compatible(db, f) {
      var vs := if f.doc in db then db[f.doc].versions else [];
      PublishedAtFinds(vs);
    }
  }

  /** The file can be read, and its document, if there is one, is active and of its kind. */
  predicate Usable(db: Db, f: File) {
    !f.content.Unreadable? && (f.content.Hashed? ==> Compatible(db, f))
  }

  predicate IsStaged(v: Version, h: Hash) {
    Is(v, h, Ready) && v.covered
  }

  /** The file's content waits in its document, processed and embedded, for publication. */
  predicate Staged(db: Db, f: File) {
    && f.content.Hashed? && f.doc in db && Compatible(db, f)
    && exists v :: 0 <= v < |db[f.doc].versions| && IsStaged(db[f.doc].versions[v], f.content.hash)
  }

  lemma ProcessedDraft(db: Db, f: File, v: nat, st: State)
    requires Sound(db) && Pending(db, f, v, Draft) && st in {Ready, Failed}
    ensures Claim(db, f.doc, v).Some? && Finish(Claim(db, f.doc, v).value, f.doc, v, st).Some?
    ensures var (claimed, done) := (Claim(db, f.doc, v).value, Finish(Claim(db, f.doc, v).value, f.doc, v, st).value);
            && Sound(claimed) && SameElsewhere(db, claimed, f.doc)
            && Sound(done) && SameElsewhere(db, done, f.doc) && Pending(done, f, v, st)
  {
    assert SoundVersions(db[f.doc].versions) && Alone(db[f.doc].versions, v);
    StateChangeKeepsSound(db, f.doc, v, Processing);
    StateChangeKeepsSound(WithState(db, f.doc, v, Processing), f.doc, v, st);
  }

  /** Everything about publication is as before: what is published, and what waits for it. */
  ghost predicate NothingPublished(before: Db, after: Db, d: DocId) {
    && SameElsewhere(before, after, d)
    && PublishedHash(after, d) == PublishedHash(before, d)
    && (forall f: File :: f.doc == d ==> (Staged(after, f) <==> Staged(before, f)))
  }

  lemma {:induction false} SamePublishedAt(vs: seq<Version>, ws: seq<Version>)
    requires |vs| <= |ws|
    requires forall i :: 0 <= i < |vs| ==> (ws[i].state == Published <==> vs[i].state == Published)
    requires forall i :: |vs| <= i < |ws| ==> ws[i].state != Published
    ensures PublishedAt(ws) == PublishedAt(vs)
    decreases |ws|
  {
    if |ws| > |vs| {
      SamePublishedAt(vs, ws[..|ws| - 1]);
    } else if vs != [] {
      SamePublishedAt(vs[..|vs| - 1], ws[..|ws| - 1]);
    }
  }

  /** A version that is neither published nor staged before and after makes no difference. */
  lemma QuietChange(db: Db, d: DocId, v: nat, changed: Version)
    requires HasVersion(db, d, v) && changed.hash == db[d].versions[v].hash
    requires changed.state != Published && StateOf(db, d, v) != Published
    requires !IsStaged(changed, changed.hash) && !IsStaged(db[d].versions[v], changed.hash)
    ensures NothingPublished(db, WithVersion(db, d, v, changed), d)
  {
    var after := WithVersion(db, d, v, changed);
    var (vs, ws) := (db[d].versions, after[d].versions);
    SamePublishedAt(vs, ws);
    PublishedAtFinds(vs);
    forall f: File | f.doc == d
      ensures Staged(after, f) <==> Staged(db, f)
    {
      if f.content.Hashed? {
        assert forall i :: 0 <= i < |vs| ==> (IsStaged(ws[i], f.content.hash) <==> IsStaged(vs[i], f.content.hash));
      }
    }
  }

  lemma QuietTwice(a: Db, b: Db, c: Db, d: DocId)
    requires NothingPublished(a, b, d) && NothingPublished(b, c, d)
    ensures NothingPublished(a, c, d)
  {
  }

  lemma DraftIsQuiet(db: Db, d: DocId, doc: Document, h: Hash)
    requires if d in db then doc == db[d] else doc.versions == []
    ensures NothingPublished(db, db[d := doc.(versions := doc.versions + [NewDraft(h)])], d)
  {
    var vs := doc.versions;
    var ws := vs + [NewDraft(h)];
    var after := db[d := doc.(versions := ws)];
    SamePublishedAt(vs, ws);
    PublishedAtFinds(vs);
    forall f: File | f.doc == d
      ensures Staged(after, f) <==> Staged(db, f)
    {
      if f.content.Hashed? {
        assert forall i :: 0 <= i < |vs| ==> ws[i] == vs[i];
        assert !IsStaged(ws[|vs|], f.content.hash);
      }
    }
  }

  /** Preparation changes nothing or adds a draft. */
  lemma PreparedDatabase(db: Db, f: File)
    ensures var p := Prepare(db, f);
            if !p.newVersion then p.db == db
            else
              && f.content.Hashed? && Compatible(db, f)
              && var doc := if f.doc in db then db[f.doc] else Document(true, f.kind, []);
                 p.db == db[f.doc := doc.(versions := doc.versions + [NewDraft(f.content.hash)])]
  {
  }

  lemma PrepareIsQuiet(db: Db, f: File)
    ensures NothingPublished(db, Prepare(db, f).db, f.doc)
  {
    PreparedDatabase(db, f);
    if Prepare(db, f).newVersion {
      DraftIsQuiet(db, f.doc, if f.doc in db then db[f.doc] else Document(true, f.kind, []), f.content.hash);
    }
  }

  /** Processing publishes nothing and stages nothing: what it completes has no embeddings yet. */
  lemma ProcessOutcome(db: Db, f: File, v: nat, s: Services)
    requires Sound(db) && Pending(db, f, v, Draft)
    ensures var done := ProcessService(db, f.doc, v, s);
            && Sound(done.db) && NothingPublished(db, done.db, f.doc)
            && (done.end == FailedIt <==> !s.claims || s.processing != Succeeds)
            && (done.end != FailedIt ==> Pending(done.db, f, v, Ready) && !done.db[f.doc].versions[v].covered)
  {
    var st := if s.processing == Succeeds then Ready else Failed;
    ProcessedDraft(db, f, v, st);
    var claimed := WithState(db, f.doc, v, Processing);
    QuietChange(db, f.doc, v, Moved(db[f.doc].versions[v], Processing));
    QuietChange(claimed, f.doc, v, Moved(claimed[f.doc].versions[v], st));
    QuietTwice(db, claimed, WithState(claimed, f.doc, v, st), f.doc);
  }

  /** A publication takes exactly the published content off what waits. */
  lemma PublicationEffect(db: Db, f: File, v: nat)
    requires Sound(db) && Pending(db, f, v, Ready) && db[f.doc].versions[v].covered
    ensures Publish(db, f.doc, v).Some?
    ensures var after := Publish(db, f.doc, v).value;
            && Sound(after) && SameElsewhere(db, after, f.doc) && PublishedHash(after, f.doc) == Some(f.content.hash)
            && (forall g: File :: g.doc == f.doc ==> (Staged(after, g) <==> Staged(db, g) && g.content != f.content))
  {
    var vs := db[f.doc].versions;
    PublishedAtFinds(vs);
    PublishKeepsSound(db, f.doc, v);
    var after := Publish(db, f.doc, v).value;
    var ws := after[f.doc].versions;
    assert SoundVersions(vs);
    assert forall i :: 0 <= i < |vs| && i != v ==>
        ws[i] == vs[i] || (vs[i].state == Published && ws[i].state == Superseded);
    forall g: File | g.doc == f.doc
      ensures Staged(after, g) <==> Staged(db, g) && g.content != f.content
    {
      if g.content.Hashed? && g.content != f.content {
        assert forall i :: 0 <= i < |vs| ==> (IsStaged(ws[i], g.content.hash) <==> IsStaged(vs[i], g.content.hash));
      }
    }
  }

  /** Preparation hands on a ready version with embeddings exactly when the content was staged. */
  lemma StagedIsReused(db: Db, f: File)
    requires Sound(db)
    ensures var p := Prepare(db, f);
            && (p.next.Work? ==> HasVersion(p.db, f.doc, p.next.version))
            && (Staged(db, f) <==> p.next.Work? && !p.next.process && p.db[f.doc].versions[p.next.version].covered)
  {
    PrepareKeepsSound(db, f);
    if f.content.Hashed? && f.doc in db && Compatible(db, f) {
      var (vs, h) := (db[f.doc].versions, f.content.hash);
      assert SoundVersions(vs);
      PublishedAtFinds(vs);
      NewestFinds(vs, h, Ready);
    }
  }

  lemma PublishOutcome(db: Db, f: File, v: nat, processed: bool, s: Services)
    requires Sound(db) && Pending(db, f, v, Ready) && PublishedHash(db, f.doc) != Some(f.content.hash)
    ensures var done := PublishService(db, f.doc, v, processed, s);
            && Sound(done.db) && SameElsewhere(db, done.db, f.doc)
            && (done.end == FailedIt <==> !(s.publishes && db[f.doc].versions[v].covered))
            && (done.end == FailedIt ==> done.db == db)
            && (done.end != FailedIt ==> done.end == PublishedIt && UpToDate(done.db, f))
  {
    if db[f.doc].versions[v].covered {
      PublicationEffect(db, f, v);
    } else {
      PublishedAtFinds(db[f.doc].versions);
    }
  }

  lemma CarriedOutcome(db: Db, f: File, v: nat, s: Services)
    requires Sound(db) && Pending(db, f, v, Draft) && PublishedHash(db, f.doc) != Some(f.content.hash)
    ensures var done := Carried(db, f.doc, v, true, s);
            Sound(done.db) && done.end == FailedIt && NothingPublished(db, done.db, f.doc)
  {
    ProcessOutcome(db, f, v, s);
    var done := ProcessService(db, f.doc, v, s);
    if done.end != FailedIt {
      PublishOutcome(done.db, f, v, true, s);
    }
  }

  /**
    What one file comes to, from a sound database: it is skipped exactly when it is up to date, published
    exactly when its content was ready and embedded beforehand and the service publishes, and fails
    otherwise. A failed file leaves what is published alone; in particular a file whose version this run
    has to process always fails.
   */
  lemma SeededFileIsPublished(db: Db, f: File, s: Services)
    requires Sound(db)
    ensures var done := SeedFile(db, f, s);
            && Sound(done.db) && SameElsewhere(db, done.db, f.doc)
            && (done.end == Skipped <==> UpToDate(db, f))
            && (done.end == PublishedIt <==> Staged(db, f) && s.publishes)
            && (UpToDate(done.db, f) <==> done.end != FailedIt)
            && (done.end != PublishedIt ==> NothingPublished(db, done.db, f.doc))
  {
    SkippedIff(db, f, s);
    PrepareKeepsSound(db, f);
    PrepareIsQuiet(db, f);
    StagedIsReused(db, f);
    var p := Prepare(db, f);
    match p.next
    case Skip =>
    case Refused =>
    case Work(v, false) => PublishOutcome(p.db, f, v, false, s);
    case Work(v, true) =>
      CarriedOutcome(p.db, f, v, s);
      QuietTwice(db, p.db, Carried(p.db, f.doc, v, true, s).db, f.doc);
  }

  /** In an empty database every non-blank file fails, however well the services work. */
  lemma NewContentIsNotPublished(f: File, s: Services)
    requires f.content.Hashed?
    ensures SeedFile(map[], f, s).end == FailedIt && PublishedHash(SeedFile(map[], f, s).db, f.doc) == None
  {
    SeededFileIsPublished(map[], f, s);
    assert PublishedHash(map[], f.doc) == None;
  }

  /** The content is published, or ready and waiting, with or without embeddings. */
  predicate Standing(db: Db, f: File) {
    && f.content.Hashed? && f.doc in db && Compatible(db, f)
    && (UpToDate(db, f)
        || exists v :: 0 <= v < |db[f.doc].versions| && Is(db[f.doc].versions[v], f.content.hash, Ready))
  }

  /** Working services process a draft and, without embeddings, leave it at that. */
  lemma WorkingDraft(db: Db, f: File, v: nat)
    requires Sound(db) && Pending(db, f, v, Draft) && PublishedHash(db, f.doc) != Some(f.content.hash)
    ensures Pending(Carried(db, f.doc, v, true, WORKING).db, f, v, Ready)
  {
    ProcessOutcome(db, f, v, WORKING);
    PublishOutcome(ProcessService(db, f.doc, v, WORKING).db, f, v, true, WORKING);
  }

  lemma PendingStands(db: Db, f: File, v: nat)
    requires Pending(db, f, v, Ready)
    ensures Standing(db, f)
  {
  }

  /** With working services a usable file ends published or ready. */
  lemma WorkingFileStands(db: Db, f: File)
    requires Sound(db) && Usable(db, f) && f.content.Hashed?
    ensures Standing(SeedFile(db, f, WORKING).db, f)
  {
    SeededFileIsPublished(db, f, WORKING);
    PrepareKeepsSound(db, f);
    PrepareIsQuiet(db, f);
    var p := Prepare(db, f);
    if SeedFile(db, f, WORKING).end == FailedIt {
      var v := p.next.version;
      if p.next.process {
        WorkingDraft(p.db, f, v);
      } else {
        PublishOutcome(p.db, f, v, false, WORKING);
      }
      PendingStands(SeedFile(db, f, WORKING).db, f, v);
    }
  }

  // ----- The whole directory -----

  datatype Summary = Summary(
    discovered: nat, createdDocuments: nat, createdVersions: nat, processed: nat, published: nat, skipped: nat,
    failed: nat)

  datatype Report = Report(db: Db, summary: Summary)

  function One(b: bool): nat {
    if b then 1 else 0
  }

  function Counted(sum: Summary, p: Prepared, done: Seeded): Summary {
    sum.(createdDocuments := sum.createdDocuments + One(p.newDocument),
         createdVersions := sum.createdVersions + One(p.newVersion),
         processed := sum.processed + One(done.processed),
         published := sum.published + One(done.end == PublishedIt),
         skipped := sum.skipped + One(done.end == Skipped),
         failed := sum.failed + One(done.end == FailedIt))
  }

  /** One more file, raised or not. */
  function SeedNext(before: Report, f: File, s: Services): Report {
    var done := SeedFile(before.db, f, s);
    Report(done.db, Counted(before.summary, Prepare(before.db, f), done))
  }

  /** services(i) is what the services do for the i-th file. */
  function SeedFirst(db: Db, files: seq<File>, services: nat -> Services, n: nat): Report
    requires n <= |files|
  {
    if n == 0 then Report(db, Summary(|files|, 0, 0, 0, 0, 0, 0))
    else SeedNext(SeedFirst(db, files, services, n - 1), files[n - 1], services(n - 1))
  }

  lemma SeedFirstNext(db: Db, files: seq<File>, services: nat -> Services, n: nat)
    requires n < |files|
    ensures SeedFirst(db, files, services, n + 1) == SeedNext(SeedFirst(db, files, services, n), files[n], services(n))
  {
  }

  function SeedAll(db: Db, files: seq<File>, services: nat -> Services): Report {
    SeedFirst(db, files, services, |files|)
  }

  /** Work done on a file is never counted as a skip. */
  lemma SkippedFilesAreUntouched(db: Db, f: File, s: Services)
    ensures SeedFile(db, f, s).end == Skipped ==>
              !Prepare(db, f).newVersion && !Prepare(db, f).newDocument && !SeedFile(db, f, s).processed
  {
    SkippedIff(db, f, s);
  }

  lemma CountedOnce(before: Report, f: File, s: Services)
    ensures var (sum, after) := (before.summary, SeedNext(before, f, s).summary);
            && after.discovered == sum.discovered
            && after.skipped + after.published + after.failed == sum.skipped + sum.published + sum.failed + 1
            && after.createdVersions - sum.createdVersions <= after.published
                 + after.failed - sum.published - sum.failed
            && after.processed - sum.processed <= after.published + after.failed - sum.published - sum.failed
  {
    SkippedFilesAreUntouched(before.db, f, s);
  }

  lemma FailuresOnlyGrow(before: Report, f: File, s: Services)
    ensures before.summary.failed <= SeedNext(before, f, s).summary.failed
  {
  }

  lemma SkipsOne(before: Report, f: File, s: Services)
    ensures SeedNext(before, f, s).summary.skipped == before.summary.skipped + One(UpToDate(before.db, f))
    ensures UpToDate(before.db, f) ==> SeedNext(before, f, s).db == before.db
  {
    SkippedIff(before.db, f, s);
  }

  /** Every discovered file is skipped, published or failed, and only one of them. */
  lemma {:induction false} EveryFileIsCounted(db: Db, files: seq<File>, services: nat -> Services, n: nat)
    requires n <= |files|
    ensures var s := SeedFirst(db, files, services, n).summary;
            && s.discovered == |files|
            && s.skipped + s.published + s.failed == n
            && s.createdVersions <= s.published + s.failed && s.processed <= s.published + s.failed
  {
    if n > 0 {
      EveryFileIsCounted(db, files, services, n - 1);
      CountedOnce(SeedFirst(db, files, services, n - 1), files[n - 1], services(n - 1));
    }
  }

  /** Non-blank files of one document agree on their content. */
  predicate Consistent(files: seq<File>) {
    forall i, j :: 0 <= i < j < |files| && files[i].doc == files[j].doc && files[i].content.Hashed?
        && files[j].content.Hashed?
      ==> files[i].content == files[j].content
  }

  /** The last non-blank file of a document among the first n. */
  predicate Latest(files: seq<File>, n: nat, i: nat) {
    && i < n <= |files| && files[i].content.Hashed?
    && forall j :: i < j < n && files[j].content.Hashed? ==> files[j].doc != files[i].doc
  }

  /** What holds of every non-blank file once a run without failures has passed it. */
  predicate Settled(db: Db, f: File) {
    !f.content.Unreadable? && (f.content.Hashed? ==> f.doc in db && Compatible(db, f))
  }

  lemma OthersStay(db: Db, db': Db, f: File, g: File)
    requires SameElsewhere(db, db', f.doc) && Settled(db, g)
    ensures Settled(db', g)
    ensures g.doc != f.doc && UpToDate(db, g) ==> UpToDate(db', g)
  {
  }

  /** What one more file without failures does, from the report before it. */
  predicate Advances(before: Db, after: Db, f: File) {
    && Sound(after) && SameElsewhere(before, after, f.doc) && UpToDate(after, f) && Settled(after, f)
    && (!f.content.Hashed? ==> after == before)
  }

  lemma SeededWithoutFailure(before: Report, f: File, s: Services)
    requires Sound(before.db) && SeedNext(before, f, s).summary.failed == 0
    ensures Advances(before.db, SeedNext(before, f, s).db, f)
  {
    SeededFileIsPublished(before.db, f, s);
    SkippedIff(before.db, f, s);
  }

  lemma {:induction false} SeedingKeepsSound(db: Db, files: seq<File>, services: nat -> Services, n: nat)
    requires Sound(db) && n <= |files|
    ensures Sound(SeedFirst(db, files, services, n).db)
  {
    if n > 0 {
      SeedingKeepsSound(db, files, services, n - 1);
      SeededFileIsPublished(SeedFirst(db, files, services, n - 1).db, files[n - 1], services(n - 1));
    }
  }

  lemma {:induction false} FailuresAccumulate(db: Db, files: seq<File>, services: nat -> Services, k: nat, n: nat)
    requires k <= n <= |files|
    ensures SeedFirst(db, files, services, k).summary.failed <= SeedFirst(db, files, services, n).summary.failed
    decreases n
  {
    if k < n {
      FailuresAccumulate(db, files, services, k, n - 1);
      FailuresOnlyGrow(SeedFirst(db, files, services, n - 1), files[n - 1], services(n - 1));
    }
  }

  lemma OneMoreFile(db: Db, files: seq<File>, services: nat -> Services, n: nat)
    requires n < |files| && SeedFirst(db, files, services, n + 1).summary.failed == 0
    requires Sound(db)
    ensures Advances(SeedFirst(db, files, services, n).db, SeedFirst(db, files, services, n + 1).db, files[n])
  {
    SeedingKeepsSound(db, files, services, n);
    SeededWithoutFailure(SeedFirst(db, files, services, n), files[n], services(n));
  }

  /** One more file leaves an earlier one settled, and published unless it replaces it. */
  lemma FileOutlasts(before: Db, after: Db, files: seq<File>, n: nat, i: nat)
    requires i < n < |files| && Advances(before, after, files[n]) && Settled(before, files[i])
    requires Latest(files, n, i) ==> UpToDate(before, files[i])
    ensures Settled(after, files[i])
    ensures Latest(files, n + 1, i) ==> UpToDate(after, files[i])
  {
    OthersStay(before, after, files[n], files[i]);
    if Latest(files, n + 1, i) {
      assert Latest(files, n, i);
    }
  }

  /** After a run without failures each document publishes the content of its last non-blank file. */
  lemma {:induction false} LastFileWins(db: Db, files: seq<File>, services: nat -> Services, n: nat, i: nat)
    requires Sound(db) && i < n <= |files| && SeedFirst(db, files, services, n).summary.failed == 0
    ensures Settled(SeedFirst(db, files, services, n).db, files[i])
    ensures Latest(files, n, i) ==> UpToDate(SeedFirst(db, files, services, n).db, files[i])
    decreases n
  {
    FailuresAccumulate(db, files, services, n - 1, n);
    OneMoreFile(db, files, services, n - 1);
    if i < n - 1 {
      LastFileWins(db, files, services, n - 1, i);
      FileOutlasts(SeedFirst(db, files, services, n - 1).db, SeedFirst(db, files, services, n).db, files, n - 1, i);
    }
  }

  lemma SkippedOneMore(db: Db, files: seq<File>, before: Report, after: Report, n: nat)
    requires n < |files| && before.summary.skipped <= n
    requires before.summary.skipped == n <==> forall i :: 0 <= i < n ==> UpToDate(db, files[i])
    requires before.summary.skipped == n ==> before.db == db
    requires after.summary.skipped == before.summary.skipped + One(UpToDate(before.db, files[n]))
    requires UpToDate(before.db, files[n]) ==> after.db == before.db
    ensures after.summary.skipped <= n + 1
    ensures after.summary.skipped == n + 1 <==> forall i :: 0 <= i < n + 1 ==> UpToDate(db, files[i])
    ensures after.summary.skipped == n + 1 ==> after.db == db
  {
  }

  /** A run that skips every file changes nothing; it skips every file exactly when all are up to date. */
  lemma {:induction false} AllSkippedIff(db: Db, files: seq<File>, services: nat -> Services, n: nat)
    requires n <= |files|
    ensures SeedFirst(db, files, services, n).summary.skipped <= n
    ensures SeedFirst(db, files, services, n).summary.skipped == n <==>
              forall i :: 0 <= i < n ==> UpToDate(db, files[i])
    ensures SeedFirst(db, files, services, n).summary.skipped == n ==> SeedFirst(db, files, services, n).db == db
  {
    if n > 0 {
      var before, after := SeedFirst(db, files, services, n - 1), SeedFirst(db, files, services, n);
      AllSkippedIff(db, files, services, n - 1);
      SkipsOne(before, files[n - 1], services(n - 1));
      SkippedOneMore(db, files, before, after, n - 1);
    }
  }

  /** The last non-blank file of the same document. */
  lemma LastOf(files: seq<File>, i: nat) returns (k: nat)
    requires i < |files| && files[i].content.Hashed?
    ensures i <= k && Latest(files, |files|, k) && files[k].doc == files[i].doc
  {
    k := i;
    var j := i + 1;
    while j < |files|
      invariant i <= k < j <= |files| && files[k].doc == files[i].doc && files[k].content.Hashed?
      invariant forall x :: k < x < j && files[x].content.Hashed? ==> files[x].doc != files[k].doc
    {
      if files[j].doc == files[i].doc && files[j].content.Hashed? {
        k := j;
      }
      j := j + 1;
    }
  }

  /** Files that are up to date together agree, and after a run without failures agreeing files are. */
  lemma UpToDateTogetherIff(db: Db, files: seq<File>, services: nat -> Services)
    requires Sound(db) && SeedAll(db, files, services).summary.failed == 0
    ensures (forall i :: 0 <= i < |files| ==> UpToDate(SeedAll(db, files, services).db, files[i]))
              <==> Consistent(files)
  {
    var first := SeedAll(db, files, services).db;
    if Consistent(files) {
      forall i: nat | i < |files|
        ensures UpToDate(first, files[i])
      {
        LastFileWins(db, files, services, |files|, i);
        if files[i].content.Hashed? {
          var k := LastOf(files, i);
          LastFileWins(db, files, services, |files|, k);
        }
      }
    }
  }

  // ----- The script -----

  /** The arguments the script passes to the publication service, which requires all three. */
  datatype PublisherArguments = PublisherArguments(uowFactory: bool, embeddingProvider: bool, inputDescriptor: bool)

  /** What the script passes as it is written. */
  const AS_WRITTEN := PublisherArguments(true, false, false)

  predicate Constructs(a: PublisherArguments) {
    a.uowFactory && a.embeddingProvider && a.inputDescriptor
  }

  datatype ScriptEnd = Exited(code: nat) | Raised

  class Seeder {
    var db: Db
    var summary: Summary

    constructor (db: Db)
      ensures this.db == db && summary == Summary(0, 0, 0, 0, 0, 0, 0)
    {
      this.db := db;
      summary := Summary(0, 0, 0, 0, 0, 0, 0);
    }

    method PrepareDocumentVersion(f: File) returns (next: Preparation)
      modifies this
      ensures var p := Prepare(old(db), f);
              && next == p.next && db == p.db
              && summary == old(summary).(createdDocuments := old(summary).createdDocuments + One(p.newDocument),
                                          createdVersions := old(summary).createdVersions + One(p.newVersion))
    {
      if f.content == Unreadable {
        return Refused;
      }
      if f.content == Empty {
        return Skip;
      }
      var h := f.content.hash;
      if f.doc !in db {
        db := db[f.doc := Document(true, f.kind, [])];
        summary := summary.(createdDocuments := summary.createdDocuments + 1);
      } else if !db[f.doc].active || db[f.doc].kind != f.kind {
        return Refused;
      }
      var vs := db[f.doc].versions;
      assert db[f.doc := db[f.doc]] == db;
      PublishedAtFinds(vs);
      var current := PublishedAt(vs);
      if current.Some? && vs[current.value].hash == h {
        return Skip;
      }
      var ready := Newest(vs, h, Ready);
      if ready.Some? {
        return Work(ready.value, false);
      }
      var draft := Newest(vs, h, Draft);
      if draft.Some? {
        return Work(draft.value, true);
      }
      db := db[f.doc := db[f.doc].(versions := vs + [NewDraft(h)])];
      summary := summary.(createdVersions := summary.createdVersions + 1);
      return Work(|vs|, true);
    }

    /** Process and publish one version; whether the work raised. */
    method Carry(d: DocId, v: nat, process: bool, s: Services) returns (raised: bool)
      modifies this
      ensures var carried := Carried(old(db), d, v, process, s);
              && db == carried.db && raised == (carried.end == FailedIt)
              && summary == old(summary).(processed := old(summary).processed + One(carried.processed),
                                          published := old(summary).published + One(carried.end == PublishedIt))
    {
      if process {
        var done := ProcessService(db, d, v, s);
        db := done.db;
        if done.end == FailedIt {
          return true;
        }
        summary := summary.(processed := summary.processed + 1);
      }
      var published := Publish(db, d, v);
      if !s.publishes || published.None? {
        return true;
      }
      db := published.value;
      summary := summary.(published := summary.published + 1);
      return false;
    }

    method SeedOne(f: File, s: Services) returns (raised: bool)
      modifies this
      ensures raised <==> SeedFile(old(db), f, s).end == FailedIt
      ensures Report(db, if raised then summary.(failed := summary.failed + 1) else summary)
              == SeedNext(Report(old(db), old(summary)), f, s)
    {
      var next := PrepareDocumentVersion(f);
      match next
      case Skip =>
        summary := summary.(skipped := summary.skipped + 1);
        return false;
      case Refused => return true;
      case Work(v, process) => raised := Carry(f.doc, v, process, s);
    }

    /** One file; an exception is counted and the loop goes on. */
    method Attempt(f: File, s: Services)
      modifies this
      ensures Report(db, summary) == SeedNext(Report(old(db), old(summary)), f, s)
    {
      var raised := SeedOne(f, s);
      if raised {
        summary := summary.(failed := summary.failed + 1);
      }
    }

    /** Without files there is nothing to do; a publisher that cannot be constructed ends the script before any file. */
    method Run(files: seq<File>, arguments: PublisherArguments, markdown: bool, services: nat -> Services)
      returns (end: ScriptEnd)
      modifies this
      ensures end == Raised <==> files != [] && !(Constructs(arguments) && markdown)
      ensures arguments == AS_WRITTEN && files != [] ==> end == Raised
      ensures end == Raised ==> db == old(db)
      ensures end != Raised ==>
                Report(db, summary) == SeedAll(old(db), files, services) && end == Exited(One(summary.failed > 0))
    {
      summary := Summary(|files|, 0, 0, 0, 0, 0, 0);
      if files == [] {
        return Exited(0);
      }
      if !Constructs(arguments) || !markdown {
        return Raised;
      }
      for i := 0 to |files|
        invariant Report(db, summary) == SeedFirst(old(db), files, services, i)
      {
        SeedFirstNext(old(db), files, services, i);
        Attempt(files[i], services(i));
      }
      return Exited(One(summary.failed > 0));
    }
  }
}
