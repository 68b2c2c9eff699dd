/**
  Retrieval telemetry: ranked lists accumulated per chunk while retrieval runs, turned into candidate
  rows when it completes. The rows' database constraints are traced back to the recorded lists.
 */
module RetrievalTelemetry {
  import opened Outcomes

  type ChunkId = nat

  /** The five ranked lists a retrieval may record. */
  datatype Channel = Vector | Lexical | Fusion | Reranking | Final

  datatype Scores = Scores(similarity: Option<real>, lexical: Option<real>, fusion: Option<real>,
      reranker: Option<real>)

  datatype Candidate = Candidate(chunk: ChunkId, scores: Scores)

  datatype Entry = Entry(
    candidate: Candidate, vector: Option<nat>, lexical: Option<nat>, fusion: Option<nat>, reranking: Option<nat>,
    final: Option<nat>)
  {
    function Rank(ch: Channel): Option<nat> {
      match ch
      case Vector => vector
      case Lexical => lexical
      case Fusion => fusion
      case Reranking => reranking
      case Final => final
    }

    function WithRank(ch: Channel, rank: nat): Entry {
      match ch
      case Vector => this.(vector := Some(rank))
      case Lexical => this.(lexical := Some(rank))
      case Fusion => this.(fusion := Some(rank))
      case Reranking => this.(reranking := Some(rank))
      case Final => this.(final := Some(rank))
    }
  }

  type Entries = map<ChunkId, Entry>

  // ----- Recording one list -----

  /** The chunk's entry with its candidate refreshed, or a new entry. */
  function EntryFor(m: Entries, c: Candidate): Entry {
    if c.chunk in m then m[c.chunk].(candidate := c) else Entry(c, None, None, None, None, None)
  }

  function Recorded(m: Entries, ch: Channel, list: seq<Candidate>): Entries {
    if list == [] then m
    else
      var before, last := Recorded(m, ch, list[..|list| - 1]), list[|list| - 1];
      before[last.chunk := EntryFor(before, last).WithRank(ch, |list|)]
  }

  /** The rank a list gives a chunk: its last position, counted from one. */
  function Position(list: seq<Candidate>, id: ChunkId): Option<nat> {
    if list == [] then None
    else if list[|list| - 1].chunk == id then Some(|list|)
    else Position(list[..|list| - 1], id)
  }

  predicate DistinctChunks(list: seq<Candidate>) {
    forall i, j :: 0 <= i < j < |list| ==> list[i].chunk != list[j].chunk
  }

  /** On a list of distinct chunks the rank is the exact inverse of the position. */
  lemma {:induction false} PositionIsInverse(list: seq<Candidate>, id: ChunkId)
    ensures Position(list, id).Some? <==> exists i :: 0 <= i < |list| && list[i].chunk == id
    ensures Position(list, id).Some? ==>
              1 <= Position(list, id).value <= |list| && list[Position(list, id).value - 1].chunk == id
    ensures DistinctChunks(list) ==>
              forall i :: 0 <= i < |list| && list[i].chunk == id ==> Position(list, id) == Some(i + 1)
  {
    if list != [] {
      PositionIsInverse(list[..|list| - 1], id);
    }
  }

  /** Recording a list touches exactly its chunks, and of the ranks only the list's own. */
  lemma {:induction false} RecordedEntry(m: Entries, ch: Channel, list: seq<Candidate>, id: ChunkId, other: Channel)
    ensures id in Recorded(m, ch, list) <==> id in m || Position(list, id).Some?
    ensures id in Recorded(m, ch, list) ==>
              Recorded(m, ch, list)[id].Rank(other) ==
                if other == ch && Position(list, id).Some? then Position(list, id)
                else if id in m then m[id].Rank(other) else None
  {
    if list != [] {
      RecordedEntry(m, ch, list[..|list| - 1], id, other);
    }
  }

  // ----- Recording several lists -----

  datatype Recording = Recording(channel: Channel, list: seq<Candidate>)

  function AfterAll(recordings: seq<Recording>): Entries {
    if recordings == [] then map[]
    else
      var last := recordings[|recordings| - 1];
      Recorded(AfterAll(recordings[..|recordings| - 1]), last.channel, last.list)
  }

  predicate EachOnce(recordings: seq<Recording>) {
    forall i, j :: 0 <= i < j < |recordings| ==> recordings[i].channel != recordings[j].channel
  }

  /** The rank of a chunk in the one list recorded for a channel, if there is one. */
  function RankIn(recordings: seq<Recording>, ch: Channel, id: ChunkId): Option<nat> {
    if recordings == [] then None
    else
      var last := recordings[|recordings| - 1];
      if last.channel == ch then Position(last.list, id) else RankIn(recordings[..|recordings| - 1], ch, id)
  }

  lemma {:induction false} RankInSomeList(recordings: seq<Recording>, ch: Channel, id: ChunkId)
    requires EachOnce(recordings)
    ensures RankIn(recordings, ch, id).Some? <==>
              exists r :: r in recordings && r.channel == ch && Position(r.list, id).Some?
    ensures forall r :: r in recordings && r.channel == ch ==> RankIn(recordings, ch, id) == Position(r.list, id)
  {
    if recordings != [] {
      var before, last := recordings[..|recordings| - 1], recordings[|recordings| - 1];
      RankInSomeList(before, ch, id);
      assert recordings == before + [last];
      assert forall r :: r in recordings <==> r in before || r == last;
    }
  }

  /**
    After lists for distinct channels, in any order: the entries are exactly the chunks of their union,
    and each rank field holds the chunk's position in that channel's list, or nothing.
   */
  lemma {:induction false} EntriesMatchTheLists(recordings: seq<Recording>, id: ChunkId, ch: Channel)
    requires EachOnce(recordings)
    ensures id in AfterAll(recordings) <==> exists r :: r in recordings && Position(r.list, id).Some?
    ensures id in AfterAll(recordings) ==> AfterAll(recordings)[id].Rank(ch) == RankIn(recordings, ch, id)
    ensures id !in AfterAll(recordings) ==> RankIn(recordings, ch, id) == None
  {
    if recordings != [] {
      var before, last := recordings[..|recordings| - 1], recordings[|recordings| - 1];
      EntriesMatchTheLists(before, id, ch);
      RecordedEntry(AfterAll(before), last.channel, last.list, id, ch);
      assert recordings == before + [last];
      assert forall r :: r in recordings <==> r in before || r == last;
      if last.channel == ch {
        RankInSomeList(before, ch, id);
        assert forall r :: r in before ==> r.channel != ch by {
          forall r | r in before
            ensures r.channel != ch
          {
            var i :| 0 <= i < |before| && before[i] == r;
            assert recordings[i].channel != recordings[|recordings| - 1].channel;
          }
        }
      }
    }
  }

  // ----- Rows -----

  datatype Row = Row(entry: Entry, finalScore: Option<real>, selected: bool)

  /** The most downstream score there is; a negative similarity does not count. */
  function FinalScore(s: Scores): Option<real> {
    if s.reranker.Some? then s.reranker
    else if s.fusion.Some? then s.fusion
    else if s.similarity.Some? && s.similarity.value >= 0.0 then s.similarity
    else s.lexical
  }

  function Rows(m: Entries, context: set<ChunkId>): map<ChunkId, Row> {
    map id | id in m :: Row(m[id], FinalScore(m[id].candidate.scores), id in context)
  }

  /**
    What a row says: the entry, whether the context takes its chunk, and the score of the latest stage that
    has one.
   */
  lemma RowsMeaning(m: Entries, context: set<ChunkId>, id: ChunkId)
    ensures Rows(m, context).Keys == m.Keys
    ensures id in m ==>
              var (r, s) := (Rows(m, context)[id], m[id].candidate.scores);
              && r.entry == m[id] && (r.selected <==> id in context)
              && (s.reranker.Some? ==> r.finalScore == s.reranker)
              && (s.reranker == None && s.fusion.Some? ==> r.finalScore == s.fusion)
              && (s.reranker == None == s.fusion ==>
                    r.finalScore == if s.similarity.Some? && 0.0 <= s.similarity.value then s.similarity else s.lexical)
  {
  }

  /** The list's last candidate for a chunk. */
  function Mention(list: seq<Candidate>, id: ChunkId): Option<Candidate> {
    if list == [] then None
    else if list[|list| - 1].chunk == id then Some(list[|list| - 1])
    else Mention(list[..|list| - 1], id)
  }

  /** The candidate recorded last for a chunk, over all lists. */
  function LatestCandidate(recordings: seq<Recording>, id: ChunkId): Option<Candidate> {
    if recordings == [] then None
    else
      var last := Mention(recordings[|recordings| - 1].list, id);
      if last.Some? then last else LatestCandidate(recordings[..|recordings| - 1], id)
  }

  lemma {:induction false} RecordedCandidate(m: Entries, ch: Channel, list: seq<Candidate>, id: ChunkId)
    ensures id in Recorded(m, ch, list) <==> id in m || Mention(list, id).Some?
    ensures id in Recorded(m, ch, list) ==>
              Recorded(m, ch, list)[id].candidate ==
                if Mention(list, id).Some? then Mention(list, id).value else m[id].candidate
  {
    if list != [] {
      RecordedCandidate(m, ch, list[..|list| - 1], id);
    }
  }

  /** An entry carries the scores under which its chunk was recorded last. */
  lemma {:induction false} EntriesCarryTheLatest(recordings: seq<Recording>, id: ChunkId)
    ensures id in AfterAll(recordings) <==> LatestCandidate(recordings, id).Some?
    ensures id in AfterAll(recordings) ==> LatestCandidate(recordings, id) == Some(AfterAll(recordings)[id].candidate)
  {
    if recordings != [] {
      var before, last := recordings[..|recordings| - 1], recordings[|recordings| - 1];
      EntriesCarryTheLatest(before, id);
      RecordedCandidate(AfterAll(before), last.channel, last.list, id);
    }
  }

  /** The table's constraint that a row was found by vector or lexical retrieval. */
  predicate HasOrigin(r: Row) {
    r.entry.vector.Some? || r.entry.lexical.Some?
  }

  /** The table's constraint that a selected row was ranked at the end. */
  predicate SelectedIsRanked(r: Row) {
    r.selected ==> r.entry.final.Some?
  }

  predicate RanksArePositive(r: Row) {
    forall ch: Channel :: r.entry.Rank(ch).Some? ==> r.entry.Rank(ch).value > 0
  }

  /** The chunks of the lists recorded for the given channels. */
  ghost predicate Listed(recordings: seq<Recording>, channels: set<Channel>, id: ChunkId) {
    exists r :: r in recordings && r.channel in channels && Position(r.list, id).Some?
  }

  lemma ListedIsRanked(recordings: seq<Recording>, one: Channel, two: Channel, id: ChunkId)
    requires EachOnce(recordings)
    ensures Listed(recordings, {one, two}, id) <==>
              RankIn(recordings, one, id).Some? || RankIn(recordings, two, id).Some?
  {
    RankInSomeList(recordings, one, id);
    RankInSomeList(recordings, two, id);
  }

  /**
    Every row has an origin exactly when every recorded chunk was found by vector or lexical retrieval:
    it is enough, and necessary, that fusion, reranking and the final list introduce nothing new.
   */
  lemma OriginsIff(recordings: seq<Recording>, context: set<ChunkId>)
    requires EachOnce(recordings)
    ensures (forall id :: id in Rows(AfterAll(recordings), context)
              ==> HasOrigin(Rows(AfterAll(recordings), context)[id]))
            <==> (forall id :: Listed(recordings, {Fusion, Reranking, Final}, id) ==>
                    Listed(recordings, {Vector, Lexical}, id))
  {
    var m := AfterAll(recordings);
    forall id
      ensures id in m <==>
                Listed(recordings, {Vector, Lexical}, id) || Listed(recordings, {Fusion, Reranking, Final}, id)
      ensures id in m ==> (HasOrigin(Rows(m, context)[id]) <==> Listed(recordings, {Vector, Lexical}, id))
    {
      EntriesMatchTheLists(recordings, id, Vector);
      EntriesMatchTheLists(recordings, id, Lexical);
      ListedIsRanked(recordings, Vector, Lexical, id);
      forall r | r in recordings && Position(r.list, id).Some?
        ensures r.channel in {Vector, Lexical} || r.channel in {Fusion, Reranking, Final}
      {
      }
    }
  }

  /** Every selected row is ranked exactly when the context takes recorded chunks only from the final list. */
  lemma SelectionsIff(recordings: seq<Recording>, context: set<ChunkId>)
    requires EachOnce(recordings)
    ensures (forall id :: id in Rows(AfterAll(recordings), context)
              ==> SelectedIsRanked(Rows(AfterAll(recordings), context)[id]))
            <==> (forall id :: id in context && id in AfterAll(recordings) ==> Listed(recordings, {Final}, id))
  {
    var m := AfterAll(recordings);
    forall id | id in m
      ensures SelectedIsRanked(Rows(m, context)[id]) <==> (id in context ==> Listed(recordings, {Final}, id))
    {
      EntriesMatchTheLists(recordings, id, Final);
      ListedIsRanked(recordings, Final, Final, id);
      assert {Final, Final} == {Final};
    }
    assert forall id :: id in Rows(m, context) <==> id in m;
  }

  lemma RowsHavePositiveRanks(recordings: seq<Recording>, context: set<ChunkId>, id: ChunkId)
    requires EachOnce(recordings) && id in AfterAll(recordings)
    ensures RanksArePositive(Rows(AfterAll(recordings), context)[id])
  {
    forall ch: Channel | AfterAll(recordings)[id].Rank(ch).Some?
      ensures AfterAll(recordings)[id].Rank(ch).value > 0
    {
      EntriesMatchTheLists(recordings, id, ch);
      RankInSomeList(recordings, ch, id);
      var r :| r in recordings && r.channel == ch && Position(r.list, id).Some?;
      PositionIsInverse(r.list, id);
    }
  }

  predicate ScoresInRange(s: Scores) {
    && (s.similarity.Some? ==> -1.0 <= s.similarity.value <= 1.0)
    && (s.lexical.Some? ==> s.lexical.value >= 0.0)
    && (s.fusion.Some? ==> s.fusion.value >= 0.0)
    && (s.reranker.Some? ==> s.reranker.value >= 0.0)
  }

  /** Every CHECK constraint of the candidate table. */
  predicate Storable(r: Row) {
    && HasOrigin(r) && SelectedIsRanked(r) && RanksArePositive(r)
    && ScoresInRange(r.entry.candidate.scores) && (r.finalScore.Some? ==> r.finalScore.value >= 0.0)
  }

  /** The CHECK constraints in full: an origin, a final rank if selected, positive ranks, and scores in range. */
  lemma StorableMeaning(r: Row)
    ensures var (e, s) := (r.entry, r.entry.candidate.scores);
            Storable(r) <==>
              && (e.vector.Some? || e.lexical.Some?) && (r.selected ==> e.final.Some?)
              && e.vector != Some(0) && e.lexical != Some(0) && e.fusion != Some(0)
              && e.reranking != Some(0) && e.final != Some(0)
              && (s.similarity.Some? ==> -1.0 <= s.similarity.value && s.similarity.value <= 1.0)
              && (s.lexical.Some? ==> !(s.lexical.value < 0.0)) && (s.fusion.Some? ==> !(s.fusion.value < 0.0))
              && (s.reranker.Some? ==> !(s.reranker.value < 0.0))
                   && (r.finalScore.Some? ==> !(r.finalScore.value < 0.0))
  {
    var e := r.entry;
    assert e.Rank(Vector) == e.vector && e.Rank(Lexical) == e.lexical && e.Rank(Fusion) == e.fusion;
    assert e.Rank(Reranking) == e.reranking && e.Rank(Final) == e.final;
  }

  predicate AllStorable(rows: map<ChunkId, Row>) {
    forall id :: id in rows ==> Storable(rows[id])
  }

  /** Given in-range scores, the derived final score and the ranks need no condition of their own. */
  lemma RowIsStorableIff(recordings: seq<Recording>, context: set<ChunkId>, id: ChunkId)
    requires EachOnce(recordings) && id in AfterAll(recordings)
    ensures var r := Rows(AfterAll(recordings), context)[id];
            Storable(r) <==>
              HasOrigin(r) && SelectedIsRanked(r) && ScoresInRange(AfterAll(recordings)[id].candidate.scores)
  {
    RowsHavePositiveRanks(recordings, context, id);
  }

  /**
    When a retrieval's candidates can be stored, in terms of what was recorded: the later lists introduce
    no chunk, the context takes recorded chunks only from the final list, and every score is in range.
   */
  lemma StoredIff(recordings: seq<Recording>, context: set<ChunkId>)
    requires EachOnce(recordings)
    ensures AllStorable(Rows(AfterAll(recordings), context)) <==>
              && (forall id :: Listed(recordings, {Fusion, Reranking, Final}, id)
                   ==> Listed(recordings, {Vector, Lexical}, id))
              && (forall id :: id in context && id in AfterAll(recordings) ==> Listed(recordings, {Final}, id))
              && (forall id :: id in AfterAll(recordings) ==> ScoresInRange(AfterAll(recordings)[id].candidate.scores))
  {
    var m := AfterAll(recordings);
    OriginsIff(recordings, context);
    SelectionsIff(recordings, context);
    forall id | id in m
      ensures Storable(Rows(m, context)[id]) <==>
                HasOrigin(Rows(m, context)[id]) && SelectedIsRanked(Rows(m, context)[id])
                    && ScoresInRange(m[id].candidate.scores)
    {
      RowIsStorableIff(recordings, context, id);
    }
    assert forall id :: id in Rows(m, context) <==> id in m;
  }

  // ----- The recorder -----

  datatype RunStatus = Open | Succeeded | FailedRun

  datatype RecorderError = AlreadyStarted | NotStarted | AlreadyFinal | NegativeLatency | ConstraintViolated

  class Recorder {
    var status: Option<RunStatus>
    var candidates: Entries
    var counts: map<Channel, nat>
    var latencies: map<Channel, nat>
    var stored: map<ChunkId, Row>

    constructor ()
      ensures status == None && candidates == map[] && counts == map[] && latencies == map[] && stored == map[]
    {
      status, candidates, counts, latencies, stored := None, map[], map[], map[], map[];
    }

    method Start() returns (r: Result<(), RecorderError>)
      modifies this`status
      ensures r == if old(status).Some? then Err(AlreadyStarted) else Ok(())
      ensures status == if old(status).Some? then old(status) else Some(Open)
    {
      if status.Some? {
        return Err(AlreadyStarted);
      }
      status := Some(Open);
      return Ok(());
    }

    /** The entry kept for a chunk, created on first sight. */
    method Touch(c: Candidate)
      modifies this`candidates
      ensures candidates == old(candidates)[c.chunk := EntryFor(old(candidates), c)]
    {
      if c.chunk in candidates {
        candidates := candidates[c.chunk := candidates[c.chunk].(candidate := c)];
      } else {
        candidates := candidates[c.chunk := Entry(c, None, None, None, None, None)];
      }
    }

    method Rank(ch: Channel, list: seq<Candidate>)
      modifies this`candidates
      ensures candidates == Recorded(old(candidates), ch, list)
    {
      for k := 0 to |list|
        invariant candidates == Recorded(old(candidates), ch, list[..k])
      {
        assert list[..k + 1][..k] == list[..k];
        var c := list[k];
        Touch(c);
        candidates := candidates[c.chunk := candidates[c.chunk].WithRank(ch, k + 1)];
      }
      assert list[..|list|] == list;
    }

    /**
      record_vector, record_lexical, record_fusion and record_reranking; the final list has no count or
      latency of its own.
     */
    method Record(ch: Channel, list: seq<Candidate>, latency: int) returns (r: Result<(), RecorderError>)
      requires ch != Final
      modifies this`candidates, this`counts, this`latencies
      ensures r == if latency < 0 then Err(NegativeLatency) else Ok(())
      ensures candidates == if latency < 0 then old(candidates) else Recorded(old(candidates), ch, list)
      ensures counts == if latency < 0 then old(counts) else old(counts)[ch := |list|]
      ensures latency >= 0 ==> latencies == old(latencies)[ch := latency]
      ensures latency < 0 ==> latencies == old(latencies)
    {
      if latency < 0 {
        return Err(NegativeLatency);
      }
      counts := counts[ch := |list|];
      latencies := latencies[ch := latency];
      Rank(ch, list);
      return Ok(());
    }

    method RecordFinal(list: seq<Candidate>)
      modifies this`candidates
      ensures candidates == Recorded(old(candidates), Final, list)
    {
      Rank(Final, list);
    }

    /** The rows are inserted and the run closed in one transaction, which a violated constraint rolls back. */
    method Complete(context: set<ChunkId>, total: int, contextBuild: int) returns (r: Result<(), RecorderError>)
      modifies this`status, this`stored
      ensures r == if total < 0 || contextBuild < 0 then Err(NegativeLatency)
                   else if old(status).None? then Err(NotStarted)
                   else if old(status) != Some(Open) then Err(AlreadyFinal)
                   else if !AllStorable(Rows(candidates, context)) then Err(ConstraintViolated) else Ok(())
      ensures r.Ok? ==> status == Some(Succeeded) && stored == Rows(candidates, context)
      ensures r.Err? ==> status == old(status) && stored == old(stored)
    {
      if total < 0 || contextBuild < 0 {
        return Err(NegativeLatency);
      }
      if status.None? {
        return Err(NotStarted);
      }
      if status != Some(Open) {
        return Err(AlreadyFinal);
      }
      var rows := Rows(candidates, context);
      if !AllStorable(rows) {
        return Err(ConstraintViolated);
      }
      stored := rows;
      status := Some(Succeeded);
      return Ok(());
    }

    method Fail(total: int) returns (r: Result<(), RecorderError>)
      modifies this`status
      ensures r == if total < 0 then Err(NegativeLatency)
                   else if old(status).None? then Err(NotStarted)
                   else if old(status) != Some(Open) then Err(AlreadyFinal) else Ok(())
      ensures status == if r.Ok? then Some(FailedRun) else old(status)
    {
      if total < 0 {
        return Err(NegativeLatency);
      }
      if status.None? {
        return Err(NotStarted);
      }
      if status != Some(Open) {
        return Err(AlreadyFinal);
      }
      status := Some(FailedRun);
      return Ok(());
    }
  }
}
