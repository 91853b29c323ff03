/**
 * The durable event log: appends that number a run's events, harvests that store what an
 * attempt's stream has beyond the stored count, and pages that follow a sequence cursor.
 */
module Events {
  import opened Prelude

  /** One event of a run as it was appended: whose it is, and its document. */
  datatype Entry = Entry(attemptId: string, document: string)

  datatype Record = Record(sequence: nat, attemptId: string, eventIndex: nat, document: string)

  datatype Key = Key(runId: string, attemptId: string, eventIndex: nat)

  datatype Stored = Stored(sequence: nat, document: string)

  // ----- The log a table stands for -----

  function Positions(log: seq<Entry>, attemptId: string): set<nat> {
    set p | 0 <= p < |log| && log[p].attemptId == attemptId
  }

  function CountOf(log: seq<Entry>, attemptId: string): nat {
    |Positions(log, attemptId)|
  }

  /** The record at a position: sequences count from one, indices per attempt from zero. */
  function RecordAt(log: seq<Entry>, p: nat): Record
    requires p < |log|
  {
    Record(p + 1, log[p].attemptId, CountOf(log[..p], log[p].attemptId), log[p].document)
  }

  function KeyOf(runId: string, r: Record): Key {
    Key(runId, r.attemptId, r.eventIndex)
  }

  predicate RowFits(rows: map<Key, Stored>, runId: string, log: seq<Entry>, k: Key)
    requires k in rows
  {
    && 1 <= rows[k].sequence <= |log|
    && RecordAt(log, rows[k].sequence - 1) == Record(rows[k].sequence, k.attemptId, k.eventIndex, rows[k].document)
  }

  predicate EntryStored(rows: map<Key, Stored>, runId: string, log: seq<Entry>, p: nat)
    requires p < |log|
  {
    var r := RecordAt(log, p);
    KeyOf(runId, r) in rows && rows[KeyOf(runId, r)] == Stored(r.sequence, r.document)
  }

  /** The rows of a run are exactly the records of a log: sequences 1..N, each attempt's
      indices stored once, in order and without gaps. */
  predicate Represents(rows: map<Key, Stored>, runId: string, log: seq<Entry>) {
    && (forall k {:trigger RowFits(rows, runId, log, k)} | k in rows && k.runId == runId :: RowFits(rows, runId, log, k))
    && (forall p: nat {:trigger EntryStored(rows, runId, log, p)} | p < |log| :: EntryStored(rows, runId, log, p))
  }

  lemma CountSnoc(log: seq<Entry>, e: Entry, attemptId: string)
    ensures CountOf(log + [e], attemptId) == CountOf(log, attemptId) + if e.attemptId == attemptId then 1 else 0
  {
    var was, now := Positions(log, attemptId), Positions(log + [e], attemptId);
    if e.attemptId == attemptId {
      assert now == was + {|log|};
    } else {
      assert now == was;
    }
  }

  lemma CountStep(log: seq<Entry>, p: nat, attemptId: string)
    requires p < |log|
    ensures CountOf(log[..p + 1], attemptId) ==
            CountOf(log[..p], attemptId) + if log[p].attemptId == attemptId then 1 else 0
  {
    assert log[..p + 1] == log[..p] + [log[p]];
    CountSnoc(log[..p], log[p], attemptId);
  }

  /** Positions before p hold smaller indices, so no index of an attempt is used twice. */
  lemma CountBelow(log: seq<Entry>, p: nat)
    requires p < |log|
    ensures CountOf(log[..p], log[p].attemptId) < CountOf(log, log[p].attemptId)
  {
    CountStep(log, p, log[p].attemptId);
    SubsetSize(Positions(log[..p + 1], log[p].attemptId), Positions(log, log[p].attemptId));
  }

  /** Every index below an attempt's count is the index of one of its entries. */
  lemma {:induction false} IndexUsed(log: seq<Entry>, n: nat, attemptId: string, i: nat) returns (p: nat)
    requires n <= |log| && i < CountOf(log[..n], attemptId)
    ensures p < n && log[p].attemptId == attemptId && CountOf(log[..p], attemptId) == i
  {
    assert Positions(log[..0], attemptId) == {};
    CountStep(log, n - 1, attemptId);
    if i < CountOf(log[..n - 1], attemptId) {
      p := IndexUsed(log, n - 1, attemptId, i);
    } else {
      p := n - 1;
    }
  }

  lemma RecordAtAppend(log: seq<Entry>, more: seq<Entry>, p: nat)
    requires p < |log|
    ensures RecordAt(log + more, p) == RecordAt(log, p)
  {
    assert (log + more)[..p] == log[..p];
  }

  lemma RecordAtEnd(log: seq<Entry>, e: Entry)
    ensures RecordAt(log + [e], |log|) == Record(|log| + 1, e.attemptId, CountOf(log, e.attemptId), e.document)
  {
    assert (log + [e])[..|log|] == log;
  }

  /** Inserting the next record stands for appending one entry; it replaces no row. */
  lemma InsertRepresents(rows: map<Key, Stored>, runId: string, log: seq<Entry>, e: Entry)
    requires Represents(rows, runId, log)
    ensures var k := Key(runId, e.attemptId, CountOf(log, e.attemptId));
            && k !in rows
            && Represents(rows[k := Stored(|log| + 1, e.document)], runId, log + [e])
  {
    var k := Key(runId, e.attemptId, CountOf(log, e.attemptId));
    var rows', log' := rows[k := Stored(|log| + 1, e.document)], log + [e];
    RecordAtEnd(log, e);
    forall x | x in rows && x.runId == runId
      ensures 1 <= rows[x].sequence <= |log|
      ensures x != k && RecordAt(log', rows[x].sequence - 1) == RecordAt(log, rows[x].sequence - 1)
    {
      assert RowFits(rows, runId, log, x);
      CountBelow(log, rows[x].sequence - 1);
      RecordAtAppend(log, [e], rows[x].sequence - 1);
    }
    forall x | x in rows' && x.runId == runId ensures RowFits(rows', runId, log', x) {
      if x != k { assert RowFits(rows, runId, log, x); }
    }
    forall p: nat | p < |log'| ensures EntryStored(rows', runId, log', p) {
      if p < |log| {
        assert EntryStored(rows, runId, log, p);
        RecordAtAppend(log, [e], p);
      }
    }
  }

  // ----- What the aggregate queries return -----

  function IndexKeys(runId: string, attemptId: string, n: nat): (keys: set<Key>)
    ensures |keys| == n
    ensures forall k :: k in keys <==> k.runId == runId && k.attemptId == attemptId && k.eventIndex < n
  {
    if n == 0 then {} else IndexKeys(runId, attemptId, n - 1) + {Key(runId, attemptId, n - 1)}
  }

  lemma CountQuery(rows: map<Key, Stored>, runId: string, attemptId: string, log: seq<Entry>)
    requires Represents(rows, runId, log)
    ensures |set k | k in rows && k.runId == runId && k.attemptId == attemptId| == CountOf(log, attemptId)
  {
    var found := set k | k in rows && k.runId == runId && k.attemptId == attemptId;
    var keys := IndexKeys(runId, attemptId, CountOf(log, attemptId));
    forall k ensures k in found <==> k in keys {
      if k in found {
        assert RowFits(rows, runId, log, k);
        CountBelow(log, rows[k].sequence - 1);
      }
      if k in keys {
        assert log[..|log|] == log;
        var p := IndexUsed(log, |log|, attemptId, k.eventIndex);
        assert EntryStored(rows, runId, log, p);
      }
    }
    assert found == keys;
  }

  lemma MaxQuery(rows: map<Key, Stored>, runId: string, log: seq<Entry>)
    requires Represents(rows, runId, log)
    ensures var found := set k | k in rows && k.runId == runId :: rows[k].sequence;
            && (forall s | s in found :: s <= |log|)
            && (log != [] ==> |log| in found)
  {
    forall k | k in rows && k.runId == runId ensures rows[k].sequence <= |log| {
      assert RowFits(rows, runId, log, k);
    }
    if log != [] {
      assert EntryStored(rows, runId, log, |log| - 1);
      assert KeyOf(runId, RecordAt(log, |log| - 1)) in rows;
    }
  }

  // ----- Pages -----

  /** The page size is clamped to 1..20000. */
  function Bounded(limit: int): nat {
    var capped := if limit < 20000 then limit else 20000;
    if capped > 1 then capped else 1
  }

  /** The records at positions lo up to hi. */
  function Records(log: seq<Entry>, lo: nat, hi: nat): seq<Record>
    requires hi <= |log|
  {
    if hi <= lo then [] else seq(hi - lo, i requires 0 <= i < hi - lo => RecordAt(log, lo + i))
  }

  function PageEnd(log: seq<Entry>, after: nat, limit: int): nat {
    if after + Bounded(limit) < |log| then after + Bounded(limit) else |log|
  }

  function Page(log: seq<Entry>, after: nat, limit: int): seq<Record> {
    Records(log, after, PageEnd(log, after, limit))
  }

  function NextSequence(page: seq<Record>, after: nat): nat {
    if page == [] then after else page[|page| - 1].sequence
  }

  // ----- Harvests -----

  /** What a harvest sees of one attempt: its live stream and the snapshot saved with it. */
  datatype Source = Source(attemptId: string, observed: seq<string>, snapshot: seq<string>) {
    function Chosen(): seq<string> {
      if |snapshot| > |observed| then snapshot else observed
    }
  }

  function Fresh(chosen: seq<string>, persisted: nat): seq<string> {
    if persisted <= |chosen| then chosen[persisted..] else []
  }

  function Harvested(log: seq<Entry>, s: Source): seq<Entry> {
    log + Tagged(s.attemptId, Fresh(s.Chosen(), CountOf(log, s.attemptId)))
  }

  function HarvestedAll(log: seq<Entry>, sources: seq<Source>): seq<Entry> {
    if sources == [] then log
    else Harvested(HarvestedAll(log, sources[..|sources| - 1]), sources[|sources| - 1])
  }

  // ----- The store object -----

  function Tagged(attemptId: string, documents: seq<string>): seq<Entry> {
    seq(|documents|, i requires 0 <= i < |documents| => Entry(attemptId, documents[i]))
  }

  /** now is the log was with the first n documents appended, as the given records. */
  predicate Appended(was: seq<Entry>, now: seq<Entry>, attemptId: string, documents: seq<string>, n: nat, records: seq<Record>)
    requires n <= |documents|
  {
    && now == was + Tagged(attemptId, documents[..n])
    && records == Records(now, |was|, |now|)
  }

  /** One more entry is one more record at the end. */
  lemma AppendedOne(was: seq<Entry>, now: seq<Entry>, attemptId: string, documents: seq<string>, n: nat, records: seq<Record>)
    requires n < |documents| && Appended(was, now, attemptId, documents, n, records)
    ensures var e := Entry(attemptId, documents[n]);
            && CountOf(now + [e], attemptId) == CountOf(now, attemptId) + 1
            && Appended(was, now + [e], attemptId, documents, n + 1,
                        records + [Record(|now| + 1, attemptId, CountOf(now, attemptId), documents[n])])
  {
    var e := Entry(attemptId, documents[n]);
    CountSnoc(now, e, attemptId);
    assert now + [e] == was + Tagged(attemptId, documents[..n + 1]);
    RecordsAppend(now, [e], |was|, |now|);
    RecordAtEnd(now, e);
    assert Records(now + [e], |was|, |now| + 1) == Records(now + [e], |was|, |now|) + [RecordAt(now + [e], |now|)];
  }

  class EventStore {
    var rows: map<Key, Stored>
    ghost var logs: map<string, seq<Entry>>

    ghost function LogOf(runId: string): seq<Entry>
      reads this
    {
      if runId in logs then logs[runId] else []
    }

    ghost predicate Valid()
      reads this
    {
      forall runId {:trigger LogOf(runId)} :: Represents(rows, runId, LogOf(runId))
    }

    constructor ()
      ensures Valid() && forall runId :: LogOf(runId) == []
    {
      rows, logs := map[], map[];
    }

    method EventCount(runId: string, attemptId: string) returns (n: nat)
      requires Valid()
      ensures n == CountOf(LogOf(runId), attemptId)
    {
      n := |set k | k in rows && k.runId == runId && k.attemptId == attemptId|;
      CountQuery(rows, runId, attemptId, LogOf(runId));
    }

    /** The logs of the other runs. */
    ghost function Others(runId: string): map<string, seq<Entry>>
      reads this
    {
      logs - {runId}
    }

    /** Insert or replace one record. */
    method Insert(runId: string, record: Record)
      requires Valid()
      requires record.sequence == |LogOf(runId)| + 1 && record.eventIndex == CountOf(LogOf(runId), record.attemptId)
      modifies this
      ensures Valid()
      ensures LogOf(runId) == old(LogOf(runId)) + [Entry(record.attemptId, record.document)]
      ensures Others(runId) == old(Others(runId))
    {
      ghost var log := LogOf(runId);
      assert Represents(rows, runId, log);
      InsertRepresents(rows, runId, log, Entry(record.attemptId, record.document));
      ghost var rows' := rows[KeyOf(runId, record) := Stored(record.sequence, record.document)];
      ghost var log' := log + [Entry(record.attemptId, record.document)];
      assert Represents(rows', runId, log');
      forall other | other != runId ensures Represents(rows', other, LogOf(other)) {
        assert Represents(rows, other, LogOf(other));
        OtherRun(rows, KeyOf(runId, record), Stored(record.sequence, record.document), other, LogOf(other));
      }
      rows := rows[KeyOf(runId, record) := Stored(record.sequence, record.document)];
      logs := logs[runId := log'];
      forall other ensures Represents(rows, other, LogOf(other)) {
        if other != runId { assert LogOf(other) == old(LogOf(other)); }
      }
    }

    method LastSequence(runId: string) returns (n: nat)
      requires Valid()
      ensures n == |LogOf(runId)|
    {
      assert Represents(rows, runId, LogOf(runId));
      MaxQuery(rows, runId, LogOf(runId));
      var sequences := set k | k in rows && k.runId == runId :: rows[k].sequence;
      if sequences == {} {
        return 0;
      }
      n :| n in sequences && forall s | s in sequences :: s <= n;
    }

    /** One transaction: the run's log grows by the documents, numbered on from its end. */
    method AppendEvents(runId: string, attemptId: string, documents: seq<string>) returns (appended: seq<Record>)
      requires Valid()
      modifies this
      ensures Valid()
      ensures LogOf(runId) == old(LogOf(runId)) + Tagged(attemptId, documents)
      ensures Others(runId) == old(Others(runId))
      ensures appended == Records(LogOf(runId), |old(LogOf(runId))|, |LogOf(runId)|)
    {
      ghost var log := LogOf(runId);
      var sequence := LastSequence(runId);
      var eventIndex := EventCount(runId, attemptId);
      appended := [];
      for offset := 0 to |documents|
        invariant Valid()
        invariant Appended(log, LogOf(runId), attemptId, documents, offset, appended)
        invariant Others(runId) == old(Others(runId))
        invariant sequence == |LogOf(runId)|
        invariant CountOf(LogOf(runId), attemptId) == eventIndex + offset
      {
        AppendedOne(log, LogOf(runId), attemptId, documents, offset, appended);
        sequence := sequence + 1;
        var record := Record(sequence, attemptId, eventIndex + offset, documents[offset]);
        Insert(runId, record);
        appended := appended + [record];
      }
      assert documents[..|documents|] == documents;
    }

    /** Store what one attempt's longer source has beyond the stored count. */
    method HarvestAttempt(runId: string, source: Source)
      requires Valid()
      modifies this
      ensures Valid()
      ensures LogOf(runId) == Harvested(old(LogOf(runId)), source)
      ensures Others(runId) == old(Others(runId))
    {
      var observed := source.observed;
      if |source.snapshot| > |observed| {
        observed := source.snapshot;
      }
      var persisted := EventCount(runId, source.attemptId);
      var fresh' := if persisted <= |observed| then observed[persisted..] else [];
      assert fresh' == Fresh(source.Chosen(), CountOf(LogOf(runId), source.attemptId));
      if fresh' != [] {
        var _ := AppendEvents(runId, source.attemptId, fresh');
      } else {
        assert LogOf(runId) + Tagged(source.attemptId, fresh') == LogOf(runId);
      }
    }

    /** Store what each attempt's stream has beyond the stored count. */
    method HarvestEvents(runId: string, sources: seq<Source>)
      requires Valid()
      modifies this
      ensures Valid()
      ensures LogOf(runId) == HarvestedAll(old(LogOf(runId)), sources)
      ensures Others(runId) == old(Others(runId))
    {
      ghost var log := LogOf(runId);
      for i := 0 to |sources|
        invariant Valid()
        invariant LogOf(runId) == HarvestedAll(log, sources[..i])
        invariant Others(runId) == old(Others(runId))
      {
        HarvestAttempt(runId, sources[i]);
        assert sources[..i + 1][..i] == sources[..i];
      }
      assert sources[..|sources|] == sources;
    }

    method ListEvents(runId: string, after: nat, limit: int) returns (page: seq<Record>)
      requires Valid()
      ensures page == Page(LogOf(runId), after, limit)
    {
      ghost var log := LogOf(runId);
      var bounded := Bounded(limit);
      page := [];
      var last := after;
      while |page| < bounded && exists k | k in rows :: k.runId == runId && rows[k].sequence > last
        invariant |page| <= bounded
        invariant last == after + |page|
        invariant page != [] ==> last <= |log|
        invariant page == if last <= |log| then Records(log, after, last) else []
        decreases bounded - |page|
      {
        assert Represents(rows, runId, log);
        NextRow(rows, runId, log, last);
        var k :| k in rows && k.runId == runId && rows[k].sequence > last
                 && forall other | other in rows && other.runId == runId && rows[other].sequence > last ::
                      rows[k].sequence <= rows[other].sequence;
        NextRowIs(rows, runId, log, last, k);
        page := page + [Record(rows[k].sequence, k.attemptId, k.eventIndex, rows[k].document)];
        last := rows[k].sequence;
      }
      assert Represents(rows, runId, log);
      RowBeyond(rows, runId, log, last);
    }
  }

  lemma OtherRun(rows: map<Key, Stored>, k: Key, s: Stored, other: string, log: seq<Entry>)
    requires Represents(rows, other, log) && k.runId != other
    ensures Represents(rows[k := s], other, log)
  {
    var rows' := rows[k := s];
    forall x | x in rows' && x.runId == other ensures RowFits(rows', other, log, x) {
      assert RowFits(rows, other, log, x);
    }
    forall p: nat | p < |log| ensures EntryStored(rows', other, log, p) {
      assert EntryStored(rows, other, log, p);
    }
  }

  lemma RecordsAppend(log: seq<Entry>, more: seq<Entry>, lo: nat, hi: nat)
    requires hi <= |log|
    ensures Records(log + more, lo, hi) == Records(log, lo, hi)
  {
    forall i | 0 <= i < |Records(log, lo, hi)| ensures Records(log + more, lo, hi)[i] == Records(log, lo, hi)[i] {
      RecordAtAppend(log, more, lo + i);
    }
  }

  /** If any row lies beyond the cursor, the row right behind it exists. */
  lemma NextRow(rows: map<Key, Stored>, runId: string, log: seq<Entry>, last: nat)
    requires Represents(rows, runId, log)
    requires exists k | k in rows :: k.runId == runId && rows[k].sequence > last
    ensures last < |log|
    ensures var k := KeyOf(runId, RecordAt(log, last));
            && k in rows && k.runId == runId && rows[k].sequence == last + 1
  {
    var k :| k in rows && k.runId == runId && rows[k].sequence > last;
    assert RowFits(rows, runId, log, k);
    assert EntryStored(rows, runId, log, last);
  }

  lemma RowBeyond(rows: map<Key, Stored>, runId: string, log: seq<Entry>, last: nat)
    requires Represents(rows, runId, log)
    ensures last < |log| ==> exists k | k in rows :: k.runId == runId && rows[k].sequence > last
  {
    if last < |log| {
      assert EntryStored(rows, runId, log, last);
      assert KeyOf(runId, RecordAt(log, last)) in rows;
    }
  }

  lemma NextRowIs(rows: map<Key, Stored>, runId: string, log: seq<Entry>, last: nat, k: Key)
    requires Represents(rows, runId, log) && last < |log|
    requires k in rows && k.runId == runId && rows[k].sequence > last
    requires forall other | other in rows && other.runId == runId && rows[other].sequence > last ::
               rows[k].sequence <= rows[other].sequence
    ensures rows[k].sequence == last + 1
    ensures Record(rows[k].sequence, k.attemptId, k.eventIndex, rows[k].document) == RecordAt(log, last)
  {
    assert EntryStored(rows, runId, log, last);
    assert RowFits(rows, runId, log, k);
  }

  // ----- Each attempt's stream is stored once -----

  /** The documents of one attempt, in the order they were stored. */
  function DocumentsOf(log: seq<Entry>, attemptId: string): seq<string> {
    if log == [] then []
    else
      var last := log[|log| - 1];
      DocumentsOf(log[..|log| - 1], attemptId) + if last.attemptId == attemptId then [last.document] else []
  }

  lemma {:induction false} DocumentsCount(log: seq<Entry>, attemptId: string)
    ensures |DocumentsOf(log, attemptId)| == CountOf(log, attemptId)
  {
    if log == [] {
      assert Positions(log, attemptId) == {};
    } else {
      DocumentsCount(log[..|log| - 1], attemptId);
      CountSnoc(log[..|log| - 1], log[|log| - 1], attemptId);
      assert log == log[..|log| - 1] + [log[|log| - 1]];
    }
  }

  lemma {:induction false} DocumentsAppend(log: seq<Entry>, attemptId: string, documents: seq<string>, other: string)
    ensures DocumentsOf(log + Tagged(attemptId, documents), other) ==
            DocumentsOf(log, other) + if other == attemptId then documents else []
  {
    if documents == [] {
      assert log + Tagged(attemptId, documents) == log;
    } else {
      var n := |documents| - 1;
      DocumentsAppend(log, attemptId, documents[..n], other);
      TaggedSnoc(log, attemptId, documents);
      hide Tagged, DocumentsOf;
      DocumentsSnoc(log + Tagged(attemptId, documents[..n]), Entry(attemptId, documents[n]), other);
      assert documents == documents[..n] + [documents[n]];
    }
  }

  lemma TaggedSnoc(log: seq<Entry>, attemptId: string, documents: seq<string>)
    requires documents != []
    ensures var n := |documents| - 1;
            log + Tagged(attemptId, documents) == log + Tagged(attemptId, documents[..n]) + [Entry(attemptId, documents[n])]
  {
  }

  lemma DocumentsSnoc(log: seq<Entry>, e: Entry, other: string)
    ensures DocumentsOf(log + [e], other) == DocumentsOf(log, other) + if e.attemptId == other then [e.document] else []
  {
    assert (log + [e])[..|log|] == log;
  }

  /**
   * The records of an append: the documents in their order, numbered on from the end of the
   * run's log, and from the number of documents the attempt had.
   */
  lemma {:induction false} AppendedRecords(log: seq<Entry>, attemptId: string, documents: seq<string>, i: nat)
    requires i < |documents|
    ensures var records := Records(log + Tagged(attemptId, documents), |log|, |log| + |documents|);
            && |records| == |documents|
            && records[i] == Record(|log| + i + 1, attemptId, |DocumentsOf(log, attemptId)| + i, documents[i])
  {
    var now := log + Tagged(attemptId, documents);
    assert Records(now, |log|, |log| + |documents|)[i] == RecordAt(now, |log| + i);
    assert now[..|log| + i] == log + Tagged(attemptId, documents[..i]);
    DocumentsAppend(log, attemptId, documents[..i], attemptId);
    hide DocumentsOf;
    DocumentsCount(log + Tagged(attemptId, documents[..i]), attemptId);
  }

  /** Every attempt's stored documents are the beginning of its true stream. */
  ghost predicate Faithful(log: seq<Entry>, streams: map<string, seq<string>>) {
    forall a | a in streams :: DocumentsOf(log, a) <= streams[a]
  }

  /** Live streams and snapshots regrow from the same log after a restart. */
  predicate Regrows(s: Source, streams: map<string, seq<string>>) {
    s.attemptId in streams && s.observed <= streams[s.attemptId] && s.snapshot <= streams[s.attemptId]
  }

  lemma HarvestKeepsFaithful(log: seq<Entry>, s: Source, streams: map<string, seq<string>>)
    requires Faithful(log, streams) && Regrows(s, streams)
    ensures Faithful(Harvested(log, s), streams)
    ensures forall a | a in streams && a != s.attemptId :: DocumentsOf(Harvested(log, s), a) == DocumentsOf(log, a)
  {
    DocumentsCount(log, s.attemptId);
    var fresh' := Fresh(s.Chosen(), CountOf(log, s.attemptId));
    forall a | a in streams
      ensures DocumentsOf(Harvested(log, s), a) == DocumentsOf(log, a) + if a == s.attemptId then fresh' else []
      ensures DocumentsOf(Harvested(log, s), a) <= streams[a]
    {
      DocumentsAppend(log, s.attemptId, fresh', a);
    }
  }

  function Larger(a: nat, b: nat): nat {
    if a < b then b else a
  }

  /** The longest stretch of an attempt's stream that any harvest has seen, live or saved. */
  function Longest(sources: seq<Source>, attemptId: string): nat {
    if sources == [] then 0
    else
      var before, s := Longest(sources[..|sources| - 1], attemptId), sources[|sources| - 1];
      if s.attemptId == attemptId then Larger(before, Larger(|s.observed|, |s.snapshot|)) else before
  }

  /**
   * A harvest leaves its attempt with as many documents as the longest of what was stored,
   * the live stream and the snapshot: the stored ones, and behind them what a source of that
   * length has beyond their number.
   */
  lemma {:induction false} HarvestReaches(log: seq<Entry>, s: Source)
    ensures var was, now := DocumentsOf(log, s.attemptId), DocumentsOf(Harvested(log, s), s.attemptId);
            && |now| == Larger(|was|, Larger(|s.observed|, |s.snapshot|))
            && was <= now
            && (|now| > |was| ==> exists seen | seen in {s.observed, s.snapshot} :: |seen| == |now| && now == was + seen[|was|..])
  {
    DocumentsCount(log, s.attemptId);
    DocumentsAppend(log, s.attemptId, Fresh(s.Chosen(), CountOf(log, s.attemptId)), s.attemptId);
    assert s.Chosen() in {s.observed, s.snapshot};
  }

  /**
   * With harvests one after the other, whatever restarts shortened the live streams in
   * between, each attempt's stream is stored exactly once: its documents are the
   * beginning of the stream, as long as the longest stretch seen.
   */
  lemma {:induction false} HarvestsStoreOnce(sources: seq<Source>, streams: map<string, seq<string>>)
    requires forall i | 0 <= i < |sources| :: Regrows(sources[i], streams)
    ensures var log := HarvestedAll([], sources);
            && Faithful(log, streams)
            && forall a | a in streams :: DocumentsOf(log, a) == streams[a][..|DocumentsOf(log, a)|]
                                          && |DocumentsOf(log, a)| == Longest(sources, a)
  {
    if sources != [] {
      HarvestsStoreOnce(sources[..|sources| - 1], streams);
      HarvestKeepsFaithful(HarvestedAll([], sources[..|sources| - 1]), sources[|sources| - 1], streams);
      HarvestReaches(HarvestedAll([], sources[..|sources| - 1]), sources[|sources| - 1]);
    }
  }

  // ----- Harvests that overlap -----

  /** One harvest of an attempt reads the count; later it stores what its stream has beyond it. */
  datatype HarvestStep = ReadCount(t: nat) | StoreFresh(t: nat, chosen: seq<string>)

  /** positions holds, for each stored document of the attempt, its place in the stream it came from. */
  datatype Harvesters = Harvesters(log: seq<Entry>, counts: map<nat, nat>, positions: seq<nat>)

  const NoHarvest := Harvesters([], map[], [])

  /** The places from one up to another. */
  function Span(lo: nat, n: nat): seq<nat> {
    seq(n, i => lo + i)
  }

  function Stepped(h: Harvesters, attemptId: string, step: HarvestStep): Harvesters {
    match step
    case ReadCount(t) => h.(counts := h.counts[t := CountOf(h.log, attemptId)])
    case StoreFresh(t, chosen) =>
      if t !in h.counts then h
      else
        var fresh' := Fresh(chosen, h.counts[t]);
        Harvesters(h.log + Tagged(attemptId, fresh'), h.counts - {t}, h.positions + Span(h.counts[t], |fresh'|))
  }

  function SteppedAll(attemptId: string, steps: seq<HarvestStep>): Harvesters {
    if steps == [] then NoHarvest
    else Stepped(SteppedAll(attemptId, steps[..|steps| - 1]), attemptId, steps[|steps| - 1])
  }

  /** The count a harvest stores by still stands, or it has nothing to store. */
  predicate StandsAt(h: Harvesters, attemptId: string, step: HarvestStep) {
    step.StoreFresh? && step.t in h.counts ==>
      CountOf(h.log, attemptId) == h.counts[step.t] || Fresh(step.chosen, h.counts[step.t]) == []
  }

  predicate AllStand(attemptId: string, steps: seq<HarvestStep>) {
    steps == [] ||
    (AllStand(attemptId, steps[..|steps| - 1])
     && StandsAt(SteppedAll(attemptId, steps[..|steps| - 1]), attemptId, steps[|steps| - 1]))
  }

  /** Each harvest sees a beginning of the attempt's stream. */
  predicate SeesStream(stream: seq<string>, steps: seq<HarvestStep>) {
    forall i | 0 <= i < |steps| && steps[i].StoreFresh? :: steps[i].chosen <= stream
  }

  /** The stored documents are the stream's documents at these places. */
  predicate Placed(documents: seq<string>, positions: seq<nat>, stream: seq<string>) {
    && |documents| == |positions|
    && forall i | 0 <= i < |positions| :: positions[i] < |stream| && documents[i] == stream[positions[i]]
  }

  /** Every place of the stream stored so far is stored once, in order and without gaps. */
  predicate OnceInOrder(positions: seq<nat>) {
    forall i | 0 <= i < |positions| :: positions[i] == i
  }

  lemma StoreKeepsPlaced(h: Harvesters, attemptId: string, stream: seq<string>, step: HarvestStep)
    requires Placed(DocumentsOf(h.log, attemptId), h.positions, stream)
    requires step.StoreFresh? ==> step.chosen <= stream
    ensures var v := Stepped(h, attemptId, step);
            && Placed(DocumentsOf(v.log, attemptId), v.positions, stream)
            && (OnceInOrder(v.positions) <==> OnceInOrder(h.positions) && StandsAt(h, attemptId, step))
  {
    if step.StoreFresh? && step.t in h.counts {
      var read, fresh' := h.counts[step.t], Fresh(step.chosen, h.counts[step.t]);
      DocumentsAppend(h.log, attemptId, fresh', attemptId);
      DocumentsCount(h.log, attemptId);
      var v := Stepped(h, attemptId, step);
      assert forall i | 0 <= i < |h.positions| :: v.positions[i] == h.positions[i];
      if fresh' != [] { assert v.positions[|h.positions|] == read; }
    }
  }

  lemma PlacedInOrder(documents: seq<string>, positions: seq<nat>, stream: seq<string>)
    requires Placed(documents, positions, stream) && OnceInOrder(positions)
    ensures documents <= stream
  {
    var n := |positions|;
    if n > 0 { assert positions[n - 1] < |stream|; }
    assert documents == stream[..n];
  }

  /**
   * However the harvests of an attempt overlap, whatever its documents are: the log holds
   * the stream's documents at the recorded places, and it holds each place once, in order
   * and without gaps, if and only if every append went by a count that still stood or had
   * nothing fresh.
   */
  lemma {:induction false} OverlapIsFaithfulIff(attemptId: string, stream: seq<string>, steps: seq<HarvestStep>)
    requires SeesStream(stream, steps)
    ensures var h := SteppedAll(attemptId, steps);
            && Placed(DocumentsOf(h.log, attemptId), h.positions, stream)
            && (OnceInOrder(h.positions) <==> AllStand(attemptId, steps))
            && (AllStand(attemptId, steps) ==> DocumentsOf(h.log, attemptId) <= stream)
  {
    if steps != [] {
      var before, last := steps[..|steps| - 1], steps[|steps| - 1];
      OverlapIsFaithfulIff(attemptId, stream, before);
      StoreKeepsPlaced(SteppedAll(attemptId, before), attemptId, stream, last);
    }
    var h := SteppedAll(attemptId, steps);
    if OnceInOrder(h.positions) { PlacedInOrder(DocumentsOf(h.log, attemptId), h.positions, stream); }
  }

  /** Two harvests that both read the count before either stores. */
  function BothThenStore(chosen: seq<string>): seq<HarvestStep> {
    [ReadCount(0)] + [ReadCount(1)] + [StoreFresh(0, chosen)] + [StoreFresh(1, chosen)]
  }

  lemma {:induction false} StepsSnoc(attemptId: string, steps: seq<HarvestStep>, step: HarvestStep)
    ensures SteppedAll(attemptId, steps + [step]) == Stepped(SteppedAll(attemptId, steps), attemptId, step)
  {
    assert (steps + [step])[..|steps|] == steps;
  }

  lemma {:induction false} BothRead(attemptId: string)
    ensures SteppedAll(attemptId, [ReadCount(0)] + [ReadCount(1)]) == Harvesters([], map[0 := 0, 1 := 0], [])
  {
    assert Positions([], attemptId) == {};
    StepsSnoc(attemptId, [], ReadCount(0));
    assert [] + [ReadCount(0)] == [ReadCount(0)];
    StepsSnoc(attemptId, [ReadCount(0)], ReadCount(1));
  }

  lemma StoreOne(h: Harvesters, attemptId: string, t: nat, document: string)
    requires t in h.counts && h.counts[t] == 0
    ensures var v := Stepped(h, attemptId, StoreFresh(t, [document]));
            v.positions == h.positions + [0] && v.counts == h.counts - {t}
  {
    assert Fresh([document], 0) == [document];
  }

  /** Two readers that both found nothing stored: the first event is stored twice. */
  lemma {:induction false} OverlapDuplicates(attemptId: string, document: string)
    ensures var h := SteppedAll(attemptId, BothThenStore([document]));
            && SeesStream([document], BothThenStore([document])) && !AllStand(attemptId, BothThenStore([document]))
            && h.positions == [0, 0] && DocumentsOf(h.log, attemptId) == [document, document]
  {
    var asked := [ReadCount(0)] + [ReadCount(1)];
    BothRead(attemptId);
    StepsSnoc(attemptId, asked, StoreFresh(0, [document]));
    StepsSnoc(attemptId, asked + [StoreFresh(0, [document])], StoreFresh(1, [document]));
    StoreOne(SteppedAll(attemptId, asked), attemptId, 0, document);
    StoreOne(SteppedAll(attemptId, asked + [StoreFresh(0, [document])]), attemptId, 1, document);
    OverlapIsFaithfulIff(attemptId, [document], BothThenStore([document]));
    assert SteppedAll(attemptId, BothThenStore([document])).positions[1] == 0;
  }

  // ----- Following next_sequence -----

  /** A reader that follows next_sequence while the log grows between its pages. */
  datatype Reader = Reader(log: seq<Entry>, cursor: nat, seen: seq<Record>)

  datatype Visit = Grow(more: seq<Entry>) | ReadPage(limit: int)

  function Visited(r: Reader, v: Visit): Reader {
    match v
    case Grow(more) => r.(log := r.log + more)
    case ReadPage(limit) =>
      var page := Page(r.log, r.cursor, limit);
      r.(cursor := NextSequence(page, r.cursor), seen := r.seen + page)
  }

  function Followed(r: Reader, visits: seq<Visit>): Reader {
    if visits == [] then r else Visited(Followed(r, visits[..|visits| - 1]), visits[|visits| - 1])
  }

  predicate ReaderOk(r: Reader, start: nat) {
    && start <= r.cursor
    && (r.cursor == start ==> r.seen == [])
    && (r.cursor > start ==> r.cursor <= |r.log| && r.seen == Records(r.log, start, r.cursor))
  }

  /** A page ends at its last sequence, is empty only at the end, and is as long as asked. */
  lemma PageAdvances(log: seq<Entry>, after: nat, limit: int)
    ensures var page := Page(log, after, limit);
            && (page == [] <==> |log| <= after)
            && (page != [] ==> NextSequence(page, after) == PageEnd(log, after, limit) == after + |page|)
            && |page| <= Bounded(limit)
            && (|page| < Bounded(limit) && after <= |log| ==> NextSequence(page, after) == |log|)
    ensures var size := if limit < 1 then 1 else if limit > 20000 then 20000 else limit;
            |Page(log, after, limit)| == if |log| <= after then 0 else if |log| - after < size then |log| - after else size
    ensures forall i | 0 <= i < |Page(log, after, limit)| ::
              && Page(log, after, limit)[i].sequence == after + i + 1
              && Page(log, after, limit)[i].attemptId == log[after + i].attemptId
              && Page(log, after, limit)[i].document == log[after + i].document
  {
    if after < |log| {
      var page, end := Page(log, after, limit), PageEnd(log, after, limit);
      assert page[|page| - 1] == RecordAt(log, end - 1);
      assert |page| == end - after && forall i | 0 <= i < |page| :: page[i] == RecordAt(log, after + i);
    }
  }

  lemma RecordsJoin(log: seq<Entry>, lo: nat, mid: nat, hi: nat)
    requires lo <= mid <= hi <= |log|
    ensures Records(log, lo, mid) + Records(log, mid, hi) == Records(log, lo, hi)
  {
  }

  lemma VisitKeeps(r: Reader, v: Visit, start: nat)
    requires ReaderOk(r, start)
    ensures ReaderOk(Visited(r, v), start)
  {
    match v {
      case Grow(more) => if r.cursor > start { RecordsAppend(r.log, more, start, r.cursor); }
      case ReadPage(limit) =>
        PageAdvances(r.log, r.cursor, limit);
        if r.cursor < |r.log| { RecordsJoin(r.log, start, r.cursor, PageEnd(r.log, r.cursor, limit)); }
    }
  }

  /**
   * Following next_sequence from any cursor, with any limits and appends in between,
   * yields every record after the cursor once and in order; an empty page means there
   * is nothing left.
   */
  lemma {:induction false} PagingYieldsAllOnce(log: seq<Entry>, start: nat, visits: seq<Visit>, limit: int)
    ensures var r := Followed(Reader(log, start, []), visits);
            && start <= r.cursor && (r.cursor == start ==> r.seen == [])
            && (r.cursor > start ==> r.cursor <= |r.log| && r.seen == Records(r.log, start, r.cursor))
            && (Page(r.log, r.cursor, limit) == [] ==>
                  r.seen == if |r.log| > start then Records(r.log, start, |r.log|) else [])
  {
    FollowedOk(log, start, visits);
    var r := Followed(Reader(log, start, []), visits);
    PageAdvances(r.log, r.cursor, limit);
  }

  lemma {:induction false} FollowedOk(log: seq<Entry>, start: nat, visits: seq<Visit>)
    ensures ReaderOk(Followed(Reader(log, start, []), visits), start)
  {
    if visits != [] {
      FollowedOk(log, start, visits[..|visits| - 1]);
      VisitKeeps(Followed(Reader(log, start, []), visits[..|visits| - 1]), visits[|visits| - 1], start);
    }
  }
}
