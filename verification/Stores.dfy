/** The store's rows for one run: its events keyed by sequence number, its inbox, its record. */
module Stores {
  import opened Wrappers
  import opened Events
  import opened Engine

  /** The rows an event log occupies. */
  ghost function Rows(log: Log): map<nat, Event> {
    map i: nat | 0 <= i < |log| :: log[i]
  }

  class RunStore {
    var rows: map<nat, Event>
    var inbox: seq<Signal>
    var record: Record
    var successor: Option<Json>
    var tags: map<string, string>
    /** What the rows spell, in order. */
    ghost var log: Log

    ghost predicate Valid()
      reads this`rows, this`log
    {
      rows == Rows(log)
    }

    constructor (runTags: map<string, string>)
      ensures Valid() && log == [] && inbox == [] && record == Running && successor == None && tags == runTags
    {
      rows, inbox, record, successor, tags := map[], [], Running, None, runTags;
      log := [];
    }

    /** Inserts one event; the primary key refuses a sequence number that is taken. */
    method AppendEvent(e: Event) returns (ok: bool)
      requires Valid() && e.seqNo <= |log|
      modifies this`rows, this`log
      ensures Valid() && ok == (e.seqNo == |old(log)|)
      ensures log == if ok then old(log) + [e] else old(log)
    {
      ok := e.seqNo !in rows;
      if ok {
        rows := rows[e.seqNo := e];
        log := log + [e];
      }
    }

    /** The events in order of their sequence numbers. */
    method LoadEvents() returns (events: Log)
      requires Valid()
      ensures events == log
    {
      events := [];
      while |events| in rows
        invariant |events| <= |log| && events == log[..|events|]
        decreases |log| - |events|
      {
        events := events + [rows[|events|]];
      }
    }

    /** Puts another history in the place of the stored one. */
    method ReplaceEvents(events: Log)
      modifies this`rows, this`log
      ensures Valid() && log == events
    {
      rows := map i: nat | 0 <= i < |events| :: events[i];
      log := events;
    }

    method AppendSignal(name: string, payload: Json) returns (seqNo: nat)
      modifies this`inbox
      ensures seqNo == |old(inbox)| && inbox == old(inbox) + [Signal(name, payload, false)]
    {
      seqNo := |inbox|;
      inbox := inbox + [Signal(name, payload, false)];
    }

    /** A signal nobody has is left alone. */
    method MarkSignal(seqNo: nat, consumed: bool)
      modifies this`inbox
      ensures |inbox| == |old(inbox)|
      ensures forall i :: 0 <= i < |inbox| ==>
                inbox[i] == if i == seqNo then old(inbox)[i].(consumed := consumed) else old(inbox)[i]
    {
      if seqNo < |inbox| {
        inbox := inbox[seqNo := inbox[seqNo].(consumed := consumed)];
      }
    }

    /** The first signal of that name nobody has consumed, skipping the excluded ones. */
    method NextUnconsumedSignal(name: string, exclude: set<nat>) returns (r: Option<nat>)
      ensures r == NextUnconsumed(inbox, name, exclude, 0)
    {
      var i := 0;
      while i < |inbox|
        invariant 0 <= i <= |inbox|
        invariant NextUnconsumed(inbox, name, exclude, 0) == NextUnconsumed(inbox, name, exclude, i)
      {
        if inbox[i].name == name && !inbox[i].consumed && i !in exclude {
          return Some(i);
        }
        i := i + 1;
      }
      r := None;
    }

    method UpdateTags(update: map<string, Option<string>>)
      modifies this`tags
      ensures tags == MergeTags(old(tags), update)
    {
      tags := Merged(tags, update);
    }
  }

  /** Applies a tag update key by key: set the given pairs, drop the keys whose value is None. */
  method Merged(current: map<string, string>, update: map<string, Option<string>>) returns (merged: map<string, string>)
    ensures merged == MergeTags(current, update)
  {
    merged := current;
    var keys := update.Keys;
    while keys != {}
      invariant keys <= update.Keys
      invariant merged == MergeTags(current, map k | k in update.Keys - keys :: update[k])
      decreases keys
    {
      var key :| key in keys;
      merged := if update[key].None? then merged - {key} else merged[key := update[key].value];
      keys := keys - {key};
    }
    assert (map k | k in update.Keys - {} :: update[k]) == update;
  }

  /** Applying an update again changes nothing, so a crash between the two writes is harmless. */
  lemma {:induction false} MergeTwice(current: map<string, string>, update: map<string, Option<string>>)
    ensures MergeTags(MergeTags(current, update), update) == MergeTags(current, update)
    ensures forall key :: key in update ==> (key in MergeTags(current, update) <==> update[key].Some?)
    ensures forall key :: key !in update ==> (key in MergeTags(current, update) <==> key in current)
  {
  }

  /** A tag that an update sets has the new value, one that it drops is gone, and any other is as it was. */
  lemma {:induction false} MergeSets(current: map<string, string>, update: map<string, Option<string>>, key: string)
    ensures var merged := MergeTags(current, update);
            && (key in update && update[key].Some? ==> key in merged && merged[key] == update[key].value)
            && (key in update && update[key].None? ==> key !in merged)
            && (key !in update && key in current ==> key in merged && merged[key] == current[key])
            && (key !in update && key !in current ==> key !in merged)
  {
  }
}

/** The in-memory journal of a driver: the event log with its indexes, kept up to date by each append. */
module Journals {
  import opened Wrappers
  import opened Events
  import opened Stores

  function Get<K, V>(m: map<K, V>, key: K): Option<V> {
    if key in m then Some(m[key]) else None
  }

  // ---- what each index means, and how it is kept ----

  ghost predicate FirstIndex(m: map<(Kind, int), Event>, log: Log) {
    forall kind, opId :: Get(m, (kind, opId)) == Events.Find(log, kind, opId)
  }

  ghost predicate LastIndex(m: map<(Kind, int), Event>, log: Log) {
    forall kind, opId :: Get(m, (kind, opId)) == Events.Last(log, kind, opId)
  }

  ghost predicate CountIndex(m: map<(Kind, int), nat>, log: Log) {
    forall kind, opId :: (if (kind, opId) in m then m[(kind, opId)] else 0) == Events.Count(log, kind, opId)
  }

  ghost predicate DefiningIndex(m: map<int, Event>, log: Log) {
    forall opId :: Get(m, opId) == Events.Defining(log, opId)
  }

  lemma {:induction false} FirstIndexKept(m: map<(Kind, int), Event>, log: Log, e: Event)
    requires FirstIndex(m, log)
    ensures var key := (e.fact.Kind(), e.opId); FirstIndex(if key in m then m else m[key := e], log + [e])
  {
    hide Events.Find, Fact.Kind;
    forall kind, opId
      ensures Events.Find(log + [e], kind, opId) ==
              if Events.Find(log, kind, opId).Some? then Events.Find(log, kind, opId)
              else if Hits(e, kind, opId) then Some(e) else None
    {
      FindAppend(log, e, kind, opId);
    }
  }

  lemma {:induction false} LastIndexKept(m: map<(Kind, int), Event>, log: Log, e: Event)
    requires LastIndex(m, log)
    ensures LastIndex(m[(e.fact.Kind(), e.opId) := e], log + [e])
  {
    hide Events.Last, Fact.Kind;
    forall kind, opId
      ensures Events.Last(log + [e], kind, opId) == if Hits(e, kind, opId) then Some(e) else Events.Last(log, kind, opId)
    {
      LastAppend(log, e, kind, opId);
    }
  }

  lemma {:induction false} CountIndexKept(m: map<(Kind, int), nat>, log: Log, e: Event)
    requires CountIndex(m, log)
    ensures var key := (e.fact.Kind(), e.opId); CountIndex(m[key := (if key in m then m[key] else 0) + 1], log + [e])
  {
    hide Events.Count, Fact.Kind;
    forall kind, opId
      ensures Events.Count(log + [e], kind, opId) == Events.Count(log, kind, opId) + if Hits(e, kind, opId) then 1 else 0
    {
      CountAppend(log, e, kind, opId);
    }
  }

  lemma {:induction false} DefiningIndexKept(m: map<int, Event>, log: Log, e: Event)
    requires DefiningIndex(m, log)
    ensures DefiningIndex(if e.fact.Kind() in DEFINING_KINDS && e.opId !in m then m[e.opId := e] else m, log + [e])
  {
    hide Events.Defining, Fact.Kind;
    forall opId
      ensures Events.Defining(log + [e], opId) ==
              if Events.Defining(log, opId).Some? then Events.Defining(log, opId)
              else if e.fact.Kind() in DEFINING_KINDS && e.opId == opId then Some(e) else None
    {
      DefiningAppend(log, e, opId);
    }
  }

  class Journal {
    const store: RunStore
    var log: Log
    var first: map<(Kind, int), Event>
    var latest: map<(Kind, int), Event>
    var counts: map<(Kind, int), nat>
    var definitions: map<int, Event>
    var consumedSignalSeqs: set<nat>
    var maxOpId: int

    /** The indexes answer every question as a scan of `prefix` would. */
    ghost predicate Indexed(prefix: Log)
      reads this
    {
      && FirstIndex(first, prefix) && LastIndex(latest, prefix) && CountIndex(counts, prefix) && DefiningIndex(definitions, prefix)
      && maxOpId == MaxOpId(prefix)
      && consumedSignalSeqs == ConsumedSeqs(prefix)
    }

    ghost predicate Valid()
      reads this
    {
      Indexed(log)
    }

    /** Rebuilds the indexes from a stored log. */
    constructor (runStore: RunStore, events: Log)
      ensures Valid() && store == runStore && log == events
    {
      store, log := runStore, events;
      first, latest, counts, definitions, consumedSignalSeqs, maxOpId := map[], map[], map[], map[], {}, -1;
      new;
      var i := 0;
      while i < |events|
        invariant 0 <= i <= |events| && log == events && store == runStore
        invariant Indexed(events[..i])
      {
        Absorb(events[..i], events[i]);
        assert events[..i] + [events[i]] == events[..i + 1];
        i := i + 1;
      }
      assert events[..i] == events;
    }

    method Absorb(ghost prefix: Log, e: Event)
      requires Indexed(prefix)
      modifies this`first, this`latest, this`counts, this`definitions, this`consumedSignalSeqs, this`maxOpId
      ensures Indexed(prefix + [e])
    {
      hide FirstIndex, LastIndex, CountIndex, DefiningIndex, MaxOpId, ConsumedSeqs, Fact.Kind;
      FirstIndexKept(first, prefix, e);
      LastIndexKept(latest, prefix, e);
      CountIndexKept(counts, prefix, e);
      DefiningIndexKept(definitions, prefix, e);
      var key := (e.fact.Kind(), e.opId);
      if key !in first { first := first[key := e]; }
      latest := latest[key := e];
      counts := counts[key := (if key in counts then counts[key] else 0) + 1];
      if e.fact.Kind() in DEFINING_KINDS && e.opId !in definitions {
        definitions := definitions[e.opId := e];
      }
      if e.opId > maxOpId { maxOpId := e.opId; }
      if e.fact.EventConsumed? { consumedSignalSeqs := consumedSignalSeqs + {e.fact.signalSeq}; }
      MaxOpIdAppend(prefix, e);
      ConsumedSeqsAppend(prefix, e);
    }

    method Find(kind: Kind, opId: int) returns (r: Option<Event>)
      requires Valid()
      ensures r == Events.Find(log, kind, opId)
    {
      r := Get(first, (kind, opId));
    }

    method Last(kind: Kind, opId: int) returns (r: Option<Event>)
      requires Valid()
      ensures r == Events.Last(log, kind, opId)
    {
      r := Get(latest, (kind, opId));
    }

    method Count(kind: Kind, opId: int) returns (r: nat)
      requires Valid()
      ensures r == Events.Count(log, kind, opId)
    {
      r := if (kind, opId) in counts then counts[(kind, opId)] else 0;
      assert Events.Count(log, kind, opId) == r;
    }

    method Defining(opId: int) returns (r: Option<Event>)
      requires Valid()
      ensures r == Events.Defining(log, opId)
    {
      r := Get(definitions, opId);
    }

    /** Writes the store first and the memory second: an event the primary key refuses changes neither. */
    method Append(opId: int, fact: Fact, ts: Time) returns (ok: bool)
      requires Valid() && store.Valid() && log <= store.log
      modifies this, store`rows, store`log
      ensures Valid() && store.Valid()
      ensures ok == (old(log) == old(store.log))
      ensures log == if ok then old(log) + [Event(|old(log)|, opId, fact, ts)] else old(log)
      ensures store.log == if ok then log else old(store.log)
    {
      var e := Event(|log|, opId, fact, ts);
      ok := store.AppendEvent(e);
      if ok {
        Absorb(log, e);
        log := log + [e];
      }
    }

    /** Appends unless an event of that kind is already there. */
    method AppendOnce(opId: int, fact: Fact, ts: Time) returns (ok: bool)
      requires Valid() && store.Valid() && log <= store.log
      modifies this, store`rows, store`log
      ensures Valid() && store.Valid()
      ensures Events.Find(old(log), fact.Kind(), opId).Some? ==> ok && log == old(log) && store.log == old(store.log)
      ensures Events.Find(old(log), fact.Kind(), opId).None? ==>
                && ok == (old(log) == old(store.log))
                && log == (if ok then old(log) + [Event(|old(log)|, opId, fact, ts)] else old(log))
                && store.log == (if ok then log else old(store.log))
    {
      var existing := Find(fact.Kind(), opId);
      if existing.Some? {
        ok := true;
      } else {
        ok := Append(opId, fact, ts);
      }
    }
  }
}
