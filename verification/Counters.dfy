/** Two views of the same events: rows per Recipient, grouped by the hour when asked,
    and counters bumped as each event passes. */
module Counters {
  import opened Prelude
  import opened DomainNames
  import Engagement
  import Tracking

  datatype Type = Accepted | Bounced | Clicked | Delivered | Errored | Failed | Opened | Rejected | Unknown {
    /** The place of the type's name in alphabetical order. */
    function Place(): nat {
      match this
      case Accepted => 0
      case Bounced => 1
      case Clicked => 2
      case Delivered => 3
      case Errored => 4
      case Failed => 5
      case Opened => 6
      case Rejected => 7
      case Unknown => 8
    }
  }

  /** The type as the stats write it. */
  function Text(typ: Type): string {
    match typ
    case Accepted => "accepted"
    case Bounced => "bounced"
    case Clicked => "clicked"
    case Delivered => "delivered"
    case Errored => "error"
    case Failed => "failed"
    case Opened => "opened"
    case Rejected => "rejected"
    case Unknown => "unknown"
  }

  /** The texts sort as their first letters do, no two of which are the same. */
  lemma PlacesAreAlphabetical(typ: Type, other: Type)
    ensures typ.Place() < other.Place() <==> Text(typ)[0] < Text(other)[0]
    ensures typ != other ==> Text(typ)[0] != Text(other)[0]
  {
  }

  /** An hour in nanoseconds, the unit of every time here. */
  const HOUR: int := 3600 * 1_000_000_000

  /** Rounded down to the hour, before the epoch too. */
  function Truncated(t: int): int {
    t - t % HOUR
  }

  /** The columns of the unique index; the payload is not one of them. */
  datatype Identity = Identity(email: string, messageID: string, domain: string, typ: Type, timestamp: int)

  datatype Stat = Stat(id: nat, event: Identity, payload: string)

  /** From start up to, and not including, stop. */
  datatype TimeRange = TimeRange(start: int, stop: int) {
    predicate Has(t: int) {
      start <= t < stop
    }
  }

  datatype Bucket = Bucket(typ: Type, hour: int) {
    /** The order of a timeline: by hour, then by type. */
    predicate Precedes(b: Bucket) {
      hour < b.hour || (hour == b.hour && typ.Place() < b.typ.Place())
    }
  }

  datatype AggregatedStat = AggregatedStat(bucket: Bucket, count: nat)

  function BucketOf(e: Identity): Bucket {
    Bucket(e.typ, Truncated(e.timestamp))
  }

  // ---- Rows ----

  predicate Holds(rows: seq<Stat>, e: Identity) {
    exists i :: 0 <= i < |rows| && rows[i].event == e
  }

  predicate AreDistinct(rows: seq<Stat>) {
    forall i, j :: 0 <= i < j < |rows| ==> rows[i].event != rows[j].event
  }

  predicate Selects(domain: string, range: TimeRange, s: Stat) {
    s.event.domain == domain && range.Has(s.event.timestamp)
  }

  function Filter(rows: seq<Stat>, domain: string, range: TimeRange): seq<Stat> {
    if |rows| == 0 then []
    else Filter(rows[..|rows| - 1], domain, range) + if Selects(domain, range, rows[|rows| - 1]) then [rows[|rows| - 1]] else []
  }

  function InBuckets(rows: seq<Stat>, bs: set<Bucket>): nat {
    if |rows| == 0 then 0
    else InBuckets(rows[..|rows| - 1], bs) + if BucketOf(rows[|rows| - 1].event) in bs then 1 else 0
  }

  function Total(line: seq<AggregatedStat>): nat {
    if |line| == 0 then 0 else Total(line[..|line| - 1]) + line[|line| - 1].count
  }

  predicate IsSorted(line: seq<AggregatedStat>) {
    forall i, j :: 0 <= i < j < |line| ==> line[i].bucket.Precedes(line[j].bucket)
  }

  /** line groups rows: an entry for each bucket that has a row and no other, holding
      how many it has, in order, and summing to all of them. */
  ghost predicate IsTimelineOf(line: seq<AggregatedStat>, rows: seq<Stat>) {
    && IsSorted(line)
    && (forall a :: a in line <==> a.count == InBuckets(rows, {a.bucket}) && a.count > 0)
    && Total(line) == |rows|
  }

  lemma {:induction false} BucketsSplit(rows: seq<Stat>, bs: set<Bucket>, b: Bucket)
    requires b in bs
    ensures InBuckets(rows, bs) == InBuckets(rows, bs - {b}) + InBuckets(rows, {b})
  {
    if |rows| > 0 {
      BucketsSplit(rows[..|rows| - 1], bs, b);
    }
  }

  lemma {:induction false} EveryBucket(rows: seq<Stat>, bs: set<Bucket>)
    ensures (forall s :: s in rows ==> BucketOf(s.event) in bs) ==> InBuckets(rows, bs) == |rows|
    ensures bs == {} ==> InBuckets(rows, bs) == 0
    ensures InBuckets(rows, bs) > 0 <==> exists s :: s in rows && BucketOf(s.event) in bs
  {
    if |rows| > 0 {
      var before := rows[..|rows| - 1];
      EveryBucket(before, bs);
      assert rows == before + [rows[|rows| - 1]];
    }
  }

  /** a put in its place in a sorted line. */
  function Placed(line: seq<AggregatedStat>, a: AggregatedStat): seq<AggregatedStat> {
    if |line| == 0 || line[|line| - 1].bucket.Precedes(a.bucket) then line + [a]
    else Placed(line[..|line| - 1], a) + [line[|line| - 1]]
  }

  lemma {:induction false} PlacedKeepsOrder(line: seq<AggregatedStat>, a: AggregatedStat)
    requires IsSorted(line) && forall x :: x in line ==> x.bucket != a.bucket
    ensures IsSorted(Placed(line, a))
    ensures forall x :: x in Placed(line, a) <==> x in line || x == a
    ensures Total(Placed(line, a)) == Total(line) + a.count
  {
    hide Bucket.Precedes, IsSorted, Placed, Total;
    PlacedUnfolds(line, a);
    if |line| == 0 || line[|line| - 1].bucket.Precedes(a.bucket) {
      TotalSnoc(line, a);
      SortedSnoc(line, a);
    } else {
      var last, before := line[|line| - 1], line[..|line| - 1];
      assert line == before + [last];
      SortedSnoc(before, last);
      PlacedKeepsOrder(before, a);
      DifferentTypesDiffer(last.bucket, a.bucket);
      var r := Placed(before, a);
      TotalSnoc(r, last);
      TotalSnoc(before, last);
      SortedSnoc(r, last);
    }
  }

  lemma PlacedUnfolds(line: seq<AggregatedStat>, a: AggregatedStat)
    ensures Placed(line, a) ==
      if |line| == 0 || line[|line| - 1].bucket.Precedes(a.bucket) then line + [a]
      else Placed(line[..|line| - 1], a) + [line[|line| - 1]]
  {
  }

  lemma TotalSnoc(line: seq<AggregatedStat>, a: AggregatedStat)
    ensures Total(line + [a]) == Total(line) + a.count
  {
    assert (line + [a])[..|line|] == line;
  }

  /** A line is sorted with one more at its end exactly when it was sorted and every
      entry precedes the one. */
  lemma SortedSnoc(line: seq<AggregatedStat>, a: AggregatedStat)
    ensures IsSorted(line + [a]) <==> IsSorted(line) && forall x :: x in line ==> x.bucket.Precedes(a.bucket)
    ensures IsSorted(line) && |line| > 0 && line[|line| - 1].bucket.Precedes(a.bucket) ==> IsSorted(line + [a])
  {
    hide Bucket.Precedes;
    var longer := line + [a];
    assert forall i :: 0 <= i < |line| ==> longer[i] == line[i];
    assert longer[|line|] == a;
    if IsSorted(longer) {
      forall x | x in line ensures x.bucket.Precedes(a.bucket) {
        var i :| 0 <= i < |line| && line[i] == x;
        assert longer[i].bucket.Precedes(longer[|line|].bucket);
      }
    }
    if IsSorted(line) && |line| > 0 && line[|line| - 1].bucket.Precedes(a.bucket) {
      forall i | 0 <= i < |line| ensures line[i].bucket.Precedes(a.bucket) {
        if i < |line| - 1 {
          OrderIsTransitive(line[i].bucket, line[|line| - 1].bucket, a.bucket);
        }
      }
    }
  }

  lemma SortedMeans(line: seq<AggregatedStat>)
    requires IsSorted(line)
    ensures forall i, j :: 0 <= i < j < |line| ==>
      || line[i].bucket.hour < line[j].bucket.hour
      || (line[i].bucket.hour == line[j].bucket.hour && line[i].bucket.typ.Place() < line[j].bucket.typ.Place())
  {
  }

  lemma NothingIsSorted()
    ensures IsSorted([])
  {
  }

  lemma OrderIsTransitive(b: Bucket, b': Bucket, b'': Bucket)
    requires b.Precedes(b') && b'.Precedes(b'')
    ensures b.Precedes(b'')
  {
  }

  lemma DifferentTypesDiffer(b: Bucket, b': Bucket)
    ensures b.Precedes(b') || b'.Precedes(b) || b == b'
  {
  }

  class Repository {
    var rows: seq<Stat>
    var nextID: nat

    constructor ()
      ensures rows == [] && nextID == 1
    {
      rows, nextID := [], 1;
    }

    /** An event already stored is not stored again, whatever it carries now. */
    method Insert(e: Identity, payload: string)
      modifies this
      ensures rows == Inserted(old(rows), old(nextID), e, payload)
      ensures nextID == old(nextID) + |rows| - |old(rows)|
    {
      for i := 0 to |rows|
        invariant forall j :: 0 <= j < i ==> rows[j].event != e
      {
        if rows[i].event == e {
          return;
        }
      }
      rows := rows + [Stat(nextID, e, payload)];
      nextID := nextID + 1;
    }

    method FilterRows(domain: string, range: TimeRange) returns (out: seq<Stat>)
      ensures out == Filter(rows, domain, range)
    {
      out := [];
      for i := 0 to |rows|
        invariant out == Filter(rows[..i], domain, range)
      {
        assert rows[..i + 1][..i] == rows[..i];
        if rows[i].event.domain != domain || rows[i].event.timestamp < range.start || rows[i].event.timestamp >= range.stop {
          continue;
        }
        out := out + [rows[i]];
      }
      assert rows[..|rows|] == rows;
    }

    /** One page of the matching rows; past their end, none. */
    method Query(domain: string, range: TimeRange, limit: nat, offset: nat) returns (out: seq<Stat>)
      ensures |out| <= limit
      ensures var all := Filter(rows, domain, range);
        && |out| == (if offset >= |all| then 0 else if |all| - offset < limit then |all| - offset else limit)
        && forall i :: 0 <= i < |out| ==> out[i] == all[offset + i]
    {
      var filtered := FilterRows(domain, range);
      if offset > |filtered| {
        return [];
      }
      var end := if offset + limit < |filtered| then offset + limit else |filtered|;
      return filtered[offset..end];
    }

    method Count(domain: string, range: TimeRange) returns (n: nat)
      ensures n == |Filter(rows, domain, range)|
    {
      var filtered := FilterRows(domain, range);
      return |filtered|;
    }

    /** Rows grouped by type and hour: bucketed in one pass, then listed in order. */
    method QueryTimeline(domain: string, range: TimeRange) returns (line: seq<AggregatedStat>)
      ensures IsTimelineOf(line, Filter(rows, domain, range))
      ensures forall i, j :: 0 <= i < j < |line| ==>
        || line[i].bucket.hour < line[j].bucket.hour
        || (line[i].bucket.hour == line[j].bucket.hour && line[i].bucket.typ.Place() < line[j].bucket.typ.Place())
    {
      hide BucketOf, IsSorted, Placed;
      var filtered := FilterRows(domain, range);
      var buckets: map<Bucket, nat> := map[];
      for i := 0 to |filtered|
        invariant forall b :: b in buckets <==> InBuckets(filtered[..i], {b}) > 0
        invariant forall b :: b in buckets ==> buckets[b] == InBuckets(filtered[..i], {b})
      {
        var b := BucketOf(filtered[i].event);
        assert filtered[..i + 1][..i] == filtered[..i];
        buckets := buckets[b := if b in buckets then buckets[b] + 1 else 1];
      }
      assert filtered[..|filtered|] == filtered;
      line := [];
      assert IsSorted(line) by {
        NothingIsSorted();
      }
      var rest := buckets.Keys;
      EveryRowIsBucketed(filtered, rest);
      while rest != {}
        invariant rest <= buckets.Keys
        invariant IsSorted(line)
        invariant forall a :: a in line <==> a.bucket in buckets && a.bucket !in rest && a.count == buckets[a.bucket]
        invariant Total(line) + InBuckets(filtered, rest) == |filtered|
      {
        var b :| b in rest;
        BucketsSplit(filtered, rest, b);
        PlacedKeepsOrder(line, AggregatedStat(b, buckets[b]));
        line, rest := Placed(line, AggregatedStat(b, buckets[b])), rest - {b};
      }
      EveryBucket(filtered, {});
      SortedMeans(line);
    }

    /** Drops what is older, keeping the rest in order. */
    method DeleteOlderThan(before: int) returns (deleted: nat)
      modifies this
      ensures rows == Kept(old(rows), before) && nextID == old(nextID)
      ensures deleted == |old(rows)| - |rows|
    {
      var kept := [];
      deleted := 0;
      for i := 0 to |rows|
        invariant rows == old(rows) && nextID == old(nextID)
        invariant kept == Kept(rows[..i], before) && deleted == i - |kept|
      {
        assert rows[..i + 1][..i] == rows[..i];
        if rows[i].event.timestamp < before {
          deleted := deleted + 1;
        } else {
          kept := kept + [rows[i]];
        }
      }
      assert rows[..|rows|] == rows;
      rows := kept;
    }
  }

  lemma EveryRowIsBucketed(rows: seq<Stat>, bs: set<Bucket>)
    requires forall b :: b in bs <==> InBuckets(rows, {b}) > 0
    ensures InBuckets(rows, bs) == |rows|
  {
    forall s | s in rows ensures BucketOf(s.event) in bs {
      EveryBucket(rows, {BucketOf(s.event)});
    }
    EveryBucket(rows, bs);
  }

  function Inserted(rows: seq<Stat>, nextID: nat, e: Identity, payload: string): seq<Stat> {
    if Holds(rows, e) then rows else rows + [Stat(nextID, e, payload)]
  }

  function Kept(rows: seq<Stat>, before: int): seq<Stat> {
    if |rows| == 0 then []
    else Kept(rows[..|rows| - 1], before) + if rows[|rows| - 1].event.timestamp < before then [] else [rows[|rows| - 1]]
  }

  /** What a query sees, and what retention leaves: the rows of that Domain from the start
      up to the stop, and the rows not older. */
  lemma {:induction false} QueriesSee(rows: seq<Stat>, domain: string, range: TimeRange, s: Stat)
    ensures s in Filter(rows, domain, range) <==> s in rows && s.event.domain == domain && range.start <= s.event.timestamp < range.stop
  {
    if |rows| > 0 {
      QueriesSee(rows[..|rows| - 1], domain, range, s);
      assert rows == rows[..|rows| - 1] + [rows[|rows| - 1]];
    }
  }

  lemma {:induction false} RetentionLeaves(rows: seq<Stat>, before: int, s: Stat)
    ensures s in Kept(rows, before) <==> s in rows && s.event.timestamp >= before
  {
    if |rows| > 0 {
      RetentionLeaves(rows[..|rows| - 1], before, s);
      assert rows == rows[..|rows| - 1] + [rows[|rows| - 1]];
    }
  }

  // ---- Counters ----

  datatype CounterKey = CounterKey(domain: string, bucket: Bucket)

  function Bumped(counts: map<CounterKey, nat>, k: CounterKey): map<CounterKey, nat> {
    counts[k := Get(counts, k) + 1]
  }

  function Get(counts: map<CounterKey, nat>, k: CounterKey): nat {
    if k in counts then counts[k] else 0
  }

  /** The counters of a Domain whose hour is in range, each once, in no order. */
  ghost predicate IsListingOf(list: seq<AggregatedStat>, counts: map<CounterKey, nat>, domain: string, range: TimeRange) {
    && (forall i, j :: 0 <= i < j < |list| ==> list[i] != list[j])
    && forall a :: a in list <==>
         CounterKey(domain, a.bucket) in counts && range.Has(a.bucket.hour) && a.count == counts[CounterKey(domain, a.bucket)]
  }

  class AggregatedRepository {
    var counts: map<CounterKey, nat>

    constructor ()
      ensures counts == map[]
    {
      counts := map[];
    }

    method Increment(domain: string, hour: int, typ: Type)
      modifies this
      ensures counts == Bumped(old(counts), CounterKey(domain, Bucket(typ, hour)))
    {
      var k := CounterKey(domain, Bucket(typ, hour));
      if k in counts {
        counts := counts[k := counts[k] + 1];
      } else {
        counts := counts[k := 1];
      }
    }

    method Query(domain: string, range: TimeRange) returns (list: seq<AggregatedStat>)
      ensures IsListingOf(list, counts, domain, range)
    {
      list := [];
      var rest := counts.Keys;
      while rest != {}
        invariant rest <= counts.Keys
        invariant forall i, j :: 0 <= i < j < |list| ==> list[i] != list[j]
        invariant forall a :: a in list <==>
          var k := CounterKey(domain, a.bucket); k in counts && k !in rest && range.Has(a.bucket.hour) && a.count == counts[k]
      {
        var k :| k in rest;
        rest := rest - {k};
        if k.domain != domain || k.bucket.hour < range.start || k.bucket.hour >= range.stop {
          continue;
        }
        assert AggregatedStat(k.bucket, counts[k]) !in list;
        list := list + [AggregatedStat(k.bucket, counts[k])];
      }
    }
  }

  // ---- The two consumers ----

  /** An event as both consumers decode it. */
  datatype Event = Event(email: string, messageID: string, domain: string, timestamp: int, typ: Type, mode: Tracking.Mode, payload: string)

  /** The Unicode tables, and how case folds. */
  datatype Library = Library(u: Tables, fold: char -> char)

  datatype Settlement = Acked | Termed | Naked

  /** The row e stands for, if it stands for one. */
  function RowOf(lib: Library, e: Event): Option<Identity> {
    match Engagement.DispositionOf(lib.u, lib.fold, e.domain, e.email, e.mode)
    case Stored(domain) => Some(Identity(e.email, e.messageID, domain, e.typ, e.timestamp))
    case _ => None
  }

  /** The counter e bumps: every Mode alike, so long as the Domain is one. */
  function CounterOf(lib: Library, e: Event): Option<CounterKey> {
    match Parse(lib.u, e.domain)
    case None => None
    case Some(domain) => Some(CounterKey(domain, Bucket(e.typ, Truncated(e.timestamp))))
  }

  /** A row is counted in the bucket it falls in. */
  lemma RowsAreCounted(lib: Library, e: Event)
    ensures RowOf(lib, e).Some? ==> CounterOf(lib, e) == Some(CounterKey(RowOf(lib, e).value.domain, BucketOf(RowOf(lib, e).value)))
  {
  }

  /** The event's identity is someone: not empty, and not the anonymous one of its
      Domain in any case. */
  predicate NamesSomeone(lib: Library, e: Event) {
    e.email != "" && Lower(lib.fold, e.email) != Lower(lib.fold, "anonymous@track." + e.domain)
  }

  lemma SomeoneIsNotNobody(lib: Library, e: Event)
    ensures NamesSomeone(lib, e) <==> !Engagement.NamesNobody(lib.fold, e.email, e.domain)
  {
    assert "anonymous" + "@" + ("track." + e.domain) == "anonymous@track." + e.domain;
  }

  /** Every type and Mode alike: an event stands for a row exactly when its Domain is
      one, it is not anonymous and it names someone; and for a count, in the hour it
      fell in, exactly when its Domain is one. */
  lemma WhatAnEventStandsFor(lib: Library, e: Event)
    ensures RowOf(lib, e).Some? <==> Parse(lib.u, e.domain).Some? && e.mode != Tracking.ANONYMOUS && NamesSomeone(lib, e)
    ensures RowOf(lib, e).Some? ==> RowOf(lib, e).value == Identity(e.email, e.messageID, Parse(lib.u, e.domain).value, e.typ, e.timestamp)
    ensures CounterOf(lib, e).Some? <==> Parse(lib.u, e.domain).Some?
    ensures CounterOf(lib, e).Some? ==>
      var k := CounterOf(lib, e).value;
      && k.domain == Parse(lib.u, e.domain).value && k.bucket.typ == e.typ
      && k.bucket.hour <= e.timestamp < k.bucket.hour + 3_600_000_000_000 && k.bucket.hour % 3_600_000_000_000 == 0
  {
    hide Parse, NamesSomeone, Engagement.NamesNobody;
    SomeoneIsNotNobody(lib, e);
  }

  method HandleStatsMsg(lib: Library, repo: Repository, e: Event, stores: bool) returns (s: Settlement)
    modifies repo
    ensures s == (if RowOf(lib, e).Some? && !stores then Naked
                  else if RowOf(lib, e).Some? || Engagement.DispositionOf(lib.u, lib.fold, e.domain, e.email, e.mode).Counted? then Acked
                  else Termed)
    ensures repo.rows == (if RowOf(lib, e).Some? && stores then Inserted(old(repo.rows), old(repo.nextID), RowOf(lib, e).value, e.payload) else old(repo.rows))
    ensures repo.nextID == old(repo.nextID) + |repo.rows| - |old(repo.rows)|
    ensures Parse(lib.u, e.domain).None? ==> s.Termed? && repo.rows == old(repo.rows)
    ensures Parse(lib.u, e.domain).Some? && e.mode == Tracking.ANONYMOUS ==> s.Acked? && repo.rows == old(repo.rows)
    ensures Parse(lib.u, e.domain).Some? && e.mode != Tracking.ANONYMOUS ==>
      if !NamesSomeone(lib, e) then s.Termed? && repo.rows == old(repo.rows)
      else if !stores then s.Naked? && repo.rows == old(repo.rows)
      else
        var id := Identity(e.email, e.messageID, Parse(lib.u, e.domain).value, e.typ, e.timestamp);
        s.Acked? && repo.rows == if Holds(old(repo.rows), id) then old(repo.rows) else old(repo.rows) + [Stat(old(repo.nextID), id, e.payload)]
  {
    hide NamesSomeone, Engagement.NamesNobody, Parse;
    SomeoneIsNotNobody(lib, e);
    var domain := Parse(lib.u, e.domain);
    if domain.None? {
      return Termed;
    }
    if e.mode == Tracking.ANONYMOUS {
      return Acked;
    }
    if Engagement.NamesNobody(lib.fold, e.email, e.domain) {
      return Termed;
    }
    if !stores {
      return Naked;
    }
    repo.Insert(Identity(e.email, e.messageID, domain.value, e.typ, e.timestamp), e.payload);
    return Acked;
  }

  method HandleAggregatedStatsMsg(lib: Library, repo: AggregatedRepository, e: Event, stores: bool) returns (s: Settlement)
    modifies repo
    ensures s == (if CounterOf(lib, e).None? then Termed else if stores then Acked else Naked)
    ensures repo.counts == (if CounterOf(lib, e).Some? && stores then Bumped(old(repo.counts), CounterOf(lib, e).value) else old(repo.counts))
    ensures Parse(lib.u, e.domain).None? ==> s.Termed? && repo.counts == old(repo.counts)
    ensures Parse(lib.u, e.domain).Some? ==>
      if !stores then s.Naked? && repo.counts == old(repo.counts)
      else
        var k := CounterKey(Parse(lib.u, e.domain).value, Bucket(e.typ, e.timestamp - e.timestamp % 3_600_000_000_000));
        s.Acked? && repo.counts == old(repo.counts)[k := if k in old(repo.counts) then old(repo.counts)[k] + 1 else 1]
  {
    var domain := Parse(lib.u, e.domain);
    if domain.None? {
      return Termed;
    }
    if !stores {
      return Naked;
    }
    repo.Increment(domain.value, Truncated(e.timestamp), e.typ);
    return Acked;
  }

  // ---- After a history of events ----

  function RowsAfter(lib: Library, es: seq<Event>): seq<Stat> {
    if |es| == 0 then []
    else
      var rows, e := RowsAfter(lib, es[..|es| - 1]), es[|es| - 1];
      if RowOf(lib, e).Some? then Inserted(rows, |rows| + 1, RowOf(lib, e).value, e.payload) else rows
  }

  function CountersAfter(lib: Library, es: seq<Event>): map<CounterKey, nat> {
    if |es| == 0 then map[]
    else
      var counts, e := CountersAfter(lib, es[..|es| - 1]), es[|es| - 1];
      if CounterOf(lib, e).Some? then Bumped(counts, CounterOf(lib, e).value) else counts
  }

  /** e adds nothing to the rows after es: it stands for none, or for one there. */
  ghost predicate AddsNoRow(lib: Library, es: seq<Event>, e: Event) {
    RowOf(lib, e).Some? ==> exists j :: 0 <= j < |es| && RowOf(lib, es[j]) == RowOf(lib, e)
  }

  /** The rows are the distinct events that stand for one, whatever their payloads. */
  lemma {:induction false} RowsAreTheDistinctEvents(lib: Library, es: seq<Event>)
    ensures forall id :: Holds(RowsAfter(lib, es), id) <==> exists j :: 0 <= j < |es| && RowOf(lib, es[j]) == Some(id)
    ensures AreDistinct(RowsAfter(lib, es))
  {
    hide RowOf;
    if |es| > 0 {
      var before, e := es[..|es| - 1], es[|es| - 1];
      RowsAreTheDistinctEvents(lib, before);
      var rows, rows' := RowsAfter(lib, before), RowsAfter(lib, es);
      assert AreDistinct(rows');
      forall id ensures Holds(rows', id) <==> Holds(rows, id) || RowOf(lib, e) == Some(id) {
        HoldsInserted(rows, |rows| + 1, e.payload, if RowOf(lib, e).Some? then RowOf(lib, e).value else id, id);
      }
      forall id ensures Holds(rows', id) <==> exists j :: 0 <= j < |es| && RowOf(lib, es[j]) == Some(id) {
        if j :| 0 <= j < |before| && RowOf(lib, before[j]) == Some(id) {
          assert RowOf(lib, es[j]) == Some(id);
        }
        if j :| 0 <= j < |es| && RowOf(lib, es[j]) == Some(id) {
          assert j < |before| ==> RowOf(lib, before[j]) == Some(id);
        }
        assert es[|es| - 1] == e;
      }
    }
  }

  lemma HoldsInserted(rows: seq<Stat>, n: nat, payload: string, e: Identity, id: Identity)
    ensures Holds(Inserted(rows, n, e, payload), id) <==> Holds(rows, id) || e == id
  {
    var rows' := Inserted(rows, n, e, payload);
    assert forall i :: 0 <= i < |rows| ==> rows'[i] == rows[i];
    if !Holds(rows, e) {
      assert rows'[|rows|].event == e;
    }
  }

  /** An event handled again, even under another payload, leaves the rows as they
      were, and is counted a second time. */
  lemma RedeliveryCountsTwiceAndStoresOnce(lib: Library, es: seq<Event>, e: Event, again: Event)
    requires e in es && again == e.(payload := again.payload)
    ensures RowsAfter(lib, es + [again]) == RowsAfter(lib, es)
    ensures CounterOf(lib, e).Some? ==>
      var k := CounterOf(lib, e).value; Get(CountersAfter(lib, es + [again]), k) == Get(CountersAfter(lib, es), k) + 1
  {
    assert (es + [again])[..|es|] == es;
    RowsAreTheDistinctEvents(lib, es);
    var j :| 0 <= j < |es| && es[j] == e;
    assert RowOf(lib, again) == RowOf(lib, es[j]);
  }

  // ---- The law between the two ----

  function RowsIn(rows: seq<Stat>, k: CounterKey): nat {
    if |rows| == 0 then 0
    else
      var e := rows[|rows| - 1].event;
      RowsIn(rows[..|rows| - 1], k) + if e.domain == k.domain && BucketOf(e) == k.bucket then 1 else 0
  }

  /** The events counted at k that added no row. */
  ghost function Unrowed(lib: Library, es: seq<Event>, k: CounterKey): nat {
    if |es| == 0 then 0
    else
      var before, e := es[..|es| - 1], es[|es| - 1];
      Unrowed(lib, before, k) + if CounterOf(lib, e) == Some(k) && AddsNoRow(lib, before, e) then 1 else 0
  }

  /** Each counter is its group of rows plus the events it counted that left none:
      the anonymous, the nameless, and the repeats. */
  lemma {:induction false} CountersAreRowsPlusUnrowed(lib: Library, es: seq<Event>, k: CounterKey)
    ensures Get(CountersAfter(lib, es), k) == RowsIn(RowsAfter(lib, es), k) + Unrowed(lib, es, k)
    ensures k in CountersAfter(lib, es) <==> Get(CountersAfter(lib, es), k) > 0
  {
    hide RowOf, CounterOf, Holds;
    if |es| > 0 {
      var before, e := es[..|es| - 1], es[|es| - 1];
      CountersAreRowsPlusUnrowed(lib, before, k);
      RowsAreTheDistinctEvents(lib, before);
      RowsAreCounted(lib, e);
      var rows := RowsAfter(lib, before);
      if RowOf(lib, e).Some? {
        assert Holds(rows, RowOf(lib, e).value) <==> AddsNoRow(lib, before, e);
        assert (rows + [Stat(|rows| + 1, RowOf(lib, e).value, e.payload)])[..|rows|] == rows;
      }
    }
  }

  /** And so a counter equals its group exactly when every event it counted stands
      for a row of its own. */
  lemma {:induction false} UnrowedIsZero(lib: Library, es: seq<Event>, k: CounterKey)
    ensures Unrowed(lib, es, k) == 0 <==>
      forall i :: 0 <= i < |es| && CounterOf(lib, es[i]) == Some(k) ==>
        RowOf(lib, es[i]).Some? && forall j :: 0 <= j < i ==> RowOf(lib, es[j]) != RowOf(lib, es[i])
  {
    hide RowOf, CounterOf;
    if |es| > 0 {
      var before, last := es[..|es| - 1], |es| - 1;
      UnrowedIsZero(lib, before, k);
      assert forall i :: 0 <= i < last ==> before[i] == es[i];
      assert AddsNoRow(lib, before, es[last]) <==>
        !(RowOf(lib, es[last]).Some? && forall j :: 0 <= j < last ==> RowOf(lib, es[j]) != RowOf(lib, es[last])) by {
        if RowOf(lib, es[last]).Some? && AddsNoRow(lib, before, es[last]) {
          var j :| 0 <= j < |before| && RowOf(lib, before[j]) == RowOf(lib, es[last]);
          assert RowOf(lib, es[j]) == RowOf(lib, es[last]);
        }
        if j :| 0 <= j < last && RowOf(lib, es[j]) == RowOf(lib, es[last]) {
          assert RowOf(lib, before[j]) == RowOf(lib, es[last]);
        }
      }
    }
  }

  // ---- Each consumer in an order of its own ----

  ghost function IdentitiesIn(rows: seq<Stat>, k: CounterKey): set<Identity> {
    set s | s in rows && s.event.domain == k.domain && BucketOf(s.event) == k.bucket :: s.event
  }

  lemma {:induction false} RowsInAreIdentities(rows: seq<Stat>, k: CounterKey)
    requires AreDistinct(rows)
    ensures RowsIn(rows, k) == |IdentitiesIn(rows, k)|
  {
    hide BucketOf;
    if |rows| == 0 {
      assert IdentitiesIn(rows, k) == {};
    } else {
      var before, s := rows[..|rows| - 1], rows[|rows| - 1];
      RowsInAreIdentities(before, k);
      assert rows == before + [s];
      assert s.event !in IdentitiesIn(before, k);
      assert IdentitiesIn(rows, k) == IdentitiesIn(before, k) + if s.event.domain == k.domain && BucketOf(s.event) == k.bucket then {s.event} else {};
    }
  }

  ghost predicate SameRows(lib: Library, es: seq<Event>, es': seq<Event>) {
    forall id :: (exists j :: 0 <= j < |es| && RowOf(lib, es[j]) == Some(id)) <==> (exists j :: 0 <= j < |es'| && RowOf(lib, es'[j]) == Some(id))
  }

  /** The groups depend only on which events were handled: not on their order, nor on
      how often each was. */
  lemma RowsIgnoreOrderAndRepeats(lib: Library, es: seq<Event>, es': seq<Event>, k: CounterKey)
    requires SameRows(lib, es, es')
    ensures RowsIn(RowsAfter(lib, es), k) == RowsIn(RowsAfter(lib, es'), k)
  {
    hide RowOf;
    RowsAreTheDistinctEvents(lib, es);
    RowsAreTheDistinctEvents(lib, es');
    var rows, rows' := RowsAfter(lib, es), RowsAfter(lib, es');
    RowsInAreIdentities(rows, k);
    RowsInAreIdentities(rows', k);
    SameIdentities(rows, rows', k);
  }

  lemma SameIdentities(rows: seq<Stat>, rows': seq<Stat>, k: CounterKey)
    requires forall id :: Holds(rows, id) <==> Holds(rows', id)
    ensures IdentitiesIn(rows, k) == IdentitiesIn(rows', k)
  {
    forall id ensures id in IdentitiesIn(rows, k) <==> Holds(rows, id) && id.domain == k.domain && BucketOf(id) == k.bucket {
      IdentityIsHeld(rows, k, id);
    }
    forall id ensures id in IdentitiesIn(rows', k) <==> Holds(rows', id) && id.domain == k.domain && BucketOf(id) == k.bucket {
      IdentityIsHeld(rows', k, id);
    }
  }

  lemma IdentityIsHeld(rows: seq<Stat>, k: CounterKey, id: Identity)
    ensures id in IdentitiesIn(rows, k) <==> Holds(rows, id) && id.domain == k.domain && BucketOf(id) == k.bucket
  {
    if Holds(rows, id) {
      var i :| 0 <= i < |rows| && rows[i].event == id;
      assert rows[i] in rows;
    }
  }

  // ---- Counters against a timeline ----

  /** The range holds an instant exactly when it holds its hour. */
  ghost predicate HoldsWholeHours(range: TimeRange) {
    forall t {:trigger Truncated(t)} :: range.Has(t) <==> range.Has(Truncated(t))
  }

  predicate IsAligned(range: TimeRange) {
    range.start % HOUR == 0 && range.stop % HOUR == 0
  }

  /** So it does, for every instant, if and only if it is aligned to the hour or
      empty. */
  lemma AlignedRangesHoldWholeHours(range: TimeRange)
    ensures HoldsWholeHours(range) <==> range.stop <= range.start || IsAligned(range)
  {
    if IsAligned(range) {
      forall t ensures range.Has(t) <==> range.Has(Truncated(t)) {
        WholeHours(range.start / HOUR, t);
        WholeHours(range.stop / HOUR, t);
      }
    } else if range.start < range.stop {
      if range.start % HOUR != 0 {
        assert range.Has(range.start) && !range.Has(Truncated(range.start));
      } else {
        WholeHours(range.start / HOUR, range.stop);
        assert !range.Has(range.stop) && range.Has(Truncated(range.stop));
      }
    }
  }

  lemma WholeHours(h: int, t: int)
    ensures h * HOUR <= t <==> h * HOUR <= Truncated(t)
  {
    assert Truncated(t) == t / HOUR * HOUR;
    if h * HOUR <= t {
      assert h <= t / HOUR;
    }
  }

  lemma WholeHour(range: TimeRange, t: int)
    requires HoldsWholeHours(range)
    ensures range.Has(t) <==> range.Has(Truncated(t))
  {
  }

  lemma {:induction false} GroupsOfARange(rows: seq<Stat>, domain: string, range: TimeRange, b: Bucket)
    requires HoldsWholeHours(range)
    ensures InBuckets(Filter(rows, domain, range), {b}) == (if range.Has(b.hour) then RowsIn(rows, CounterKey(domain, b)) else 0)
  {
    hide Truncated, HoldsWholeHours, BucketOf, Selects, TimeRange.Has, InBuckets;
    if |rows| == 0 {
      EveryBucket([], {b});
    } else {
      var before, s := rows[..|rows| - 1], rows[|rows| - 1];
      var filtered := Filter(before, domain, range);
      GroupsOfARange(before, domain, range, b);
      GroupOfARow(s, domain, range, b);
      OneMoreInBuckets(filtered, s, b);
      assert filtered + [] == filtered;
    }
  }

  lemma OneMoreInBuckets(rows: seq<Stat>, s: Stat, b: Bucket)
    ensures InBuckets(rows + [s], {b}) == InBuckets(rows, {b}) + if BucketOf(s.event) == b then 1 else 0
  {
    assert (rows + [s])[..|rows|] == rows;
  }

  lemma GroupOfARow(s: Stat, domain: string, range: TimeRange, b: Bucket)
    requires HoldsWholeHours(range)
    ensures Selects(domain, range, s) && BucketOf(s.event) == b <==>
      range.Has(b.hour) && s.event.domain == domain && BucketOf(s.event) == b
  {
    hide Truncated, HoldsWholeHours;
    WholeHour(range, s.event.timestamp);
  }

  /** The counters refine the grouping. es is what the row consumer handled, in any
      order and with any repeats; es' what the counter consumer handled, in an order
      of its own. If the same events reached both, each counted event standing for a
      row of its own, then over every whole-hour range a timeline of the rows and a
      listing of the counters hold the same entries. */
  lemma {:induction false} CountersRefineGroupBy(lib: Library, es: seq<Event>, es': seq<Event>, domain: string, range: TimeRange,
                              line: seq<AggregatedStat>, list: seq<AggregatedStat>)
    requires SameRows(lib, es, es') && IsAligned(range)
    requires forall i :: 0 <= i < |es'| && CounterOf(lib, es'[i]).Some? ==>
               RowOf(lib, es'[i]).Some? && forall j :: 0 <= j < i ==> RowOf(lib, es'[j]) != RowOf(lib, es'[i])
    requires IsTimelineOf(line, Filter(RowsAfter(lib, es), domain, range))
    requires IsListingOf(list, CountersAfter(lib, es'), domain, range)
    ensures forall a :: a in line <==> a in list
    ensures Total(line) == |Filter(RowsAfter(lib, es), domain, range)|
  {
    hide RowOf, CounterOf, RowsAfter, CountersAfter, SameRows, InBuckets, IsAligned, HoldsWholeHours;
    var rows, counts := RowsAfter(lib, es), CountersAfter(lib, es');
    AlignedRangesHoldWholeHours(range);
    forall a ensures a in line <==> a in list {
      var k := CounterKey(domain, a.bucket);
      GroupsOfARange(rows, domain, range, a.bucket);
      CountersAreRowsPlusUnrowed(lib, es', k);
      UnrowedIsZero(lib, es', k);
      RowsIgnoreOrderAndRepeats(lib, es, es', k);
    }
  }

  // ---- Retention ----

  /** Clean-up drops exactly what is older, and changes no query that starts later. */
  lemma {:induction false} RetentionKeepsLaterQueries(rows: seq<Stat>, before: int, domain: string, range: TimeRange)
    ensures forall s :: s in Kept(rows, before) <==> s in rows && before <= s.event.timestamp
    ensures before <= range.start ==> Filter(Kept(rows, before), domain, range) == Filter(rows, domain, range)
  {
    if |rows| > 0 {
      var init, last := rows[..|rows| - 1], rows[|rows| - 1];
      RetentionKeepsLaterQueries(init, before, domain, range);
      assert rows == init + [last];
      var kept := Kept(init, before);
      assert (kept + [last])[..|kept|] == kept && kept + [] == kept;
      assert Filter(init, domain, range) + [] == Filter(init, domain, range);
    }
  }
}
