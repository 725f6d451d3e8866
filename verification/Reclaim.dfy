/** Draining a mass strand, one page per cycle. */
module Reclaim {
  import opened Prelude
  import opened Pool

  const RECLAIM_PAGE_SIZE: nat := 1000

  /** What one worker may take back: its own kind of claim, past its own threshold. */
  datatype Reclaimer = Reclaimer(inFlight: InFlight, olderThan: int) {
    method Cycle(table: Table, now: int, locked: set<Key>) returns (res: Result<nat, string>)
      modifies table
      ensures res.Err? <==> inFlight.Unknown?
      ensures res.Err? ==> table.rows == old(table.rows)
      ensures res.Ok? ==> exists page: seq<Delivery> ::
        (|page| == res.value && IsCycle(old(table.rows), table.rows, page, ReclaimTarget(inFlight).value, now - olderThan, 1000, locked))
    {
      var reclaimed := table.ReclaimStranded(inFlight, olderThan, RECLAIM_PAGE_SIZE, now, locked);
      match reclaimed
      case Err(e) => res := Err(e);
      case Ok(page) => res := Ok(|page|);
    }
  }

  /** One reclaim cycle: a page of the stranded rows goes back, nothing else moves. */
  ghost predicate IsCycle(before: map<Key, Row>, after: map<Key, Row>, page: seq<Delivery>,
                          t: Target, cutoff: int, pageSize: nat, locked: set<Key>)
  {
    && IsPage(page, pageSize, StrandedKeys(before, t, cutoff) - locked)
    && after == Updated(before, KeysOf(page), (r: Row) => Reclaimed(r, t))
  }

  /** A run of cycles, each at the cutoff its own clock gives, with nothing else
      touching the table and no row locked. */
  ghost predicate IsDrain(tables: seq<map<Key, Row>>, pages: seq<seq<Delivery>>, cutoffs: seq<int>, t: Target, pageSize: nat) {
    && |tables| == |pages| + 1 && |cutoffs| == |pages|
    && forall i :: 0 <= i < |pages| ==> IsCycle(tables[i], tables[i + 1], pages[i], t, cutoffs[i], pageSize, {})
  }

  lemma OlderAreFewer(rows: map<Key, Row>, t: Target, cutoff: int, later: int)
    requires cutoff <= later
    ensures StrandedKeys(rows, t, cutoff) <= StrandedKeys(rows, t, later)
  {
  }

  /** A cycle takes its page out of every strand, whatever the cutoff, and a page that
      is not full leaves nothing as old as the cycle's own cutoff. */
  lemma CycleShrinksTheStrand(before: map<Key, Row>, after: map<Key, Row>, page: seq<Delivery>, t: Target, cutoff: int, pageSize: nat, any: int)
    requires t.from != t.to
    requires IsCycle(before, after, page, t, cutoff, pageSize, {})
    ensures KeysOf(page) <= StrandedKeys(before, t, cutoff)
    ensures StrandedKeys(after, t, any) == StrandedKeys(before, t, any) - KeysOf(page)
    ensures |KeysOf(page)| == |page| <= pageSize
    ensures |page| < pageSize ==> StrandedKeys(after, t, cutoff) == {}
  {
    PageSize(page);
    assert KeysOf(page) <= StrandedKeys(before, t, cutoff);
  }

  lemma DrainTail(tables: seq<map<Key, Row>>, pages: seq<seq<Delivery>>, cutoffs: seq<int>, t: Target, pageSize: nat)
    requires |pages| > 0
    requires IsDrain(tables, pages, cutoffs, t, pageSize)
    ensures IsDrain(tables[1..], pages[1..], cutoffs[1..], t, pageSize)
    ensures IsCycle(tables[0], tables[1], pages[0], t, cutoffs[0], pageSize, {})
  {
    hide IsCycle;
  }

  lemma OneFewer(n: nat, size: nat)
    requires n > 0
    ensures (n - 1) * size == n * size - size
  {
  }

  lemma Without(s: set<Key>, page: set<Key>)
    requires page <= s
    ensures |s - page| == |s| - |page|
  {
  }

  /** Let N rows be stranded at the latest cutoff of the run. Within ceil(N / pageSize)
      cycles everything stranded at its earliest is back, and what the run took, each
      row once and to exactly what its claim found, lies between the two strands.
      When no claim ages past the threshold meanwhile, those are one and the same. */
  lemma {:induction false} StrandsDrain(tables: seq<map<Key, Row>>, pages: seq<seq<Delivery>>, cutoffs: seq<int>, f: InFlight,
                                        earliest: int, latest: int, pageSize: nat)
    returns (taken: set<Key>)
    requires !f.Unknown? && earliest <= latest
    requires IsDrain(tables, pages, cutoffs, ReclaimTarget(f).value, pageSize)
    requires forall i :: 0 <= i < |cutoffs| ==> earliest <= cutoffs[i] <= latest
    requires var t := ReclaimTarget(f).value;
      |pages| * pageSize >= |StrandedKeys(tables[0], t, latest)| || StrandedKeys(tables[0], t, earliest) == {}
    ensures var t := ReclaimTarget(f).value;
      && StrandedKeys(tables[0], t, earliest) <= taken <= StrandedKeys(tables[0], t, latest)
      && tables[|pages|] == Updated(tables[0], taken, (r: Row) => Reclaimed(r, t))
      && StrandedKeys(tables[|pages|], t, earliest) == {}
    decreases |pages|
  {
    hide IsCycle, StrandedKeys;
    var t := ReclaimTarget(f).value;
    OlderAreFewer(tables[0], t, earliest, latest);
    taken := {};
    if |pages| == 0 {
      assert tables[0] == Updated(tables[0], {}, (r: Row) => Reclaimed(r, t));
    } else {
      var page := KeysOf(pages[0]);
      DrainTail(tables, pages, cutoffs, t, pageSize);
      CycleShrinksTheStrand(tables[0], tables[1], pages[0], t, cutoffs[0], pageSize, earliest);
      CycleShrinksTheStrand(tables[0], tables[1], pages[0], t, cutoffs[0], pageSize, latest);
      OlderAreFewer(tables[0], t, cutoffs[0], latest);
      OlderAreFewer(tables[1], t, earliest, cutoffs[0]);
      OneFewer(|pages|, pageSize);
      Without(StrandedKeys(tables[0], t, latest), page);
      var rest := StrandsDrain(tables[1..], pages[1..], cutoffs[1..], f, earliest, latest, pageSize);
      CycleIsAnUpdate(tables[0], tables[1], pages[0], t, cutoffs[0], pageSize);
      UpdateTwice(tables[0], page, rest, (r: Row) => Reclaimed(r, t));
      taken := page + rest;
    }
  }

  lemma CycleIsAnUpdate(before: map<Key, Row>, after: map<Key, Row>, page: seq<Delivery>, t: Target, cutoff: int, pageSize: nat)
    requires IsCycle(before, after, page, t, cutoff, pageSize, {})
    ensures after == Updated(before, KeysOf(page), (r: Row) => Reclaimed(r, t))
  {
  }
}
