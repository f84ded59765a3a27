/** The immutable revision store: ingest, as-of selection, the current view, and resumable sync. */
module RevisionLake {
  import opened Distinct
  import opened Records
  import opened Ranking
  import opened Observations

  /** A revision file is named by the digests of its two ids, modelled as the pair itself. */
  type FileId = (string, string)
  type Files = map<FileId, Observation>

  function FileOf(o: Observation): FileId {
    (o.intelligenceId, o.revisionId)
  }

  /** Files hold what their name says. */
  ghost predicate WellFiled(files: Files) {
    forall k :: k in files ==> FileOf(files[k]) == k
  }

  /** What two copies of a revision must agree on: everything but when they were fetched or released. */
  function Content(o: Observation): Observation {
    o.(retrievedAt := 0, availableAt := 0)
  }

  predicate Collides(files: Files, o: Observation) {
    FileOf(o) in files && Content(files[FileOf(o)]) != Content(o)
  }

  function Store(files: Files, o: Observation): Files {
    if FileOf(o) in files then files else files[FileOf(o) := o]
  }

  // ----- selection -----

  function Order(o: Observation): Rank {
    Rank(o.availableAt, o.revision, o.revisionId)
  }

  /** Which revisions a selection considers. */
  datatype Query = Query(bound: int, hindsight: bool, matches: Observation -> bool)

  predicate Considered(q: Query, o: Observation) {
    (q.hindsight || o.availableAt <= q.bound) && q.matches(o)
  }

  ghost predicate Candidate(files: Files, q: Query, o: Observation) {
    FileOf(o) in files && files[FileOf(o)] == o && Considered(q, o)
  }

  /** The reference definition: per intelligence id, the considered revision that outranks all others. */
  ghost predicate IsLatest(files: Files, q: Query, o: Observation) {
    Candidate(files, q, o)
    && forall p :: Candidate(files, q, p) && p.intelligenceId == o.intelligenceId && p != o ==> Less(Order(p), Order(o))
  }

  /** A selection holds the latest considered revision of every intelligence id that has one. */
  ghost predicate IsSelection(files: Files, q: Query, selected: map<string, Observation>) {
    && (forall id :: id in selected ==> selected[id].intelligenceId == id && IsLatest(files, q, selected[id]))
    && forall o :: Candidate(files, q, o) ==> o.intelligenceId in selected
  }

  /** The selection is a function of the stored files and the query. */
  lemma SelectionUnique(files: Files, q: Query, a: map<string, Observation>, b: map<string, Observation>)
    requires IsSelection(files, q, a) && IsSelection(files, q, b)
    ensures a == b
  {
    forall id | id in a
      ensures id in b && a[id] == b[id]
    {
      if a[id] != b[id] {
        assert Less(Order(a[id]), Order(b[id])) && Less(Order(b[id]), Order(a[id]));
        RankTotal(Order(a[id]), Order(b[id]));
      }
    }
    forall id | id in b
      ensures id in a
    {
    }
  }

  /** The loop of `select` and of the current view: files in any order, keeping the better revision per id. */
  method SelectFrom(files: Files, q: Query) returns (selected: map<string, Observation>)
    requires WellFiled(files)
    ensures IsSelection(files, q, selected)
  {
    selected := map[];
    var rest := files.Keys;
    ghost var seen: Files := map[];
    while rest != {}
      invariant rest <= files.Keys && seen == files - rest
      invariant IsSelection(seen, q, selected)
      decreases rest
    {
      var k :| k in rest;
      var item := files[k];
      SelectStep(seen, q, selected, item);
      selected := Offer(selected, q, item);
      seen := seen[k := item];
      rest := rest - {k};
      assert seen == files - rest;
    }
    assert seen == files;
  }

  function Offer(selected: map<string, Observation>, q: Query, item: Observation): map<string, Observation> {
    if !Considered(q, item) then selected
    else if item.intelligenceId !in selected || Less(Order(selected[item.intelligenceId]), Order(item)) then
      selected[item.intelligenceId := item]
    else selected
  }

  lemma SelectStep(seen: Files, q: Query, selected: map<string, Observation>, item: Observation)
    requires IsSelection(seen, q, selected) && FileOf(item) !in seen
    ensures IsSelection(seen[FileOf(item) := item], q, Offer(selected, q, item))
  {
    var files, result := seen[FileOf(item) := item], Offer(selected, q, item);
    assert forall o :: Candidate(files, q, o) <==> Candidate(seen, q, o) || (o == item && Considered(q, item));
    forall id | id in result
      ensures IsLatest(files, q, result[id])
    {
      forall p | Candidate(files, q, p) && p.intelligenceId == id && p != result[id]
        ensures Less(Order(p), Order(result[id]))
      {
        OfferBeats(seen, q, selected, item, p);
      }
    }
  }

  lemma OfferBeats(seen: Files, q: Query, selected: map<string, Observation>, item: Observation, p: Observation)
    requires IsSelection(seen, q, selected) && FileOf(item) !in seen
    requires Candidate(seen, q, p) || (p == item && Considered(q, item))
    requires p.intelligenceId in Offer(selected, q, item) && p != Offer(selected, q, item)[p.intelligenceId]
    ensures Less(Order(p), Order(Offer(selected, q, item)[p.intelligenceId]))
  {
    var id := p.intelligenceId;
    var best := Offer(selected, q, item)[id];
    if best == item {
      if id in selected && p != selected[id] {
        RankTransitive(Order(p), Order(selected[id]), Order(item));
        RankTotal(Order(p), Order(selected[id]));
      }
    } else if p == item {
      RankTotal(Order(p), Order(best));
      assert FileOf(best) in seen;
    }
  }

  /** `select` returns the selection in arrival order. */
  method Select(files: Files, q: Query) returns (rows: seq<Observation>, ghost selected: map<string, Observation>)
    requires WellFiled(files)
    ensures IsSelection(files, q, selected) && SortedBy(Arrival, rows)
    ensures NoDuplicates(rows) && forall o :: o in rows <==> o.intelligenceId in selected && selected[o.intelligenceId] == o
  {
    var best := SelectFrom(files, q);
    selected := best;
    var all := set id | id in best :: best[id];
    var list := Enumerate(all);
    rows := Sort(Arrival, list);
    SortSorts(Arrival, list);
    SortElements(Arrival, list);
    PermutedNoDuplicates(list, rows);
    forall o
      ensures o in rows <==> o.intelligenceId in selected && selected[o.intelligenceId] == o
    {
      assert o in all <==> o.intelligenceId in best && best[o.intelligenceId] == o;
    }
  }

  // ----- the store -----

  datatype Outcome = Ingested(received: nat, added: nat, duplicates: nat) | Collision(index: nat)

  /** The values an ingest gets to before it is cancelled; `stop` is the number the callback lets through. */
  function Reached(values: seq<Observation>, stop: nat): seq<Observation> {
    if stop <= |values| then values[..stop] else values
  }

  function StoreAll(files: Files, values: seq<Observation>): Files {
    if values == [] then files else Store(StoreAll(files, values[..|values| - 1]), values[|values| - 1])
  }

  /** No value collides with what is stored by the time it is reached. */
  predicate Compatible(files: Files, values: seq<Observation>) {
    values == []
    || (Compatible(files, values[..|values| - 1]) && !Collides(StoreAll(files, values[..|values| - 1]), values[|values| - 1]))
  }

  const EVERYTHING: Query := Query(0, true, _ => true)

  class RevisionLake {
    var files: Files
    var current: seq<Observation>
    var checkpoint: Option<string>

    ghost predicate Valid()
      reads this
    {
      WellFiled(files)
    }

    constructor ()
      ensures Valid() && files == map[] && checkpoint == None
    {
      files, current, checkpoint := map[], [], None;
    }

    /** Stores the values one by one. A collision stops the ingest and leaves the current view as it was;
        an ingest that returns has rewritten the view. */
    method Ingest(values: seq<Observation>, stop: nat, mark: Option<string>) returns (outcome: Outcome)
      requires Valid()
      modifies this
      ensures Valid()
      ensures outcome.Ingested? <==> Compatible(old(files), Reached(values, stop))
      ensures outcome.Ingested? ==>
                files == StoreAll(old(files), Reached(values, stop))
                && outcome.received == |Reached(values, stop)| == outcome.added + outcome.duplicates
                && |files| == |old(files)| + outcome.added
                && checkpoint == (if mark.Some? then mark else old(checkpoint))
                && IsCurrentView(files, current)
      ensures outcome.Collision? ==>
                outcome.index < |Reached(values, stop)|
                && files == StoreAll(old(files), values[..outcome.index]) && Collides(files, values[outcome.index])
                && Compatible(old(files), values[..outcome.index])
                && current == old(current) && checkpoint == old(checkpoint)
    {
      var added, duplicates, i := StoreValues(values, stop);
      if i < |values| && i < stop {
        assert Reached(values, stop)[..i] == values[..i];
        CollisionIsFinal(old(files), Reached(values, stop), i);
        return Collision(i);
      }
      assert Reached(values, stop) == values[..i];
      WriteCurrentView();
      if mark.Some? {
        checkpoint := mark;
      }
      outcome := Ingested(i, added, duplicates);
    }

    /** Stores values until the callback stops it, the values end, or one collides. */
    method StoreValues(values: seq<Observation>, stop: nat) returns (added: nat, duplicates: nat, i: nat)
      requires Valid()
      modifies this`files
      ensures Valid() && i <= |values| && i <= stop && i == added + duplicates
      ensures files == StoreAll(old(files), values[..i]) && Compatible(old(files), values[..i])
      ensures |files| == |old(files)| + added
      ensures i < |values| && i < stop ==> Collides(files, values[i])
    {
      added, duplicates, i := 0, 0, 0;
      ghost var start := files;
      ghost var done: seq<Observation> := [];
      while i < |values| && i < stop
        invariant i <= |values| && i <= stop && Valid() && done == values[..i]
        invariant Filed(start, done, files)
        invariant i == added + duplicates && |files| == |start| + added
        decreases |values| - i
      {
        FiledNext(start, done, files, values[i]);
        TakeNext(values, i);
        var stored := StoreOne(values[i]);
        if stored.None? {
          return;
        }
        if stored.value {
          added := added + 1;
        } else {
          duplicates := duplicates + 1;
        }
        done := done + [values[i]];
        i := i + 1;
      }
    }

    /** Files a new revision, counts a known one as a duplicate, and reports a changed one as a collision. */
    method StoreOne(o: Observation) returns (added: Option<bool>)
      requires Valid()
      modifies this`files
      ensures Valid() && files == Store(old(files), o)
      ensures added.None? <==> Collides(old(files), o)
      ensures added == Some(true) <==> FileOf(o) !in old(files)
      ensures |files| == |old(files)| + if added == Some(true) then 1 else 0
    {
      if FileOf(o) in files {
        if Content(files[FileOf(o)]) != Content(o) {
          return None;
        }
        return Some(false);
      }
      files := files[FileOf(o) := o];
      added := Some(true);
    }

    method WriteCurrentView()
      requires Valid()
      modifies this`current
      ensures Valid() && IsCurrentView(files, current)
    {
      var rows;
      var best := SelectFrom(files, EVERYTHING);
      var ids := Enumerate(best.Keys);
      var byId := (id: string) => Rank(0, 0, id);
      var sorted := Sort(byId, ids);
      SortSorts(byId, ids);
      SortElements(byId, ids);
      PermutedNoDuplicates(ids, sorted);
      rows := seq(|sorted|, i requires 0 <= i < |sorted| && sorted[i] in best => best[sorted[i]]);
      current := rows;
      ViewOf(files, best, sorted, rows);
    }
  }

  /** The view lists, in id order, exactly the unfiltered hindsight selection. */
  ghost predicate IsCurrentView(files: Files, rows: seq<Observation>) {
    && (forall i, j :: 0 <= i < j < |rows| ==>
          rows[i].intelligenceId != rows[j].intelligenceId && StringLeq(rows[i].intelligenceId, rows[j].intelligenceId))
    && (forall o :: o in rows ==> IsLatest(files, EVERYTHING, o))
    && forall o :: Candidate(files, EVERYTHING, o) ==> exists i :: 0 <= i < |rows| && rows[i].intelligenceId == o.intelligenceId
  }

  lemma ViewOf(files: Files, best: map<string, Observation>, sorted: seq<string>, rows: seq<Observation>)
    requires IsSelection(files, EVERYTHING, best) && NoDuplicates(sorted) && SortedBy((id: string) => Rank(0, 0, id), sorted)
    requires forall id :: id in sorted <==> id in best
    requires |rows| == |sorted| && forall i :: 0 <= i < |rows| ==> sorted[i] in best && rows[i] == best[sorted[i]]
    ensures IsCurrentView(files, rows)
  {
    var byId := (id: string) => Rank(0, 0, id);
    forall i, j | 0 <= i < j < |rows|
      ensures rows[i].intelligenceId != rows[j].intelligenceId && StringLeq(rows[i].intelligenceId, rows[j].intelligenceId)
    {
      assert Leq(byId(sorted[i]), byId(sorted[j]));
    }
    forall o | Candidate(files, EVERYTHING, o)
      ensures exists i :: 0 <= i < |rows| && rows[i].intelligenceId == o.intelligenceId
    {
      assert o.intelligenceId in sorted;
      var i :| 0 <= i < |sorted| && sorted[i] == o.intelligenceId;
      assert rows[i].intelligenceId == o.intelligenceId;
    }
  }

  /** The files are what storing `done` makes of `start`, and nothing of it collided. */
  ghost predicate Filed(start: Files, done: seq<Observation>, files: Files) {
    files == StoreAll(start, done) && Compatible(start, done)
  }

  lemma FiledNext(start: Files, done: seq<Observation>, files: Files, o: Observation)
    requires Filed(start, done, files)
    ensures !Collides(files, o) ==> Filed(start, done + [o], Store(files, o))
    ensures Collides(files, o) ==> Store(files, o) == files
  {
    StoreGrows(start, done, o);
  }

  lemma StoreGrows(files: Files, done: seq<Observation>, o: Observation)
    ensures StoreAll(files, done + [o]) == Store(StoreAll(files, done), o)
    ensures Compatible(files, done + [o]) <==> Compatible(files, done) && !Collides(StoreAll(files, done), o)
  {
    assert (done + [o])[..|done|] == done;
  }

  lemma {:induction false} CollisionIsFinal(files: Files, values: seq<Observation>, i: nat)
    requires i < |values| && Collides(StoreAll(files, values[..i]), values[i])
    ensures !Compatible(files, values)
    decreases |values|
  {
    var n := |values| - 1;
    if i < n {
      assert values[..n][..i] == values[..i];
      CollisionIsFinal(files, values[..n], i);
    }
  }

  // ----- immutability and stability -----

  /** A stored revision is never changed, and the store stays well filed. */
  lemma {:induction false} FilesOnlyGrow(files: Files, values: seq<Observation>)
    requires WellFiled(files)
    ensures WellFiled(StoreAll(files, values))
    ensures forall k :: k in files ==> k in StoreAll(files, values) && StoreAll(files, values)[k] == files[k]
    ensures forall k :: k in StoreAll(files, values) && k !in files ==> StoreAll(files, values)[k] in values
    ensures forall o :: o in values ==> FileOf(o) in StoreAll(files, values)
  {
    if values != [] {
      FilesOnlyGrow(files, values[..|values| - 1]);
      assert values == values[..|values| - 1] + [values[|values| - 1]];
    }
  }

  /** Stability of the past: values that are already stored, or only become available after the bound, leave
      every as-of selection at that bound unchanged. */
  lemma PastSelectionStable(files: Files, values: seq<Observation>, q: Query, before: map<string, Observation>,
                            after: map<string, Observation>)
    requires WellFiled(files) && !q.hindsight
    requires forall o :: o in values ==> FileOf(o) in files || q.bound < o.availableAt
    requires IsSelection(files, q, before) && IsSelection(StoreAll(files, values), q, after)
    ensures before == after
  {
    var grown := StoreAll(files, values);
    SameCandidates(files, values, q);
    SameLatest(files, grown, q);
    SelectionUnique(files, q, before, after);
  }

  lemma SameCandidates(files: Files, values: seq<Observation>, q: Query)
    requires WellFiled(files) && !q.hindsight
    requires forall o :: o in values ==> FileOf(o) in files || q.bound < o.availableAt
    ensures forall o :: Candidate(StoreAll(files, values), q, o) <==> Candidate(files, q, o)
  {
    FilesOnlyGrow(files, values);
  }

  lemma SameLatest(files: Files, grown: Files, q: Query)
    requires forall o :: Candidate(grown, q, o) <==> Candidate(files, q, o)
    ensures forall o :: IsLatest(grown, q, o) <==> IsLatest(files, q, o)
  {
  }

  /** Re-ingesting what is already stored changes no file, whatever availability the new copies claim. */
  lemma {:induction false} ReingestIsIdempotent(files: Files, values: seq<Observation>)
    requires forall o :: o in values ==> FileOf(o) in files
    ensures StoreAll(files, values) == files
  {
    if values != [] {
      assert values[|values| - 1] in values;
      ReingestIsIdempotent(files, values[..|values| - 1]);
    }
  }

  // ----- resumable sync -----

  datatype Page = Page(data: seq<Observation>, next: Option<string>)

  /** What the remote serves at each cursor; `None` is the first page. */
  type Remote = Option<string> -> Page

  /** Every value of the page is filed with the content the page gave it. */
  predicate HasCopy(files: Files, o: Observation) {
    FileOf(o) in files && Content(files[FileOf(o)]) == Content(o)
  }

  ghost predicate Covered(files: Files, page: Page) {
    forall o :: o in page.data ==> HasCopy(files, o)
  }

  ghost predicate Follows(remote: Remote, path: seq<Option<string>>) {
    && path != [] && path[0] == None
    && forall i :: 0 <= i < |path| - 1 ==> remote(path[i]).next.Some? && path[i + 1] == remote(path[i]).next
  }

  /** The stored checkpoint is the end of a path of pages from the start, all fully ingested. */
  ghost predicate CheckpointSound(remote: Remote, files: Files, checkpoint: Option<string>) {
    exists path :: Follows(remote, path) && path[|path| - 1] == checkpoint
      && forall i :: 0 <= i < |path| - 1 ==> Covered(files, remote(path[i]))
  }

  lemma {:induction false} CompatibleCovers(files: Files, values: seq<Observation>)
    requires WellFiled(files) && Compatible(files, values)
    ensures Covered(StoreAll(files, values), Page(values, None))
  {
    if values != [] {
      var init, last := values[..|values| - 1], values[|values| - 1];
      CompatibleCovers(files, init);
      FilesOnlyGrow(files, init);
      assert values == init + [last];
    }
  }

  lemma CoverageGrows(files: Files, grown: Files, page: Page)
    requires Covered(files, page) && forall k :: k in files ==> k in grown && grown[k] == files[k]
    ensures Covered(grown, page)
  {
  }

  lemma CheckpointSurvives(remote: Remote, files: Files, grown: Files, checkpoint: Option<string>)
    requires CheckpointSound(remote, files, checkpoint)
    requires forall k :: k in files ==> k in grown && grown[k] == files[k]
    ensures CheckpointSound(remote, grown, checkpoint)
  {
    var path :| Follows(remote, path) && path[|path| - 1] == checkpoint
      && forall i :: 0 <= i < |path| - 1 ==> Covered(files, remote(path[i]));
    forall i | 0 <= i < |path| - 1
      ensures Covered(grown, remote(path[i]))
    {
      CoverageGrows(files, grown, remote(path[i]));
    }
  }

  lemma CheckpointAdvances(remote: Remote, files: Files, cursor: Option<string>)
    requires CheckpointSound(remote, files, cursor) && Covered(files, remote(cursor)) && remote(cursor).next.Some?
    ensures CheckpointSound(remote, files, remote(cursor).next)
  {
    var path :| Follows(remote, path) && path[|path| - 1] == cursor
      && forall i :: 0 <= i < |path| - 1 ==> Covered(files, remote(path[i]));
    var longer := path + [remote(cursor).next];
    forall i | 0 <= i < |longer| - 1
      ensures Covered(files, remote(longer[i]))
    {
    }
    assert Follows(remote, longer);
  }

  lemma FreshLakeSound(remote: Remote)
    ensures CheckpointSound(remote, map[], None)
  {
    assert Follows(remote, [None]);
  }

  /** How a sync run ends: normally, cancelled between pages, by a collision, or by a crash. */
  datatype Ending = Finished | Cancelled | Collided | Crashed

  /** What happens to one run from outside: before which page it is cancelled, in which page the process dies
      and how many of that page's values it has written by then, and how many values of each page the
      cancellation callback lets through. */
  datatype Events = Events(cancelAt: Option<nat>, crashAt: Option<nat>, partial: nat, letThrough: nat -> nat)

  /** The page whose ingest was cut short: its number in the run and the cursor it was read at. */
  datatype CutPage = CutPage(number: nat, cursor: Option<string>)

  /** Where a run stands, or how it ended. */
  datatype Report = Report(
    files: Files,
    checkpoint: Option<string>,
    ending: Ending,
    pages: nat,
    received: nat,
    added: nat,
    duplicates: nat,
    cut: Option<CutPage>)

  function Begin(files: Files, checkpoint: Option<string>): Report {
    Report(files, checkpoint, Finished, 0, 0, 0, 0, None)
  }

  ghost predicate Bounded(remote: Remote, cursors: set<string>) {
    forall c :: remote(c).next.Some? ==> remote(c).next.value in cursors
  }

  /** The position of the first value that collides when it is reached, or the number of values. */
  function FirstCollision(files: Files, values: seq<Observation>): (i: nat)
    ensures i <= |values| && Compatible(files, values[..i])
    ensures i < |values| ==> Collides(StoreAll(files, values[..i]), values[i])
    ensures i == |values| <==> Compatible(files, values)
  {
    if values == [] then 0
    else
      var n := |values| - 1;
      var i := FirstCollision(files, values[..n]);
      assert values[..n][..i] == values[..i];
      if i < n then CollisionIsFinal(files, values, i); i
      else if Collides(StoreAll(files, values[..n]), values[n]) then n
      else assert values[..|values|] == values; |values|
  }

  /** One page fully or partly ingested. */
  function AfterPage(r: Report, page: Page, stop: nat): Report {
    var reached := Reached(page.data, stop);
    var files := StoreAll(r.files, reached);
    var added := |files| - |r.files|;
    r.(files := files, pages := r.pages + 1, received := r.received + |reached|,
       added := r.added + (if added > 0 then added else 0),
       duplicates := r.duplicates + (if |reached| > added then |reached| - added else 0),
       cut := if stop < |page.data| && r.cut.None? then Some(CutPage(r.pages, r.checkpoint)) else r.cut)
  }

  /** The whole run: pages are read until there is no new cursor, and a cursor seen before also ends it. The checkpoint
      moves on after every page, whether or not the page was cut short. */
  ghost function Synced(remote: Remote, cursors: set<string>, events: Events, r: Report, seen: set<string>): Report
    requires Bounded(remote, cursors) && seen <= cursors
    decreases cursors - seen
  {
    var page := remote(r.checkpoint);
    var reached := Reached(page.data, events.letThrough(r.pages));
    if events.cancelAt == Some(r.pages) then r.(ending := Cancelled)
    else if events.crashAt == Some(r.pages) then
      r.(ending := Crashed, files := StoreAll(r.files, Reached(page.data, events.partial)))
    else if !Compatible(r.files, reached) then
      r.(ending := Collided, files := StoreAll(r.files, reached[..FirstCollision(r.files, reached)]))
    else
      var next := AfterPage(r, page, events.letThrough(r.pages));
      if page.next.None? || page.next.value in seen then next.(ending := Finished)
      else
        assert page.next.value in cursors - seen;
        Synced(remote, cursors, events, next.(checkpoint := page.next), seen + {page.next.value})
  }

  lemma CollisionsAgree(files: Files, values: seq<Observation>, i: nat)
    requires i < |values| && Compatible(files, values[..i]) && Collides(StoreAll(files, values[..i]), values[i])
    ensures FirstCollision(files, values) == i
  {
    var j := FirstCollision(files, values);
    CollisionIsFinal(files, values, i);
    if i < j {
      assert values[..j][..i] == values[..i];
      CollisionIsFinal(files, values[..j], i);
    } else if j < i {
      assert values[..i][..j] == values[..j];
      CollisionIsFinal(files, values[..i], j);
    }
  }

  /** Reads one page into the lake; false when it raised. The checkpoint is not touched. */
  method ReadPage(lake: RevisionLake, page: Page, stop: nat, ghost r: Report) returns (ok: bool, received: nat, added: nat, duplicates: nat)
    requires lake.Valid() && r.files == lake.files && r.checkpoint == lake.checkpoint
    modifies lake
    ensures lake.Valid() && lake.checkpoint == old(lake.checkpoint)
    ensures var reached := Reached(page.data, stop);
      && (ok <==> Compatible(r.files, reached))
      && (!ok ==> lake.files == StoreAll(r.files, reached[..FirstCollision(r.files, reached)]))
      && (ok ==>
            var next := AfterPage(r, page, stop);
            && lake.files == next.files && r.received + received == next.received && r.added + added == next.added
            && r.duplicates + duplicates == next.duplicates)
  {
    ghost var reached := Reached(page.data, stop);
    var outcome := lake.Ingest(page.data, stop, None);
    ok := outcome.Ingested?;
    received, added, duplicates := 0, 0, 0;
    if ok {
      received, added, duplicates := outcome.received, outcome.added, outcome.duplicates;
    } else {
      assert reached[..outcome.index] == page.data[..outcome.index];
      CollisionsAgree(r.files, reached, outcome.index);
    }
  }

  /** The process dies inside a page: some of its values are on disk, the checkpoint file is as it was. */
  method CrashInPage(lake: RevisionLake, page: Page, partial: nat)
    requires lake.Valid()
    modifies lake
    ensures lake.Valid() && lake.checkpoint == old(lake.checkpoint)
    ensures lake.files == StoreAll(old(lake.files), Reached(page.data, partial))
  {
    FilesOnlyGrow(lake.files, Reached(page.data, partial));
    lake.files := StoreAll(lake.files, Reached(page.data, partial));
  }

  /** The page loop on a lake computes exactly that run. */
  method Sync(lake: RevisionLake, remote: Remote, ghost cursors: set<string>, events: Events)
    returns (ending: Ending, pages: nat, received: nat, added: nat, duplicates: nat, ghost cut: Option<CutPage>)
    requires lake.Valid() && Bounded(remote, cursors)
    modifies lake
    ensures lake.Valid()
    ensures Report(lake.files, lake.checkpoint, ending, pages, received, added, duplicates, cut)
      == Synced(remote, cursors, events, Begin(old(lake.files), old(lake.checkpoint)), {})
  {
    ghost var r := Begin(lake.files, lake.checkpoint);
    ghost var start := r;
    var seen: set<string> := {};
    pages, received, added, duplicates, cut := 0, 0, 0, 0, None;
    while true
      invariant lake.Valid() && seen <= cursors
      invariant r == Report(lake.files, lake.checkpoint, Finished, pages, received, added, duplicates, cut)
      invariant Synced(remote, cursors, events, r, seen) == Synced(remote, cursors, events, start, {})
      decreases cursors - seen
    {
      var page := remote(lake.checkpoint);
      if events.cancelAt == Some(pages) {
        ending := Cancelled;
        return;
      }
      if events.crashAt == Some(pages) {
        CrashInPage(lake, page, events.partial);
        ending := Crashed;
        return;
      }
      var ok, got, newly, known := ReadPage(lake, page, events.letThrough(pages), r);
      if !ok {
        ending := Collided;
        return;
      }
      r := AfterPage(r, page, events.letThrough(pages));
      pages, received, added, duplicates, cut := pages + 1, received + got, added + newly, duplicates + known, r.cut;
      if page.next.None? || page.next.value in seen {
        ending := Finished;
        return;
      }
      seen := seen + {page.next.value};
      lake.checkpoint := page.next;
      r := r.(checkpoint := page.next);
    }
  }

  // ----- what every run leaves -----

  ghost predicate Grown(before: Files, after: Files) {
    forall k :: k in before ==> k in after && after[k] == before[k]
  }

  lemma AllGrown(files: Files, values: seq<Observation>)
    requires WellFiled(files)
    ensures WellFiled(StoreAll(files, values)) && Grown(files, StoreAll(files, values))
  {
    FilesOnlyGrow(files, values);
  }

  /** Stored revisions stay, and the store stays well filed. */
  lemma {:induction false} SyncedGrows(remote: Remote, cursors: set<string>, events: Events, r: Report, seen: set<string>)
    requires Bounded(remote, cursors) && seen <= cursors && WellFiled(r.files)
    ensures var t := Synced(remote, cursors, events, r, seen); WellFiled(t.files) && Grown(r.files, t.files)
    decreases cursors - seen
  {
    var page := remote(r.checkpoint);
    var reached := Reached(page.data, events.letThrough(r.pages));
    if events.cancelAt != Some(r.pages) {
      if events.crashAt == Some(r.pages) {
        AllGrown(r.files, Reached(page.data, events.partial));
      } else if !Compatible(r.files, reached) {
        AllGrown(r.files, reached[..FirstCollision(r.files, reached)]);
      } else {
        AllGrown(r.files, reached);
        if page.next.Some? && page.next.value !in seen {
          var next := AfterPage(r, page, events.letThrough(r.pages)).(checkpoint := page.next);
          SyncedGrows(remote, cursors, events, next, seen + {page.next.value});
        }
      }
    }
  }

  /** The loop reads at most one page more than there are cursors it has not seen. */
  lemma {:induction false} PagesBounded(remote: Remote, cursors: set<string>, events: Events, r: Report, seen: set<string>)
    requires Bounded(remote, cursors) && seen <= cursors
    ensures Synced(remote, cursors, events, r, seen).pages <= r.pages + |cursors - seen| + 1
    decreases cursors - seen
  {
    var page := remote(r.checkpoint);
    if page.next.Some? && page.next.value !in seen {
      assert cursors - (seen + {page.next.value}) == cursors - seen - {page.next.value};
      var next := AfterPage(r, page, events.letThrough(r.pages)).(checkpoint := page.next);
      PagesBounded(remote, cursors, events, next, seen + {page.next.value});
    }
  }

  /** A page is cut only where the callback lets through fewer values than the page has. */
  lemma {:induction false} CutWhere(remote: Remote, cursors: set<string>, events: Events, r: Report, seen: set<string>)
    requires Bounded(remote, cursors) && seen <= cursors
    requires r.cut.Some? ==> events.letThrough(r.cut.value.number) < |remote(r.cut.value.cursor).data|
    ensures var t := Synced(remote, cursors, events, r, seen);
      && (t.cut.Some? ==> events.letThrough(t.cut.value.number) < |remote(t.cut.value.cursor).data|)
      && (r.cut.Some? ==> t.cut == r.cut)
    decreases cursors - seen
  {
    var page := remote(r.checkpoint);
    if page.next.Some? && page.next.value !in seen {
      CutWhere(remote, cursors, events, AfterPage(r, page, events.letThrough(r.pages)).(checkpoint := page.next),
               seen + {page.next.value});
    }
  }

  /** However a run ends, if no page of it was cut short, the checkpoint it leaves is sound; and if it finished, the page
      at the checkpoint is covered too. */
  lemma {:induction false} SyncedSound(remote: Remote, cursors: set<string>, events: Events, r: Report, seen: set<string>)
    requires Bounded(remote, cursors) && seen <= cursors && WellFiled(r.files)
    requires r.cut.None? && CheckpointSound(remote, r.files, r.checkpoint)
    ensures var t := Synced(remote, cursors, events, r, seen);
      t.cut.None? ==>
        CheckpointSound(remote, t.files, t.checkpoint) && (t.ending == Finished ==> Covered(t.files, remote(t.checkpoint)))
    decreases cursors - seen
  {
    var page := remote(r.checkpoint);
    var reached := Reached(page.data, events.letThrough(r.pages));
    if events.cancelAt != Some(r.pages) {
      if events.crashAt == Some(r.pages) {
        StaysSound(remote, r.files, Reached(page.data, events.partial), r.checkpoint);
      } else if !Compatible(r.files, reached) {
        StaysSound(remote, r.files, reached[..FirstCollision(r.files, reached)], r.checkpoint);
      } else {
        PageSound(remote, cursors, events, r, seen);
      }
    }
  }

  lemma {:induction false} PageSound(remote: Remote, cursors: set<string>, events: Events, r: Report, seen: set<string>)
    requires Bounded(remote, cursors) && seen <= cursors && WellFiled(r.files)
    requires r.cut.None? && CheckpointSound(remote, r.files, r.checkpoint)
    requires events.cancelAt != Some(r.pages) && events.crashAt != Some(r.pages)
    requires Compatible(r.files, Reached(remote(r.checkpoint).data, events.letThrough(r.pages)))
    ensures var t := Synced(remote, cursors, events, r, seen);
      t.cut.None? ==>
        CheckpointSound(remote, t.files, t.checkpoint) && (t.ending == Finished ==> Covered(t.files, remote(t.checkpoint)))
    decreases cursors - seen, 0
  {
    var page, stop := remote(r.checkpoint), events.letThrough(r.pages);
    var next := AfterPage(r, page, stop);
    StaysSound(remote, r.files, Reached(page.data, stop), r.checkpoint);
    if next.cut.None? {
      assert Reached(page.data, stop) == page.data;
      CompatibleCovers(r.files, page.data);
      if page.next.Some? && page.next.value !in seen {
        CheckpointAdvances(remote, next.files, r.checkpoint);
        SyncedSound(remote, cursors, events, next.(checkpoint := page.next), seen + {page.next.value});
      }
    } else if page.next.Some? && page.next.value !in seen {
      CutStays(remote, cursors, events, next.(checkpoint := page.next), seen + {page.next.value});
    }
  }

  lemma {:induction false} CutStays(remote: Remote, cursors: set<string>, events: Events, r: Report, seen: set<string>)
    requires Bounded(remote, cursors) && seen <= cursors && r.cut.Some?
    ensures Synced(remote, cursors, events, r, seen).cut == r.cut
    decreases cursors - seen
  {
    var page := remote(r.checkpoint);
    if page.next.Some? && page.next.value !in seen {
      CutStays(remote, cursors, events, AfterPage(r, page, events.letThrough(r.pages)).(checkpoint := page.next),
               seen + {page.next.value});
    }
  }

  lemma StaysSound(remote: Remote, files: Files, values: seq<Observation>, checkpoint: Option<string>)
    requires WellFiled(files) && CheckpointSound(remote, files, checkpoint)
    ensures WellFiled(StoreAll(files, values)) && CheckpointSound(remote, StoreAll(files, values), checkpoint)
  {
    FilesOnlyGrow(files, values);
    CheckpointSurvives(remote, files, StoreAll(files, values), checkpoint);
  }

  // ----- many runs of one lake -----

  /** Any number of runs of a lake that starts empty, each going on from what the one before left behind. */
  ghost function LakeAfter(remote: Remote, cursors: set<string>, runs: seq<Events>): Report
    requires Bounded(remote, cursors)
  {
    if runs == [] then Begin(map[], None)
    else
      var before := LakeAfter(remote, cursors, runs[..|runs| - 1]);
      Synced(remote, cursors, runs[|runs| - 1], Begin(before.files, before.checkpoint), {})
  }

  /** No page was cut short in any of them. */
  ghost predicate Uncut(remote: Remote, cursors: set<string>, runs: seq<Events>)
    requires Bounded(remote, cursors)
  {
    forall n :: 0 <= n <= |runs| ==> LakeAfter(remote, cursors, runs[..n]).cut.None?
  }

  /** After any number of finished, cancelled, collided and crashed runs, everything before the stored checkpoint is
      ingested, as long as no page was cut short; if the last run finished, so is the page at the checkpoint. */
  lemma {:induction false} LakeStaysSound(remote: Remote, cursors: set<string>, runs: seq<Events>)
    requires Bounded(remote, cursors) && Uncut(remote, cursors, runs)
    ensures var r := LakeAfter(remote, cursors, runs);
      && WellFiled(r.files) && CheckpointSound(remote, r.files, r.checkpoint)
      && (runs != [] && r.ending == Finished ==> Covered(r.files, remote(r.checkpoint)))
  {
    if runs == [] {
      FreshLakeSound(remote);
    } else {
      var n := |runs| - 1;
      UncutBefore(remote, cursors, runs);
      LakeStaysSound(remote, cursors, runs[..n]);
      var before := LakeAfter(remote, cursors, runs[..n]);
      SyncedSound(remote, cursors, runs[n], Begin(before.files, before.checkpoint), {});
      SyncedGrows(remote, cursors, runs[n], Begin(before.files, before.checkpoint), {});
    }
  }

  lemma UncutBefore(remote: Remote, cursors: set<string>, runs: seq<Events>)
    requires Bounded(remote, cursors) && Uncut(remote, cursors, runs) && runs != []
    ensures Uncut(remote, cursors, runs[..|runs| - 1]) && LakeAfter(remote, cursors, runs).cut.None?
  {
    var init := runs[..|runs| - 1];
    assert runs[..|runs|] == runs;
    assert forall n :: 0 <= n <= |init| ==> init[..n] == runs[..n];
  }

  /** The callback never asks to stop inside a page. */
  ghost predicate LetsAllThrough(remote: Remote, events: Events) {
    forall n: nat, cursor: Option<string> :: |remote(cursor).data| <= events.letThrough(n)
  }

  lemma LastIsUncut(remote: Remote, cursors: set<string>, runs: seq<Events>)
    requires Bounded(remote, cursors) && runs != [] && LetsAllThrough(remote, runs[|runs| - 1])
    ensures LakeAfter(remote, cursors, runs).cut.None?
  {
    var before := LakeAfter(remote, cursors, runs[..|runs| - 1]);
    CutWhere(remote, cursors, runs[|runs| - 1], Begin(before.files, before.checkpoint), {});
  }

  lemma LetThroughIsUncut(remote: Remote, cursors: set<string>, runs: seq<Events>)
    requires Bounded(remote, cursors) && forall i :: 0 <= i < |runs| ==> LetsAllThrough(remote, runs[i])
    ensures Uncut(remote, cursors, runs)
  {
    forall n | 0 <= n <= |runs|
      ensures LakeAfter(remote, cursors, runs[..n]).cut.None?
    {
      if n > 0 {
        assert runs[..n][n - 1] == runs[n - 1];
        LastIsUncut(remote, cursors, runs[..n]);
      }
    }
  }

  /** So it is sound if none of the runs is asked to stop inside a page; crashes, collisions and stops between pages do no
      harm. */
  lemma LetThroughStaysSound(remote: Remote, cursors: set<string>, runs: seq<Events>)
    requires Bounded(remote, cursors) && forall i :: 0 <= i < |runs| ==> LetsAllThrough(remote, runs[i])
    ensures var r := LakeAfter(remote, cursors, runs);
      && CheckpointSound(remote, r.files, r.checkpoint)
      && (runs != [] && r.ending == Finished ==> Covered(r.files, remote(r.checkpoint)))
  {
    LetThroughIsUncut(remote, cursors, runs);
    LakeStaysSound(remote, cursors, runs);
  }

  // ----- cancellation inside a page -----

  /** What one value finds on file after the values before the cut: the copy that was there before, or that of the first
      value with its name that was reached. */
  ghost predicate FoundOnFile(files: Files, reached: seq<Observation>, o: Observation) {
    if FileOf(o) in files then Content(files[FileOf(o)]) == Content(o)
    else exists j :: 0 <= j < |reached| && FileOf(reached[j]) == FileOf(o) && Content(reached[j]) == Content(o)
  }

  lemma {:induction false} StoredContent(files: Files, reached: seq<Observation>, o: Observation)
    requires WellFiled(files) && Compatible(files, reached)
    ensures HasCopy(StoreAll(files, reached), o) <==> FoundOnFile(files, reached, o)
  {
    FilesOnlyGrow(files, reached);
    CompatibleCovers(files, reached);
    var stored := StoreAll(files, reached);
    if FileOf(o) !in files && FileOf(o) in stored {
      assert stored[FileOf(o)] in reached && FileOf(stored[FileOf(o)]) == FileOf(o);
      var j :| 0 <= j < |reached| && reached[j] == stored[FileOf(o)];
    }
    if j :| 0 <= j < |reached| && FileOf(reached[j]) == FileOf(o) && Content(reached[j]) == Content(o) {
      assert reached[j] in reached;
    }
  }

  /** When a cancelled page is covered all the same: exactly if every value not reached was on file before the ingest with
      its content, or is a copy of one that was reached. */
  lemma MidPageCancellation(files: Files, page: Page, stop: nat)
    requires WellFiled(files) && Compatible(files, Reached(page.data, stop))
    ensures Covered(StoreAll(files, Reached(page.data, stop)), page) <==>
      forall i :: stop <= i < |page.data| ==> FoundOnFile(files, Reached(page.data, stop), page.data[i])
  {
    var reached := Reached(page.data, stop);
    var stored := StoreAll(files, reached);
    CompatibleCovers(files, reached);
    forall i | 0 <= i < |page.data| && i < stop
      ensures HasCopy(stored, page.data[i])
    {
      assert page.data[i] == reached[i] && reached[i] in reached;
    }
    forall i | stop <= i < |page.data|
      ensures HasCopy(stored, page.data[i]) <==> FoundOnFile(files, reached, page.data[i])
    {
      StoredContent(files, reached, page.data[i]);
    }
    CoveredByIndex(stored, page);
  }

  lemma CoveredByIndex(files: Files, page: Page)
    ensures Covered(files, page) <==> forall i :: 0 <= i < |page.data| ==> HasCopy(files, page.data[i])
  {
    assert forall i :: 0 <= i < |page.data| ==> page.data[i] in page.data;
  }

  lemma UncoveredStartUnsound(remote: Remote, files: Files, checkpoint: Option<string>)
    requires checkpoint.Some? && !Covered(files, remote(None))
    ensures !CheckpointSound(remote, files, checkpoint)
  {
    forall path | Follows(remote, path) && path[|path| - 1] == checkpoint
      ensures !Covered(files, remote(path[0])) && 0 < |path| - 1
    {
    }
  }

  /** Such a run: a first sync of two pages is cancelled before the first value, whether the callback goes on asking for it
      and so ends the run at the second page, or not. It moves the checkpoint past a value that is not on file, so the
      value is never fetched again. */
  lemma CancelledRunIsUnsound(o: Observation, remote: Remote, events: Events)
    requires remote(None) == Page([o], Some("c")) && remote(Some("c")) == Page([], None)
    requires Bounded(remote, {"c"}) && events.cancelAt != Some(0) && events.crashAt.None? && events.letThrough(0) == 0
    ensures var r := Synced(remote, {"c"}, events, Begin(map[], None), {});
      r.ending == (if events.cancelAt == Some(1) then Cancelled else Finished)
      && r.checkpoint == Some("c") && FileOf(o) !in r.files
      && r.cut == Some(CutPage(0, None)) && !CheckpointSound(remote, r.files, r.checkpoint)
  {
    var first := Begin(map[], None);
    var second := AfterPage(first, remote(None), 0).(checkpoint := Some("c"));
    assert second.files == map[] && second.cut == Some(CutPage(0, None));
    assert Reached(remote(Some("c")).data, events.letThrough(1)) == [];
    var last := AfterPage(second, remote(Some("c")), events.letThrough(1));
    assert last.files == map[];
    assert Synced(remote, {"c"}, events, second, {"c"})
        == if events.cancelAt == Some(1) then second.(ending := Cancelled) else last.(ending := Finished);
    assert {} + {"c"} == {"c"};
    assert o in remote(None).data;
    UncoveredStartUnsound(remote, map[], Some("c"));
  }
}
